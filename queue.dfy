/** The post queue: the rows of the `posts` worksheet, how they are written
    (`str(v)` per cell, header first) and read back (`get_all_records`), and the
    table operations shared by the dashboard and the scheduler. */
module PostQueue {
  import opened Wrappers
  import opened Text

  /** The worksheet's header row, in column order. */
  const Columns: seq<string> := ["id", "series", "topic", "content", "status",
    "scheduled_date", "image_url", "post_url", "created_at", "published_at"]

  const Pending: string := "pending"
  const Draft: string := "draft"
  const Published: string := "published"
  const Failed: string := "failed"

  /** One row of the queue. `id` is the only cell read back as a number;
      every other cell is the text the sheet holds. */
  datatype PostRecord = PostRecord(
    id: nat,
    series: string,
    topic: string,
    content: string,
    status: string,
    scheduledDate: string,
    imageUrl: string,
    postUrl: string,
    createdAt: string,
    publishedAt: string)

  /** What `pd.to_datetime` makes of a `scheduled_date` cell: an empty cell
      and the text `str` writes for a missing time are NaT, a well-formed
      timestamp is a point in time, anything else makes the conversion raise.
      Timestamps are written here as decimal seconds of local time. */
  datatype Stamp = NaT | At(seconds: nat) | Unparsable

  /** `str(pd.NaT)`. */
  const NaTText: string := "NaT"

  function ParseStamp(s: string): Stamp
  {
    if s == "" || s == NaTText then NaT
    else if IsDigits(s) then At(DigitsValue(s)) else Unparsable
  }

  /** `datetime.isoformat()` of a point in time. */
  function StampText(t: nat): string
  {
    NatToString(t)
  }

  lemma StampRoundTrip(t: nat)
    ensures ParseStamp(StampText(t)) == At(t)
  {
    NatToStringRoundTrip(t);
  }

  /** A cell after `pd.to_datetime(..., errors='coerce')` and `str(v)`: a
      point in time is written out again, anything else becomes "NaT". */
  function CoerceStamp(s: string): string
  {
    match ParseStamp(s)
    case At(t) => StampText(t)
    case _ => NaTText
  }

  /** Coercion keeps every point in time, turns every other cell into a
      missing time (never into one that fails to parse), and is idempotent. */
  lemma CoerceStampKeepsTime(s: string)
    ensures ParseStamp(CoerceStamp(s)) == (if ParseStamp(s).At? then ParseStamp(s) else NaT)
    ensures CoerceStamp(CoerceStamp(s)) == CoerceStamp(s)
  {
    if ParseStamp(s).At? {
      StampRoundTrip(ParseStamp(s).seconds);
    } else {
      assert CoerceStamp(s) == NaTText;
    }
  }

  /** `[str(v) for v in row.values]`. */
  function Encode(r: PostRecord): (cells: seq<string>)
    ensures |cells| == |Columns|
  {
    [NatToString(r.id), r.series, r.topic, r.content, r.status,
     r.scheduledDate, r.imageUrl, r.postUrl, r.createdAt, r.publishedAt]
  }

  function DecodeRow(cells: seq<string>): Option<PostRecord>
  {
    if |cells| == |Columns| && IsDigits(cells[0]) then
      Some(PostRecord(DigitsValue(cells[0]), cells[1], cells[2], cells[3], cells[4],
                      cells[5], cells[6], cells[7], cells[8], cells[9]))
    else None
  }

  function DecodeRows(rows: seq<seq<string>>): Option<seq<PostRecord>>
    decreases |rows|
  {
    if rows == [] then Some([])
    else match DecodeRow(rows[0])
      case None => None
      case Some(r) =>
        match DecodeRows(rows[1..])
        case None => None
        case Some(t) => Some([r] + t)
  }

  /** `get_all_records()` on the posts worksheet: an empty sheet has no
      records; otherwise the first line must be the header. */
  function ReadTable(lines: seq<seq<string>>): Option<seq<PostRecord>>
  {
    if lines == [] then Some([])
    else if lines[0] != Columns then None
    else DecodeRows(lines[1..])
  }

  function EncodeRows(t: seq<PostRecord>): (rows: seq<seq<string>>)
    ensures |rows| == |t|
    ensures forall i :: 0 <= i < |t| ==> rows[i] == Encode(t[i])
  {
    seq(|t|, i requires 0 <= i < |t| => Encode(t[i]))
  }

  /** The sheet `update_sheet` leaves behind: the header, then every row. */
  function TableLines(t: seq<PostRecord>): seq<seq<string>>
  {
    [Columns] + EncodeRows(t)
  }

  lemma DecodeEncodeRow(r: PostRecord)
    ensures DecodeRow(Encode(r)) == Some(r)
  {
    NatToStringRoundTrip(r.id);
  }

  lemma {:induction false} DecodeEncodeRows(t: seq<PostRecord>)
    ensures DecodeRows(EncodeRows(t)) == Some(t)
    decreases |t|
  {
    if t != [] {
      DecodeEncodeRow(t[0]);
      DecodeEncodeRows(t[1..]);
      assert EncodeRows(t)[1..] == EncodeRows(t[1..]);
      assert t == [t[0]] + t[1..];
    }
  }

  /** Reading the sheet back after a rewrite gives exactly the table that was
      written, rows in the same order. */
  lemma ReadAfterRewrite(t: seq<PostRecord>)
    ensures ReadTable(TableLines(t)) == Some(t)
  {
    DecodeEncodeRows(t);
    assert TableLines(t)[1..] == EncodeRows(t);
  }

  lemma {:induction false} DecodeRowsAppend(rows: seq<seq<string>>, r: PostRecord, t: seq<PostRecord>)
    requires DecodeRows(rows) == Some(t)
    ensures DecodeRows(rows + [Encode(r)]) == Some(t + [r])
    decreases |rows|
  {
    if rows == [] {
      DecodeEncodeRow(r);
      assert rows + [Encode(r)] == [Encode(r)];
      assert [Encode(r)][1..] == [];
      assert t + [r] == [r] + [];
    } else {
      var tail := DecodeRows(rows[1..]).value;
      DecodeRowsAppend(rows[1..], r, tail);
      var rows' := rows + [Encode(r)];
      assert rows'[0] == rows[0];
      assert rows'[1..] == rows[1..] + [Encode(r)];
      assert t == [DecodeRow(rows[0]).value] + tail;
      assert t + [r] == [DecodeRow(rows[0]).value] + (tail + [r]);
    }
  }

  /** Appending one encoded row to a readable sheet with a header adds that
      record at the end of what is read back. */
  lemma ReadAfterAppend(lines: seq<seq<string>>, r: PostRecord)
    requires lines != [] && ReadTable(lines).Some?
    ensures ReadTable(lines + [Encode(r)]) == Some(ReadTable(lines).value + [r])
  {
    DecodeRowsAppend(lines[1..], r, ReadTable(lines).value);
    assert (lines + [Encode(r)])[1..] == lines[1..] + [Encode(r)];
  }

  /** `len(sheet_to_df(sheet))`: one record per line after the header. */
  function RecordCount(lines: seq<seq<string>>): nat
  {
    if lines == [] then 0 else |lines| - 1
  }

  lemma {:induction false} DecodeRowsLength(rows: seq<seq<string>>)
    requires DecodeRows(rows).Some?
    ensures |DecodeRows(rows).value| == |rows|
    decreases |rows|
  {
    if rows != [] {
      DecodeRowsLength(rows[1..]);
    }
  }

  /** The record count is the length of the table that is read. */
  lemma RecordCountIsTableLength(lines: seq<seq<string>>)
    requires ReadTable(lines).Some?
    ensures |ReadTable(lines).value| == RecordCount(lines)
  {
    if lines != [] {
      DecodeRowsLength(lines[1..]);
    }
  }

  /** The id rule of the dashboard: `len(posts_df) + 1 if not posts_df.empty else 1`. */
  function NextId(count: nat): nat
  {
    if count == 0 then 1 else count + 1
  }

  /** The fields a status change leaves alone. */
  predicate SameEntry(a: PostRecord, b: PostRecord)
  {
    a.id == b.id && a.series == b.series && a.topic == b.topic && a.content == b.content
    && a.scheduledDate == b.scheduledDate && a.imageUrl == b.imageUrl && a.createdAt == b.createdAt
  }

  /** The three `posts_df.loc[posts_df['id'] == id, ...] = ...` assignments:
      every row carrying `id` becomes published with the given url and time;
      every other row is untouched. */
  function MarkPublished(t: seq<PostRecord>, id: nat, url: string, at: string): (r: seq<PostRecord>)
    ensures |r| == |t|
    ensures forall i :: 0 <= i < |t| && t[i].id != id ==> r[i] == t[i]
    ensures forall i :: 0 <= i < |t| && t[i].id == id ==>
      SameEntry(r[i], t[i]) && r[i].status == Published && r[i].postUrl == url && r[i].publishedAt == at
  {
    seq(|t|, i requires 0 <= i < |t| =>
      if t[i].id == id then t[i].(status := Published, postUrl := url, publishedAt := at) else t[i])
  }

  /** The `.loc` updates as the row-by-row pass pandas makes over the frame. */
  method SetPublished(t: seq<PostRecord>, id: nat, url: string, at: string) returns (r: seq<PostRecord>)
    ensures r == MarkPublished(t, id, url, at)
  {
    r := t;
    var i := 0;
    while i < |r|
      invariant 0 <= i <= |r| == |t|
      invariant r[..i] == MarkPublished(t, id, url, at)[..i]
      invariant r[i..] == t[i..]
    {
      if r[i].id == id {
        r := r[i := r[i].(status := Published, postUrl := url, publishedAt := at)];
      }
      assert r[i] == MarkPublished(t, id, url, at)[i];
      i := i + 1;
    }
  }

  /** `posts_df[posts_df['id'] != id]`. */
  function RemoveId(t: seq<PostRecord>, id: nat): (r: seq<PostRecord>)
    ensures |r| <= |t|
    decreases |t|
  {
    if t == [] then []
    else RemoveId(t[..|t| - 1], id) + (if t[|t| - 1].id != id then [t[|t| - 1]] else [])
  }

  /** Delete keeps exactly the rows that do not carry `id`. */
  lemma {:induction false} RemoveIdKeeps(t: seq<PostRecord>, id: nat)
    ensures forall x :: x in RemoveId(t, id) <==> x in t && x.id != id
    decreases |t|
  {
    if t != [] {
      var init := t[..|t| - 1];
      RemoveIdKeeps(init, id);
      assert t == init + [t[|t| - 1]];
    }
  }

  /** Deleting keeps the surviving rows in their order: it distributes over
      concatenation. */
  lemma {:induction false} RemoveIdAppend(a: seq<PostRecord>, b: seq<PostRecord>, id: nat)
    ensures RemoveId(a + b, id) == RemoveId(a, id) + RemoveId(b, id)
    decreases |b|
  {
    if b == [] {
      assert a + b == a;
    } else {
      var b' := b[..|b| - 1];
      RemoveIdAppend(a, b', id);
      assert (a + b)[..|a + b| - 1] == a + b';
      assert (a + b)[|a + b| - 1] == b[|b| - 1];
      assert RemoveId(b, id) == RemoveId(b', id) + (if b[|b| - 1].id != id then [b[|b| - 1]] else []);
    }
  }

  lemma {:induction false} RemoveAbsentId(t: seq<PostRecord>, id: nat)
    requires forall i :: 0 <= i < |t| ==> t[i].id != id
    ensures RemoveId(t, id) == t
    decreases |t|
  {
    if t != [] {
      var init, last := t[..|t| - 1], t[|t| - 1];
      RemoveAbsentId(init, id);
      assert last.id != id;
      assert t == init + [last];
    }
  }

  /** Rows numbered 1, 2, ..., n in order, as the id rule assigns them when
      nothing has been deleted. */
  predicate NumberedFromOne(t: seq<PostRecord>)
  {
    forall i :: 0 <= i < |t| ==> t[i].id == i + 1
  }

  lemma {:induction false} RemoveFromNumbered(t: seq<PostRecord>, victim: nat)
    requires NumberedFromOne(t) && 1 <= victim <= |t|
    ensures |RemoveId(t, victim)| == |t| - 1
    decreases |t|
  {
    var init := t[..|t| - 1];
    if victim == |t| {
      RemoveAbsentId(init, victim);
    } else {
      RemoveFromNumbered(init, victim);
    }
  }

  /** The `len + 1` rule does not give unique ids: after deleting any row but
      the last from a table numbered 1..n, the next id is n, which the last row
      still carries. */
  lemma NextIdCollidesAfterDelete(t: seq<PostRecord>, victim: nat)
    requires NumberedFromOne(t) && 1 <= victim < |t|
    ensures var rest := RemoveId(t, victim);
      |rest| > 0 && rest[|rest| - 1] == t[|t| - 1] && rest[|rest| - 1].id == NextId(|rest|)
  {
    RemoveFromNumbered(t, victim);
  }

  /** The posts worksheet: a list of rows of cells that is cleared and
      appended to. */
  class Worksheet {
    var lines: seq<seq<string>>

    constructor (initial: seq<seq<string>>)
      ensures lines == initial
    {
      lines := initial;
    }

    /** `sheet.clear()`. */
    method Clear()
      modifies this
      ensures lines == []
    {
      lines := [];
    }

    /** `sheet.append_row(row)`. */
    method AppendRow(row: seq<string>)
      modifies this
      ensures lines == old(lines) + [row]
    {
      lines := lines + [row];
    }
  }

  /** `update_sheet`: clear, write the header, then append every row in order. */
  method UpdateSheet(sheet: Worksheet, t: seq<PostRecord>)
    modifies sheet
    ensures sheet.lines == TableLines(t)
  {
    sheet.Clear();
    sheet.AppendRow(Columns);
    var i := 0;
    while i < |t|
      invariant 0 <= i <= |t|
      invariant sheet.lines == [Columns] + EncodeRows(t)[..i]
    {
      sheet.AppendRow(Encode(t[i]));
      assert EncodeRows(t)[..i + 1] == EncodeRows(t)[..i] + [Encode(t[i])];
      i := i + 1;
    }
    assert EncodeRows(t)[..|t|] == EncodeRows(t);
  }
}
