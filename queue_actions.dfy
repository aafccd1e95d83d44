/** What the dashboard does to the posts worksheet: classify an instant post,
    add one post, schedule or save a generated series, post a queued row now,
    and delete a row. */
module QueueActions {
  import opened Wrappers
  import opened Text
  import opened PostQueue
  import opened Scheduler
  import AiService

  /** The status an instant post is recorded with: failed when the lower-cased
      reply mentions "failed", "error" or "draft", published otherwise. */
  function Outcome(reply: string): (status: string)
    ensures status == Failed || status == Published
  {
    var low := Lower(reply);
    if Contains(low, "failed") || Contains(low, "error") || Contains(low, "draft") then Failed else Published
  }

  lemma LowerIdempotent(s: string)
    ensures Lower(Lower(s)) == Lower(s)
  {
  }

  /** The classification does not depend on letter case. */
  lemma OutcomeIgnoresCase(s: string)
    ensures Outcome(Lower(s)) == Outcome(s)
  {
    LowerIdempotent(s);
  }

  /** The replies of the browser publisher classify as intended: the three
      failure messages as failed, the feed url as published. */
  lemma LoginFailedIsFailure()
    ensures Outcome("Login failed") == Failed
  {
    var login := Lower("Login failed");
    assert login[6..12] == "failed";
    ContainsAt(login, "failed", 6);
  }

  /** Any reply that mentions a draft, in any letter case, is a failure. */
  lemma MentionsDraftIsFailure(pre: string, post: string)
    ensures Outcome(pre + "draft" + post) == Failed
  {
    LowerAppend(pre, "draft");
    LowerAppend(pre + "draft", post);
    assert Lower("draft") == "draft";
    ContainsMiddle(Lower(pre), "draft", Lower(post));
  }

  /** The reply of the browser publisher when the post stays a draft. */
  const SavedAsDraft: string := "Post saved as " + "draft" + " - manual action required"

  lemma SavedAsDraftIsFailure()
    ensures Outcome(SavedAsDraft) == Failed
  {
    MentionsDraftIsFailure("Post saved as ", " - manual action required");
  }

  lemma PostingFailedIsFailure(detail: string)
    ensures Outcome("Posting failed - " + detail) == Failed
  {
    var head := Lower("Posting failed - ");
    assert head[8..14] == "failed";
    LowerAppend("Posting failed - ", detail);
    var posting := head + Lower(detail);
    assert posting[8..14] == head[8..14];
    ContainsAt(posting, "failed", 8);
  }

  lemma FeedUrlIsPublished()
    ensures Outcome(FeedUrl) == Published
  {
    FeedLacksA();
    FeedLacksR();
    LowerLacks(FeedUrl, 'a', 'A');
    LowerLacks(FeedUrl, 'r', 'R');
    NotContainedWithout(Lower(FeedUrl), "failed", 'a');
    NotContainedWithout(Lower(FeedUrl), "error", 'r');
    NotContainedWithout(Lower(FeedUrl), "draft", 'a');
  }

  /** The url the browser is on after a successful post. */
  const FeedUrl: string := "https://www.linkedin.com/feed/"

  lemma FeedLacksA()
    ensures 'a' !in FeedUrl && 'A' !in FeedUrl
  {
  }

  lemma FeedLacksR()
    ensures 'r' !in FeedUrl && 'R' !in FeedUrl
  {
  }

  /** The row an instant post appends: scheduled and created at `now`, the
      reply as post url, and a publication time exactly when it counts as
      published. */
  function InstantRecord(id: nat, series: string, topic: string, content: string, image: string,
                         reply: string, now: nat): (r: PostRecord)
    ensures r.id == id && r.status == Outcome(reply) && r.postUrl == reply
    ensures r.scheduledDate == r.createdAt == StampText(now)
    ensures r.publishedAt != "" <==> r.status == Published
    ensures r.publishedAt != "" ==> ParseStamp(r.publishedAt) == At(now)
  {
    StampRoundTrip(now);
    var status := Outcome(reply);
    PostRecord(id, series, topic, content, status, StampText(now), image, reply, StampText(now),
               if status == Published then StampText(now) else "")
  }

  /** The row "Add to Queue" builds: pending, due at `scheduled`. */
  function ManualRecord(id: nat, series: string, topic: string, content: string, image: string,
                        scheduled: nat, now: nat): (r: PostRecord)
    ensures r.id == id && r.status == Pending && r.postUrl == "" && r.publishedAt == ""
    ensures ParseStamp(r.scheduledDate) == At(scheduled)
  {
    StampRoundTrip(scheduled);
    PostRecord(id, series, topic, content, Pending, StampText(scheduled), image, "", StampText(now), "")
  }

  /** What `append_to_sheet` is handed: the cells of a row, or the `.iloc`
      indexer of a one-row frame, which has no `values`. */
  datatype AppendArg = RowValues(cells: seq<string>) | RowIndexer

  function AfterAppend(lines: seq<seq<string>>, arg: AppendArg): seq<seq<string>>
  {
    match arg
    case RowValues(cells) => lines + [cells]
    case RowIndexer => lines
  }

  /** `append_to_sheet`: the failure to read `values` is caught and reported,
      and nothing is appended. */
  method AppendToSheet(sheet: Worksheet, arg: AppendArg) returns (appended: bool)
    modifies sheet
    ensures sheet.lines == AfterAppend(old(sheet.lines), arg)
    ensures appended <==> arg.RowValues?
  {
    match arg
    case RowValues(cells) =>
      sheet.AppendRow(cells);
      appended := true;
    case RowIndexer =>
      appended := false;
  }

  /** Handing over the indexer leaves the stored table as it was, while
      handing over the row's cells adds the record: the two differ for every
      record and every readable sheet. */
  lemma IndexerLosesRow(lines: seq<seq<string>>, r: PostRecord)
    requires lines != [] && ReadTable(lines).Some?
    ensures ReadTable(AfterAppend(lines, RowIndexer)) == ReadTable(lines)
    ensures ReadTable(AfterAppend(lines, RowValues(Encode(r)))) == Some(ReadTable(lines).value + [r])
    ensures AfterAppend(lines, RowIndexer) != AfterAppend(lines, RowValues(Encode(r)))
  {
    ReadAfterAppend(lines, r);
    assert |AfterAppend(lines, RowValues(Encode(r)))| == |lines| + 1;
  }

  /** "Add to Queue" as written: the indexer is passed, so the post never
      reaches the sheet. */
  method AddToQueueAsWritten(sheet: Worksheet, series: string, topic: string, content: string,
                             image: string, scheduled: nat, now: nat)
    modifies sheet
    ensures sheet.lines == old(sheet.lines)
  {
    if series != "" && topic != "" && content != "" {
      var id := NextId(RecordCount(sheet.lines));
      var post := ManualRecord(id, series, topic, content, image, scheduled, now);
      var _ := AppendToSheet(sheet, RowIndexer);
    }
  }

  /** "Add to Queue" as intended: the pending post is appended with the next
      id. */
  method AddToQueue(sheet: Worksheet, series: string, topic: string, content: string,
                    image: string, scheduled: nat, now: nat)
    modifies sheet
    ensures series != "" && topic != "" && content != "" ==>
      sheet.lines == old(sheet.lines)
        + [Encode(ManualRecord(NextId(RecordCount(old(sheet.lines))), series, topic, content, image, scheduled, now))]
    ensures series == "" || topic == "" || content == "" ==> sheet.lines == old(sheet.lines)
  {
    if series != "" && topic != "" && content != "" {
      var id := NextId(RecordCount(sheet.lines));
      var post := ManualRecord(id, series, topic, content, image, scheduled, now);
      var _ := AppendToSheet(sheet, RowValues(Encode(post)));
    }
  }

  /** "Post Instantly" as written: the post is published, classified and
      built, then lost to the indexer. */
  method InstantPostAsWritten(sheet: Worksheet, series: string, topic: string, content: string,
                              image: string, now: nat, publish: Publisher)
    modifies sheet
    ensures sheet.lines == old(sheet.lines)
  {
    if topic != "" && content != "" {
      var reply := publish(content, ImageArg(image));
      if reply.Returned? {
        var id := NextId(RecordCount(sheet.lines));
        var post := InstantRecord(id, series, topic, content, image, reply.text, now);
        var _ := AppendToSheet(sheet, RowIndexer);
      }
    }
  }

  /** "Post Instantly" as intended: unless the publisher raises, the outcome
      is appended as a new row. */
  method InstantPost(sheet: Worksheet, series: string, topic: string, content: string,
                     image: string, now: nat, publish: Publisher)
    modifies sheet
    ensures var reply := publish(content, ImageArg(image));
      if topic != "" && content != "" && reply.Returned? then
        sheet.lines == old(sheet.lines)
          + [Encode(InstantRecord(NextId(RecordCount(old(sheet.lines))), series, topic, content, image, reply.text, now))]
      else sheet.lines == old(sheet.lines)
  {
    if topic != "" && content != "" {
      var reply := publish(content, ImageArg(image));
      if reply.Returned? {
        var id := NextId(RecordCount(sheet.lines));
        var post := InstantRecord(id, series, topic, content, image, reply.text, now);
        var _ := AppendToSheet(sheet, RowValues(Encode(post)));
      }
    }
  }

  /** Appending the encoded rows of `t2` to a readable sheet reads back as
      the old table followed by `t2`. */
  lemma {:induction false} ReadAfterAppendRows(lines: seq<seq<string>>, t2: seq<PostRecord>)
    requires lines != [] && ReadTable(lines).Some?
    ensures ReadTable(lines + EncodeRows(t2)) == Some(ReadTable(lines).value + t2)
    decreases |t2|
  {
    if t2 == [] {
      assert lines + EncodeRows(t2) == lines;
      assert ReadTable(lines).value + t2 == ReadTable(lines).value;
    } else {
      var init, last := t2[..|t2| - 1], t2[|t2| - 1];
      ReadAfterAppendRows(lines, init);
      var before := lines + EncodeRows(init);
      assert t2 == init + [last];
      assert lines + EncodeRows(t2) == before + [Encode(last)] by {
        assert EncodeRows(t2) == EncodeRows(init) + [Encode(last)];
      }
      ReadAfterAppend(before, last);
      assert (ReadTable(lines).value + init) + [last] == ReadTable(lines).value + t2;
    }
  }

  /** The record for the `i`-th post of a generated series. */
  function SeriesRecord(baseId: nat, i: nat, seriesName: string, p: AiService.Post,
                        status: string, scheduled: string, created: string): PostRecord
  {
    PostRecord(baseId + i, seriesName, "Day " + IntToString(p.day) + ": " + p.title, p.content,
               status, scheduled, "", "", created, "")
  }

  /** "Schedule All": post `i` is pending, due on day `startDay + i` at
      `postTime` seconds after midnight. */
  function ScheduledRecords(baseId: nat, seriesName: string, posts: seq<AiService.Post>,
                            startDay: nat, postTime: nat, now: nat): (r: seq<PostRecord>)
    ensures |r| == |posts|
  {
    seq(|posts|, i requires 0 <= i < |posts| =>
      SeriesRecord(baseId, i, seriesName, posts[i], Pending, StampText((startDay + i) * Day + postTime), StampText(now)))
  }

  /** The scheduled rows carry consecutive ids from `baseId`, are pending with
      no url or publication time, fall one day apart, and each is due at the
      chosen time of day. */
  lemma ScheduledRecordsShape(baseId: nat, seriesName: string, posts: seq<AiService.Post>,
                              startDay: nat, postTime: nat, now: nat, i: nat)
    requires postTime < Day && i < |posts|
    ensures var r := ScheduledRecords(baseId, seriesName, posts, startDay, postTime, now);
      r[i].id == baseId + i && r[i].status == Pending && r[i].postUrl == "" && r[i].publishedAt == ""
      && r[i].content == posts[i].content
      && ParseStamp(r[i].scheduledDate).At?
      && ParseStamp(r[i].scheduledDate).seconds % Day == postTime
      && ParseStamp(r[i].scheduledDate).seconds / Day == startDay + i
  {
    var at := (startDay + i) * Day + postTime;
    var r := ScheduledRecords(baseId, seriesName, posts, startDay, postTime, now);
    assert r[i] == SeriesRecord(baseId, i, seriesName, posts[i], Pending, StampText(at), StampText(now));
    StampRoundTrip(at);
    DayParts(startDay + i, postTime);
  }

  /** "Save as Draft": drafts with no scheduled date. */
  function DraftRecords(baseId: nat, seriesName: string, posts: seq<AiService.Post>, now: nat): (r: seq<PostRecord>)
    ensures |r| == |posts|
    ensures forall i :: 0 <= i < |r| ==>
      r[i].id == baseId + i && r[i].status == Draft && ParseStamp(r[i].scheduledDate) == NaT
  {
    seq(|posts|, i requires 0 <= i < |posts| =>
      SeriesRecord(baseId, i, seriesName, posts[i], Draft, "", StampText(now)))
  }

  /** The rows among the first `n` whose append did not raise, in order. */
  function KeptRows(recs: seq<PostRecord>, fails: nat -> bool, n: nat): (r: seq<PostRecord>)
    requires n <= |recs|
    ensures |r| <= n
  {
    if n == 0 then []
    else KeptRows(recs, fails, n - 1) + (if fails(n - 1) then [] else [recs[n - 1]])
  }

  /** No success is reported exactly when every append raised. */
  lemma {:induction false} NothingKeptIffAllFailed(recs: seq<PostRecord>, fails: nat -> bool, n: nat)
    requires n <= |recs|
    ensures |KeptRows(recs, fails, n)| == 0 <==> forall i :: 0 <= i < n ==> fails(i)
  {
    if n > 0 {
      NothingKeptIffAllFailed(recs, fails, n - 1);
    }
  }

  /** Without failures every row is kept. */
  lemma {:induction false} AllKeptWithoutFailures(recs: seq<PostRecord>, fails: nat -> bool, n: nat)
    requires n <= |recs|
    requires forall i :: 0 <= i < n ==> !fails(i)
    ensures KeptRows(recs, fails, n) == recs[..n]
  {
    if n > 0 {
      AllKeptWithoutFailures(recs, fails, n - 1);
      assert recs[..n] == recs[..n - 1] + [recs[n - 1]];
    }
  }

  lemma KeptRowsStep(recs: seq<PostRecord>, fails: nat -> bool, i: nat)
    requires i < |recs|
    ensures !fails(i) ==> EncodeRows(KeptRows(recs, fails, i + 1)) == EncodeRows(KeptRows(recs, fails, i)) + [Encode(recs[i])]
    ensures !fails(i) ==> |KeptRows(recs, fails, i + 1)| == |KeptRows(recs, fails, i)| + 1
    ensures fails(i) ==> KeptRows(recs, fails, i + 1) == KeptRows(recs, fails, i)
  {
    var a := KeptRows(recs, fails, i);
    if !fails(i) {
      assert EncodeRows(a + [recs[i]]) == EncodeRows(a) + [Encode(recs[i])];
    }
  }

  lemma AppendOneMore<T>(start: seq<T>, done: seq<T>, x: T, next: seq<T>)
    requires next == done + [x]
    ensures start + next == (start + done) + [x]
  {
  }

  /** The append loop shared by "Schedule All" and "Save as Draft": every row
      is tried, a row whose append raises is skipped, and the count is the
      number of rows appended. */
  method AppendAll(sheet: Worksheet, recs: seq<PostRecord>, fails: nat -> bool) returns (count: nat)
    modifies sheet
    ensures sheet.lines == old(sheet.lines) + EncodeRows(KeptRows(recs, fails, |recs|))
    ensures count == |KeptRows(recs, fails, |recs|)|
  {
    count := 0;
    var i := 0;
    while i < |recs|
      invariant 0 <= i <= |recs|
      invariant sheet.lines == old(sheet.lines) + EncodeRows(KeptRows(recs, fails, i))
      invariant count == |KeptRows(recs, fails, i)|
    {
      KeptRowsStep(recs, fails, i);
      if !fails(i) {
        AppendOneMore(old(sheet.lines), EncodeRows(KeptRows(recs, fails, i)), Encode(recs[i]),
                      EncodeRows(KeptRows(recs, fails, i + 1)));
        sheet.AppendRow(Encode(recs[i]));
        count := count + 1;
      }
      i := i + 1;
    }
  }

  /** "Schedule All Posts to Queue". Success is reported when at least one
      row was appended. */
  method ScheduleAll(sheet: Worksheet, seriesName: string, posts: seq<AiService.Post>,
                     startDay: nat, postTime: nat, now: nat, fails: nat -> bool)
    returns (count: nat, reported: bool)
    modifies sheet
    ensures var recs := ScheduledRecords(NextId(RecordCount(old(sheet.lines))), seriesName, posts, startDay, postTime, now);
      sheet.lines == old(sheet.lines) + EncodeRows(KeptRows(recs, fails, |recs|))
      && count == |KeptRows(recs, fails, |recs|)|
    ensures reported <==> count > 0
  {
    var baseId := NextId(RecordCount(sheet.lines));
    var recs := ScheduledRecords(baseId, seriesName, posts, startDay, postTime, now);
    count := AppendAll(sheet, recs, fails);
    reported := count > 0;
  }

  /** "Save as Draft". */
  method SaveDrafts(sheet: Worksheet, seriesName: string, posts: seq<AiService.Post>, now: nat, fails: nat -> bool)
    returns (count: nat, reported: bool)
    modifies sheet
    ensures var recs := DraftRecords(NextId(RecordCount(old(sheet.lines))), seriesName, posts, now);
      sheet.lines == old(sheet.lines) + EncodeRows(KeptRows(recs, fails, |recs|))
      && count == |KeptRows(recs, fails, |recs|)|
    ensures reported <==> count > 0
  {
    var baseId := NextId(RecordCount(sheet.lines));
    var recs := DraftRecords(baseId, seriesName, posts, now);
    count := AppendAll(sheet, recs, fails);
    reported := count > 0;
  }

  /** When no append fails, the sheet reads back as the old queue followed by
      the whole series, numbered on from the old record count. */
  lemma ScheduledSeriesReadsBack(lines: seq<seq<string>>, seriesName: string, posts: seq<AiService.Post>,
                                 startDay: nat, postTime: nat, now: nat, fails: nat -> bool)
    requires lines != [] && ReadTable(lines).Some?
    requires forall i :: 0 <= i < |posts| ==> !fails(i)
    ensures var recs := ScheduledRecords(NextId(RecordCount(lines)), seriesName, posts, startDay, postTime, now);
      ReadTable(lines + EncodeRows(KeptRows(recs, fails, |recs|))) == Some(ReadTable(lines).value + recs)
      && (forall i :: 0 <= i < |recs| ==> recs[i].id == |ReadTable(lines).value| + 1 + i)
  {
    var recs := ScheduledRecords(NextId(RecordCount(lines)), seriesName, posts, startDay, postTime, now);
    AllKeptWithoutFailures(recs, fails, |recs|);
    assert recs[..|recs|] == recs;
    ReadAfterAppendRows(lines, recs);
    RecordCountIsTableLength(lines);
  }

  /** The queue tab converts `scheduled_date` with `errors='coerce'` on the
      frame it lists. Under the "All" filter that frame is the dashboard's
      own `posts_df`, so the converted dates are what "Post Now" and "Delete"
      write back; under any other filter it is a copy and `posts_df` keeps
      the cells as read. */
  function Shown(t: seq<PostRecord>, filterAll: bool): (r: seq<PostRecord>)
    ensures |r| == |t|
  {
    if filterAll then seq(|t|, i requires 0 <= i < |t| => t[i].(scheduledDate := CoerceStamp(t[i].scheduledDate)))
    else t
  }

  /** The listed frame differs from the table only in its dates: a point in
      time stays that point, and under "All" every other date becomes a
      missing one, so no pending row is left whose date fails to parse. */
  lemma ShownKeepsTimes(t: seq<PostRecord>, filterAll: bool)
    ensures forall i :: 0 <= i < |t| ==>
      Shown(t, filterAll)[i] == t[i].(scheduledDate := Shown(t, filterAll)[i].scheduledDate)
    ensures forall i :: 0 <= i < |t| ==>
      ParseStamp(Shown(t, filterAll)[i].scheduledDate)
        == (if filterAll && !ParseStamp(t[i].scheduledDate).At? then NaT else ParseStamp(t[i].scheduledDate))
    ensures filterAll ==> !AnyUnparsable(Shown(t, filterAll))
  {
    forall i | 0 <= i < |t|
      ensures ParseStamp(Shown(t, filterAll)[i].scheduledDate)
        == (if filterAll && !ParseStamp(t[i].scheduledDate).At? then NaT else ParseStamp(t[i].scheduledDate))
    {
      CoerceStampKeepsTime(t[i].scheduledDate);
    }
  }

  /** What "Post Now" does to the table: only a pending or draft row offers
      the button; a raising publisher leaves the sheet alone; otherwise every
      row with that id of the listed frame is marked published with the
      reply, whatever it says. */
  function PostNowPlan(t: seq<PostRecord>, k: nat, now: nat, publish: Publisher, filterAll: bool): TickPlan
    requires k < |t|
  {
    if t[k].status != Pending && t[k].status != Draft then Idle
    else match publish(t[k].content, ImageArg(t[k].imageUrl))
      case Raised => Idle
      case Returned(url) => Rewrite(MarkPublished(Shown(t, filterAll), t[k].id, url, StampText(now)))
  }

  /** Unlike the tick, "Post Now" ignores the scheduled date and also
      publishes drafts; a published or failed row is never published again.
      The written table is the listed frame with that id marked published. */
  lemma PostNowIgnoresSchedule(t: seq<PostRecord>, k: nat, now: nat, publish: Publisher, filterAll: bool)
    requires k < |t|
    ensures PostNowPlan(t, k, now, publish, filterAll).Rewrite? <==>
      (t[k].status == Pending || t[k].status == Draft) && publish(t[k].content, ImageArg(t[k].imageUrl)).Returned?
    ensures PostNowPlan(t, k, now, publish, filterAll).Rewrite? ==>
      var r := PostNowPlan(t, k, now, publish, filterAll).table;
      ReadTable(TableLines(r)) == Some(r) && |r| == |t|
      && (forall i :: 0 <= i < |t| && t[i].id != t[k].id ==> r[i] == Shown(t, filterAll)[i])
      && r[k].status == Published
      && (!filterAll ==> forall i :: 0 <= i < |t| && t[i].id != t[k].id ==> r[i] == t[i])
  {
    if PostNowPlan(t, k, now, publish, filterAll).Rewrite? {
      ReadAfterRewrite(PostNowPlan(t, k, now, publish, filterAll).table);
    }
  }

  /** "Post Now" under the "All" filter also rewrites every other row's date:
      a time is kept and a date that failed to parse is lost, so afterwards
      no pending row blocks the scheduler's tick. */
  lemma PostNowUnderAllCoerces(t: seq<PostRecord>, k: nat, now: nat, publish: Publisher)
    requires k < |t|
    requires PostNowPlan(t, k, now, publish, true).Rewrite?
    ensures var r := PostNowPlan(t, k, now, publish, true).table;
      !AnyUnparsable(r)
      && forall i :: 0 <= i < |t| ==>
        ParseStamp(r[i].scheduledDate) == (if ParseStamp(t[i].scheduledDate).At? then ParseStamp(t[i].scheduledDate) else NaT)
  {
    ShownKeepsTimes(t, true);
    var r := PostNowPlan(t, k, now, publish, true).table;
    forall i | 0 <= i < |r| && IsPending(r[i])
      ensures ParseStamp(r[i].scheduledDate) != Unparsable
    {
      assert !IsPending(Shown(t, true)[i]) || ParseStamp(Shown(t, true)[i].scheduledDate) != Unparsable;
    }
  }

  /** "Post Now" on row `k` of the table read from the sheet, listed under
      the "All" filter exactly when `filterAll`. */
  method PostNow(sheet: Worksheet, k: nat, now: nat, publish: Publisher, filterAll: bool)
    requires ReadTable(sheet.lines).Some? && k < |ReadTable(sheet.lines).value|
    modifies sheet
    ensures sheet.lines == SheetAfter(PostNowPlan(ReadTable(old(sheet.lines)).value, k, now, publish, filterAll), old(sheet.lines))
  {
    var t := ReadTable(sheet.lines).value;
    var postsDf := Shown(t, filterAll);
    var post := t[k];
    if post.status == Pending || post.status == Draft {
      var reply := publish(post.content, ImageArg(post.imageUrl));
      if reply.Returned? {
        var updated := SetPublished(postsDf, post.id, reply.text, StampText(now));
        UpdateSheet(sheet, updated);
      }
    }
  }

  /** "Delete": the listed frame without the rows carrying `id`, written back
      in full. */
  method DeletePost(sheet: Worksheet, id: nat, filterAll: bool)
    requires ReadTable(sheet.lines).Some?
    modifies sheet
    ensures sheet.lines == TableLines(RemoveId(Shown(ReadTable(old(sheet.lines)).value, filterAll), id))
  {
    var t := ReadTable(sheet.lines).value;
    UpdateSheet(sheet, RemoveId(Shown(t, filterAll), id));
  }

  /** After a delete the sheet reads back as exactly the surviving rows of
      the listed frame, and no row with the deleted id is left; under any
      filter but "All" the survivors are the rows as read. */
  lemma DeleteReadsBack(t: seq<PostRecord>, id: nat, filterAll: bool)
    ensures var r := RemoveId(Shown(t, filterAll), id);
      ReadTable(TableLines(r)) == Some(r)
      && (forall x :: x in r <==> x in Shown(t, filterAll) && x.id != id)
      && (!filterAll ==> forall x :: x in r <==> x in t && x.id != id)
  {
    ReadAfterRewrite(RemoveId(Shown(t, filterAll), id));
    RemoveIdKeeps(Shown(t, filterAll), id);
  }
}
