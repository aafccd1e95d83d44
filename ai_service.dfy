/** The list and text handling around the language model: cleaning a reply,
    reading the post versions out of it, and assembling a post series from
    batches of at most five posts. */
module AiService {
  import opened Wrappers
  import opened Text
  import StableSort

  /** One generated post of a series. */
  datatype Post = Post(day: int, title: string, content: string)

  /** What the model call gives back: a text, or an exception. */
  datatype LlmReply = Reply(text: string) | Unavailable

  /** One element of a decoded JSON array: an object (with the keys the
      services read, each present or absent) or a value that is not a
      container, on which `key in element` and `element[key]` raise. */
  datatype Element = Object(day: Option<int>, title: Option<string>, content: Option<string>) | Scalar

  /** What `json.loads` makes of a text: it raises, or gives an array, or
      gives an empty object or string (which iterate to nothing), or gives
      some other value (iterating it, or indexing what it yields, raises). */
  datatype Document = Malformed | Array(elements: seq<Element>) | EmptyValue | NotArray

  type JsonParser = string -> Document

  /** Markdown fences: a text that starts with three backticks loses its
      first and last lines; if what remains starts with `json`, those four
      characters are dropped and the rest is stripped. */
  function StripFences(text: string): string
  {
    if !IsPrefix("```", text) then text
    else
      var lines := SplitLines(text);
      var inner := JoinLines(if |lines| <= 2 then [] else lines[1..|lines| - 1]);
      if IsPrefix("json", inner) then Strip(inner[4..]) else inner
  }

  /** A fenced reply gives back exactly the text between its first and its
      last line. */
  lemma FencedReplyBody(opening: string, body: string, closing: string)
    requires '\n' !in opening && '\n' !in closing
    requires !IsPrefix("json", body)
    ensures StripFences("```" + opening + "\n" + body + "\n" + closing) == body
  {
    var first := "```" + opening;
    var text := first + "\n" + body + "\n" + closing;
    assert text == first + "\n" + (body + "\n" + closing);
    assert text[..3] == "```";
    assert '\n' !in first by {
      forall k | 0 <= k < |first|
        ensures first[k] != '\n'
      {
        if k >= 3 {
          assert first[k] == opening[k - 3];
        }
      }
    }
    SplitAtNewline(first, body + "\n" + closing);
    SplitAtNewline(body, closing);
    SplitSingleLine(first);
    SplitSingleLine(closing);
    var lines := SplitLines(text);
    assert lines == [first] + SplitLines(body) + [closing];
    assert lines[1..|lines| - 1] == SplitLines(body);
    JoinSplit(body);
  }

  /** `text.replace(',]', ']').replace(',}', '}')`. */
  function CleanCommas(text: string): string
  {
    ReplaceAll(ReplaceAll(text, ",]", "]"), ",}", "}")
  }

  /** The cleanup drops exactly the commas that stand before a closing
      bracket (after the first pass) or brace. */
  lemma CleanCommasDropsTrailing(text: string)
    ensures CleanCommas(text) == DropCommaBefore(DropCommaBefore(text, ']'), '}')
  {
    assert ",]" == [',', ']'] && ",}" == [',', '}'];
    ReplaceCommaBefore(text, ']');
    ReplaceCommaBefore(DropCommaBefore(text, ']'), '}');
  }

  /** The text a series batch hands to the JSON decoder. */
  function CleanReply(text: string): string
  {
    CleanCommas(StripFences(Strip(text)))
  }

  /** `version['content']`: None where the lookup raises. */
  function ContentOf(e: Element): Option<string>
  {
    if e.Object? then e.content else None
  }

  /** `enhance_content` after the model call. The reply is stripped and
      unfenced and then decoded: a text that does not decode is the single
      version, as the model sent it; an array gives the `content` of every
      element, in order, or raises (None) when one has none; an empty object
      or string gives no versions; any other value, or an unavailable model,
      raises. */
  function EnhanceContent(reply: LlmReply, parse: JsonParser): (r: Option<seq<string>>)
    ensures reply.Unavailable? ==> r.None?
    ensures reply.Reply? ==>
      var doc := parse(StripFences(Strip(reply.text)));
      (doc.Malformed? ==> r == Some([reply.text]))
      && (doc.EmptyValue? ==> r == Some([]))
      && (doc.NotArray? ==> r.None?)
      && (doc.Array? ==>
            (r.Some? <==> forall i :: 0 <= i < |doc.elements| ==> ContentOf(doc.elements[i]).Some?)
            && (r.Some? ==>
                  |r.value| == |doc.elements|
                  && forall i :: 0 <= i < |doc.elements| ==> Some(r.value[i]) == ContentOf(doc.elements[i])))
  {
    match reply
    case Unavailable => None
    case Reply(text) => EnhanceDecoded(text, parse(StripFences(Strip(text))))
  }

  /** The versions `enhance_content` returns for the decoded reply `doc`: the
      `content` of every version in order; the raw reply as the single version
      when the text does not decode; None where the service raises (the value
      is not an array, or an element has no `content`). */
  function EnhanceDecoded(text: string, doc: Document): (r: Option<seq<string>>)
    ensures doc.Malformed? ==> r == Some([text])
    ensures doc.EmptyValue? ==> r == Some([])
    ensures doc.NotArray? ==> r.None?
    ensures doc.Array? ==>
      (r.Some? <==> forall i :: 0 <= i < |doc.elements| ==> ContentOf(doc.elements[i]).Some?)
      && (r.Some? ==>
            |r.value| == |doc.elements|
            && forall i :: 0 <= i < |doc.elements| ==> Some(r.value[i]) == ContentOf(doc.elements[i]))
  {
    match doc
    case Malformed => Some([text])
    case EmptyValue => Some([])
    case NotArray => None
    case Array(es) =>
      if forall i :: 0 <= i < |es| ==> ContentOf(es[i]).Some? then
        Some(seq(|es|, i requires 0 <= i < |es| && ContentOf(es[i]).Some? => ContentOf(es[i]).value))
      else None
  }

  /** A fenced reply: the versions are read from the text between the fence
      lines, and a body that does not decode leaves the whole reply, fences
      and all, as the one version. */
  lemma EnhanceFencedReply(opening: string, body: string, closing: string, parse: JsonParser)
    requires '\n' !in opening && '\n' !in closing && !IsPrefix("json", body)
    requires closing != [] && !IsSpace(closing[|closing| - 1])
    ensures var text := "```" + opening + "\n" + body + "\n" + closing;
      var r := EnhanceContent(Reply(text), parse);
      var doc := parse(body);
      (doc.Malformed? ==> r == Some([text]))
      && (doc.Array? && (forall i :: 0 <= i < |doc.elements| ==> ContentOf(doc.elements[i]).Some?) ==>
            r.Some? && |r.value| == |doc.elements|
            && forall i :: 0 <= i < |r.value| ==> Some(r.value[i]) == ContentOf(doc.elements[i]))
  {
    var text := "```" + opening + "\n" + body + "\n" + closing;
    assert !IsSpace(text[0]) && !IsSpace(text[|text| - 1]);
    assert StripLeft(text) == text;
    assert Strip(text) == text;
    FencedReplyBody(opening, body, closing);
  }

  /** A series element is kept only with all of `day`, `title` and `content`. */
  predicate Complete(e: Element)
  {
    e.Object? && e.day.Some? && e.title.Some? && e.content.Some?
  }

  function ToPost(e: Element): Post
    requires Complete(e)
  {
    Post(e.day.value, e.title.value, e.content.value)
  }

  /** The posts the validation loop appends before it reaches an element it
      cannot test: complete objects, in order, up to the first scalar. */
  function KeptBefore(es: seq<Element>): (r: seq<Post>)
    ensures |r| <= |es|
  {
    if es == [] || es[0].Scalar? then []
    else (if Complete(es[0]) then [ToPost(es[0])] else []) + KeptBefore(es[1..])
  }

  /** Every kept post is a complete element of the reply. */
  lemma {:induction false} KeptAreComplete(es: seq<Element>)
    ensures forall p :: p in KeptBefore(es) ==>
      exists k :: 0 <= k < |es| && Complete(es[k]) && ToPost(es[k]) == p
  {
    if es != [] && !es[0].Scalar? {
      KeptAreComplete(es[1..]);
      forall p | p in KeptBefore(es)
        ensures exists k :: 0 <= k < |es| && Complete(es[k]) && ToPost(es[k]) == p
      {
        if Complete(es[0]) && p == ToPost(es[0]) {
          assert Complete(es[0]) && ToPost(es[0]) == p;
        } else {
          assert p in KeptBefore(es[1..]);
          var k :| 0 <= k < |es[1..]| && Complete(es[1..][k]) && ToPost(es[1..][k]) == p;
          assert es[k + 1] == es[1..][k];
        }
      }
    }
  }

  /** Every complete element of a reply without scalars is kept. */
  lemma {:induction false} CompleteAreKept(es: seq<Element>, k: nat)
    requires k < |es| && Complete(es[k])
    requires forall j :: 0 <= j < |es| ==> !es[j].Scalar?
    ensures ToPost(es[k]) in KeptBefore(es)
    decreases k
  {
    if k > 0 {
      assert es[1..][k - 1] == es[k];
      CompleteAreKept(es[1..], k - 1);
    }
  }

  predicate HasScalar(es: seq<Element>)
  {
    exists k :: 0 <= k < |es| && es[k].Scalar?
  }

  /** The placeholder written for a day of a failed batch. */
  function Placeholder(topic: string, day: int): Post
  {
    Post(day, "Python Concept " + IntToString(day),
      "[Placeholder] Post content for day " + IntToString(day) + " about " + topic + ". Please regenerate this post.")
  }

  /** Placeholders for `count` consecutive days from `startDay`. */
  function Placeholders(topic: string, startDay: int, count: nat): (r: seq<Post>)
    ensures |r| == count
    ensures forall i :: 0 <= i < count ==> r[i] == Placeholder(topic, startDay + i)
  {
    seq(count, i requires 0 <= i < count => Placeholder(topic, startDay + i))
  }

  lemma PlaceholdersSplit(topic: string, startDay: int, k1: nat, k2: nat)
    ensures Placeholders(topic, startDay, k1) + Placeholders(topic, startDay + k1, k2)
         == Placeholders(topic, startDay, k1 + k2)
  {
    var a := Placeholders(topic, startDay, k1) + Placeholders(topic, startDay + k1, k2);
    var b := Placeholders(topic, startDay, k1 + k2);
    forall i | 0 <= i < k1 + k2
      ensures a[i] == b[i]
    {
      if i >= k1 {
        assert a[i] == Placeholders(topic, startDay + k1, k2)[i - k1];
      }
    }
  }

  const BatchSize: nat := 5

  /** The posts a batch asks for: `start` is the loop index `batch_num`, the
      batch covers days `start + 1 .. start + size`. */
  datatype Batch = Batch(start: nat, size: nat)

  function BatchAt(b: nat, n: int): Batch
    requires b < n
  {
    Batch(b, if n - b < BatchSize then n - b else BatchSize)
  }

  /** `range(b, n, 5)`, each step with `min(5, n - step)` posts. */
  function BatchesFrom(b: nat, n: int): seq<Batch>
    decreases n - b
  {
    if b >= n then [] else [BatchAt(b, n)] + BatchesFrom(b + BatchSize, n)
  }

  function Batches(n: int): seq<Batch>
  {
    BatchesFrom(0, n)
  }

  function TotalSize(bs: seq<Batch>): nat
  {
    if bs == [] then 0 else bs[0].size + TotalSize(bs[1..])
  }

  lemma {:induction false} BatchesFromShape(b: nat, n: int)
    requires b % BatchSize == 0
    ensures var bs := BatchesFrom(b, n);
      (forall k :: 0 <= k < |bs| ==> bs[k].start == b + BatchSize * k && 1 <= bs[k].size <= BatchSize)
      && TotalSize(bs) == (if n > b then n - b else 0)
    decreases n - b
  {
    if b < n {
      BatchesFromShape(b + BatchSize, n);
      var bs := BatchesFrom(b, n);
      assert bs[1..] == BatchesFrom(b + BatchSize, n);
      forall k | 0 < k < |bs|
        ensures bs[k].start == b + BatchSize * k
      {
        assert bs[k] == bs[1..][k - 1];
      }
    }
  }

  /** The batches start at 0, 5, 10, ..., each holds one to five posts, and
      together they ask for exactly `n` posts (none when `n` is not positive). */
  lemma BatchesPartition(n: int)
    ensures var bs := Batches(n);
      (forall k :: 0 <= k < |bs| ==> bs[k].start == BatchSize * k && 1 <= bs[k].size <= BatchSize)
      && TotalSize(bs) == (if n > 0 then n else 0)
  {
    BatchesFromShape(0, n);
  }

  /** What one batch contributes to the series. A raise anywhere in the
      batch (the call, the decoding, a scalar element) adds `size`
      placeholders after whatever was appended before the raise; a decoded
      value that is not an array adds nothing. */
  function BatchResult(topic: string, batch: Batch, reply: LlmReply, parse: JsonParser): seq<Post>
  {
    match reply
    case Unavailable => Placeholders(topic, batch.start + 1, batch.size)
    case Reply(text) => DecodedResult(topic, batch, parse(CleanReply(text)))
  }

  /** What a batch contributes once its reply was cleaned and decoded. */
  function DecodedResult(topic: string, batch: Batch, doc: Document): seq<Post>
  {
    var fill := Placeholders(topic, batch.start + 1, batch.size);
    match doc
    case Malformed => fill
    case EmptyValue => []
    case NotArray => []
    case Array(es) => KeptBefore(es) + (if HasScalar(es) then fill else [])
  }

  function Collect(topic: string, bs: seq<Batch>, llm: Batch -> LlmReply, parse: JsonParser): seq<Post>
  {
    if bs == [] then [] else BatchResult(topic, bs[0], llm(bs[0]), parse) + Collect(topic, bs[1..], llm, parse)
  }

  lemma CollectStep(topic: string, b: nat, n: int, llm: Batch -> LlmReply, parse: JsonParser)
    requires b < n
    ensures Collect(topic, BatchesFrom(b, n), llm, parse)
         == BatchResult(topic, BatchAt(b, n), llm(BatchAt(b, n)), parse)
            + Collect(topic, BatchesFrom(b + BatchSize, n), llm, parse)
  {
    var rest := BatchesFrom(b + BatchSize, n);
    assert BatchesFrom(b, n) == [BatchAt(b, n)] + rest;
    assert ([BatchAt(b, n)] + rest)[1..] == rest;
  }

  function DayOf(p: Post): int
  {
    p.day
  }

  /** `generate_post_series` after the model calls: the batches' posts, stably
      sorted by day, cut to `n`. */
  function Series(topic: string, n: int, llm: Batch -> LlmReply, parse: JsonParser): seq<Post>
  {
    Take(StableSort.Sort(Collect(topic, Batches(n), llm, parse), DayOf), if n < 0 then 0 else n)
  }

  /** The validation loop over a decoded array: complete objects are
      appended until an element raises. */
  method ValidateElements(es: seq<Element>) returns (kept: seq<Post>, raised: bool)
    ensures kept == KeptBefore(es) && raised == HasScalar(es)
  {
    kept := [];
    raised := false;
    var i := 0;
    while i < |es| && !raised
      invariant 0 <= i <= |es|
      invariant !raised ==> kept + KeptBefore(es[i..]) == KeptBefore(es)
      invariant !raised ==> forall j :: 0 <= j < i ==> !es[j].Scalar?
      invariant raised ==> kept == KeptBefore(es) && HasScalar(es)
      decreases |es| - i, !raised
    {
      if es[i].Scalar? {
        assert KeptBefore(es[i..]) == [];
        raised := true;
      } else {
        var x := if Complete(es[i]) then [ToPost(es[i])] else [];
        KeptStep(es, i);
        Regroup(kept, x, KeptBefore(es[i + 1..]), KeptBefore(es[i..]), KeptBefore(es));
        kept := kept + x;
        i := i + 1;
      }
    }
  }

  /** Validation of an object element: it is kept when complete, and
      validation goes on with the next element. */
  lemma KeptStep(es: seq<Element>, i: nat)
    requires i < |es| && !es[i].Scalar?
    ensures KeptBefore(es[i..]) == (if Complete(es[i]) then [ToPost(es[i])] else []) + KeptBefore(es[i + 1..])
  {
    assert es[i..][1..] == es[i + 1..];
  }

  /** The placeholder loop of a failed batch. */
  method AppendPlaceholders(posts: seq<Post>, topic: string, startDay: int, count: nat) returns (r: seq<Post>)
    ensures r == posts + Placeholders(topic, startDay, count)
  {
    r := posts;
    var k := 0;
    while k < count
      invariant 0 <= k <= count
      invariant r == posts + Placeholders(topic, startDay, k)
    {
      r := r + [Placeholder(topic, startDay + k)];
      k := k + 1;
    }
  }

  /** One batch: decode the cleaned reply, keep the valid posts, and fill
      with placeholders when something raised. */
  method RunBatch(topic: string, batch: Batch, reply: LlmReply, parse: JsonParser) returns (got: seq<Post>)
    ensures got == BatchResult(topic, batch, reply, parse)
  {
    match reply
    case Unavailable =>
      got := AppendPlaceholders([], topic, batch.start + 1, batch.size);
      assert got == Placeholders(topic, batch.start + 1, batch.size);
    case Reply(text) =>
      got := RunDecoded(topic, batch, parse(CleanReply(text)));
  }

  /** The part of a batch after decoding. */
  method RunDecoded(topic: string, batch: Batch, doc: Document) returns (got: seq<Post>)
    ensures got == DecodedResult(topic, batch, doc)
  {
    match doc
    case Malformed =>
      got := AppendPlaceholders([], topic, batch.start + 1, batch.size);
      assert got == Placeholders(topic, batch.start + 1, batch.size);
    case EmptyValue =>
      got := [];
    case NotArray =>
      got := [];
    case Array(es) =>
      var kept, raised := ValidateElements(es);
      if raised {
        got := AppendPlaceholders(kept, topic, batch.start + 1, batch.size);
      } else {
        got := kept + [];
      }
  }

  /** The batch loop of `generate_post_series`: one model call per batch,
      the batches' posts appended in order. */
  method CollectBatches(topic: string, n: int, llm: Batch -> LlmReply, parse: JsonParser) returns (all: seq<Post>)
    ensures all == Collect(topic, Batches(n), llm, parse)
  {
    all := [];
    var b: nat := 0;
    while b < n
      invariant all + Collect(topic, BatchesFrom(b, n), llm, parse) == Collect(topic, Batches(n), llm, parse)
      decreases n - b
    {
      var batch := BatchAt(b, n);
      var got := RunBatch(topic, batch, llm(batch), parse);
      CollectLoopStep(topic, b, n, llm, parse, all, got);
      all := all + got;
      b := b + BatchSize;
    }
    assert BatchesFrom(b, n) == [];
  }

  lemma CollectLoopStep(topic: string, b: nat, n: int, llm: Batch -> LlmReply, parse: JsonParser,
                        all: seq<Post>, got: seq<Post>)
    requires b < n
    requires got == BatchResult(topic, BatchAt(b, n), llm(BatchAt(b, n)), parse)
    requires all + Collect(topic, BatchesFrom(b, n), llm, parse) == Collect(topic, Batches(n), llm, parse)
    ensures (all + got) + Collect(topic, BatchesFrom(b + BatchSize, n), llm, parse) == Collect(topic, Batches(n), llm, parse)
  {
    CollectStep(topic, b, n, llm, parse);
    Regroup(all, got, Collect(topic, BatchesFrom(b + BatchSize, n), llm, parse),
            Collect(topic, BatchesFrom(b, n), llm, parse), Collect(topic, Batches(n), llm, parse));
  }

  lemma Regroup<T>(a: seq<T>, g: seq<T>, r: seq<T>, x: seq<T>, total: seq<T>)
    requires x == g + r && a + x == total
    ensures (a + g) + r == total
  {
    assert a + (g + r) == (a + g) + r;
  }

  /** `generate_post_series`: the collected posts, sorted in place by day
      (stably), cut to `n`. */
  method GeneratePostSeries(topic: string, n: int, llm: Batch -> LlmReply, parse: JsonParser) returns (posts: seq<Post>)
    ensures posts == Series(topic, n, llm, parse)
  {
    var all := CollectBatches(topic, n, llm, parse);
    all := StableSort.Sort(all, DayOf);
    posts := Take(all, if n < 0 then 0 else n);
  }

  /** The series is ordered by day, holds at most `n` posts, and every post
      in it comes from some batch; posts of equal day keep their batch order. */
  lemma SeriesOrderedAndBounded(topic: string, n: int, llm: Batch -> LlmReply, parse: JsonParser)
    ensures var r := Series(topic, n, llm, parse);
      var all := Collect(topic, Batches(n), llm, parse);
      StableSort.SortedBy(r, DayOf)
      && |r| <= (if n < 0 then 0 else n)
      && multiset(r) <= multiset(all)
      && (|all| <= n ==> multiset(r) == multiset(all))
  {
    var all := Collect(topic, Batches(n), llm, parse);
    var sorted := StableSort.Sort(all, DayOf);
    StableSort.SortSorted(all, DayOf);
    var bound := if n < 0 then 0 else n;
    assert Series(topic, n, llm, parse) == Take(sorted, bound);
    TakeOfSorted(sorted, all, bound);
  }

  /** Cutting a sorted permutation of `all` keeps it sorted and keeps only
      elements of `all`; it keeps all of them when they fit. */
  lemma TakeOfSorted(sorted: seq<Post>, all: seq<Post>, bound: nat)
    requires StableSort.SortedBy(sorted, DayOf) && multiset(sorted) == multiset(all)
    ensures StableSort.SortedBy(Take(sorted, bound), DayOf)
    ensures |Take(sorted, bound)| <= bound
    ensures multiset(Take(sorted, bound)) <= multiset(all)
    ensures |all| <= bound ==> multiset(Take(sorted, bound)) == multiset(all)
  {
    var r := Take(sorted, bound);
    assert sorted == r + sorted[|r|..];
    assert multiset(sorted) == multiset(r) + multiset(sorted[|r|..]);
    assert |sorted| == |all| by {
      assert |multiset(sorted)| == |multiset(all)|;
    }
  }

  lemma {:induction false} CollectFailed(topic: string, b: nat, n: int, llm: Batch -> LlmReply, parse: JsonParser)
    requires forall x :: llm(x) == Unavailable
    ensures Collect(topic, BatchesFrom(b, n), llm, parse) == Placeholders(topic, b + 1, if n > b then n - b else 0)
    decreases n - b
  {
    if b < n {
      CollectFailed(topic, b + BatchSize, n, llm, parse);
      CollectStep(topic, b, n, llm, parse);
      var batch := BatchAt(b, n);
      var later := if n > b + BatchSize then n - b - BatchSize else 0;
      assert BatchResult(topic, batch, llm(batch), parse) == Placeholders(topic, b + 1, batch.size);
      assert batch.size + later == n - b;
      PlaceholdersSplit(topic, b + 1, batch.size, later);
    }
  }

  /** When every model call fails, the series is exactly `n` placeholders for
      days 1 to `n`. */
  lemma AllBatchesFailed(topic: string, n: nat, llm: Batch -> LlmReply, parse: JsonParser)
    requires forall x :: llm(x) == Unavailable
    ensures Series(topic, n, llm, parse) == Placeholders(topic, 1, n)
  {
    CollectFailed(topic, 0, n, llm, parse);
    var all := Placeholders(topic, 1, n);
    PlaceholdersByDay(topic, 1, n);
    StableSort.SortOfSorted(all, DayOf);
    assert Take(all, n) == all;
  }

  lemma PlaceholdersByDay(topic: string, startDay: int, count: nat)
    ensures StableSort.SortedBy(Placeholders(topic, startDay, count), DayOf)
  {
    var all := Placeholders(topic, startDay, count);
    forall i, j | 0 <= i < j < |all|
      ensures DayOf(all[i]) <= DayOf(all[j])
    {
      assert all[i].day == startDay + i && all[j].day == startDay + j;
    }
  }
}
