/** Resource curation: the curated source table, the per-topic gathering of
    search results, scoring and ranking, the top-ten download pass, simple
    drafts, file and title cleanup, and saving to the resources worksheet. */
module CurationService {
  import opened Wrappers
  import opened Text
  import StableSort
  import PostQueue

  /** A PDF found by a search method. */
  datatype Found = Found(title: string, url: string, resourceType: string, source: string,
                         searchQuery: string, summary: string)

  /** A found PDF with its relevance score (an ordered key standing for the
      model's 0-10 score). */
  datatype Scored = Scored(pdf: Found, relevance: int)

  /** A resource after the download pass and the draft pass. */
  datatype Curated = Curated(pdf: Found, relevance: int, localPath: string, status: string, draft: string)

  datatype Entry = Entry(title: string, url: string, summary: string)
  datatype CuratedTopic = CuratedTopic(keyword: string, entries: seq<Entry>)

  const CuratedSource: string := "Curated Educational Resources"

  /** The curated sources of `get_curated_pdfs`, in the dictionary's order. */
  const CuratedTable: seq<CuratedTopic> := [
    CuratedTopic("python", [
      Entry("Python Tutorial - Tutorialspoint", "https://www.tutorialspoint.com/python/python_tutorial.pdf",
            "Complete Python programming tutorial"),
      Entry("Python for Everybody", "https://www.py4e.com/lectures3/Pythonlearn-01-Intro.pdf",
            "Python basics for beginners"),
      Entry("Automate the Boring Stuff with Python",
            "https://automatetheboringstuff.com/2e/chapter0/automate_the_boring_stuff_with_python.pdf",
            "Practical Python automation")]),
    CuratedTopic("java", [
      Entry("Java Programming Tutorial", "https://www.tutorialspoint.com/java/java_tutorial.pdf",
            "Complete Java programming guide")]),
    CuratedTopic("data structures", [
      Entry("Data Structures and Algorithms",
            "https://www.tutorialspoint.com/data_structures_algorithms/data_structures_algorithms_tutorial.pdf",
            "DSA fundamentals")]),
    CuratedTopic("machine learning", [
      Entry("Introduction to Machine Learning",
            "https://www.tutorialspoint.com/machine_learning/machine_learning_tutorial.pdf",
            "ML basics and algorithms")]),
    CuratedTopic("web development", [
      Entry("HTML Tutorial", "https://www.tutorialspoint.com/html/html_tutorial.pdf", "HTML web development guide"),
      Entry("JavaScript Tutorial", "https://www.tutorialspoint.com/javascript/javascript_tutorial.pdf",
            "JavaScript programming guide")]),
    CuratedTopic("react", [
      Entry("React Tutorial", "https://www.tutorialspoint.com/reactjs/reactjs_tutorial.pdf", "React JS framework guide")])
  ]

  function Tag(e: Entry, query: string): Found
  {
    Found(e.title, e.url, "PDF", CuratedSource, query, e.summary)
  }

  function Tagged(es: seq<Entry>, query: string): (r: seq<Found>)
    ensures |r| == |es|
    ensures forall i :: 0 <= i < |es| ==> r[i] == Tag(es[i], query)
  {
    seq(|es|, i requires 0 <= i < |es| => Tag(es[i], query))
  }

  /** The entries of every topic whose keyword occurs in the lower-cased
      query, topic by topic in table order. */
  function CuratedIn(table: seq<CuratedTopic>, query: string): seq<Found>
    decreases |table|
  {
    if table == [] then []
    else
      var last := table[|table| - 1];
      CuratedIn(table[..|table| - 1], query)
        + (if Contains(Lower(query), last.keyword) then Tagged(last.entries, query) else [])
  }

  function CuratedFor(query: string): seq<Found>
  {
    CuratedIn(CuratedTable, query)
  }

  /** `get_curated_pdfs`: the loop over the curated table. */
  method GetCuratedPdfs(query: string) returns (pdfs: seq<Found>)
    ensures pdfs == CuratedFor(query)
  {
    pdfs := CuratedLoop(CuratedTable, query);
  }

  /** The nested loop of `get_curated_pdfs` over a table of topics. */
  method CuratedLoop(table: seq<CuratedTopic>, query: string) returns (pdfs: seq<Found>)
    ensures pdfs == CuratedIn(table, query)
  {
    pdfs := [];
    var low := Lower(query);
    var i := 0;
    while i < |table|
      invariant 0 <= i <= |table|
      invariant pdfs == CuratedIn(table[..i], query)
    {
      var topic := table[i];
      assert table[..i + 1][..i] == table[..i];
      if Contains(low, topic.keyword) {
        var j := 0;
        while j < |topic.entries|
          invariant 0 <= j <= |topic.entries|
          invariant pdfs == CuratedIn(table[..i], query) + Tagged(topic.entries[..j], query)
        {
          assert Tagged(topic.entries[..j + 1], query) == Tagged(topic.entries[..j], query) + [Tag(topic.entries[j], query)];
          pdfs := pdfs + [Tag(topic.entries[j], query)];
          j := j + 1;
        }
        assert topic.entries[..j] == topic.entries;
      }
      i := i + 1;
    }
    assert table[..i] == table;
  }

  /** `f` is an entry of a topic of `table` whose keyword occurs in the
      lower-cased query. */
  ghost predicate FromMatchingTopic(table: seq<CuratedTopic>, query: string, f: Found)
  {
    exists k :: 0 <= k < |table| && Contains(Lower(query), table[k].keyword)
      && Entry(f.title, f.url, f.summary) in table[k].entries
  }

  /** Every curated result is tagged as a curated PDF for the query and is an
      entry of a topic whose keyword occurs in the lower-cased query. */
  lemma {:induction false} CuratedInMatches(table: seq<CuratedTopic>, query: string)
    ensures forall f :: f in CuratedIn(table, query) ==>
      f.resourceType == "PDF" && f.source == CuratedSource && f.searchQuery == query
      && FromMatchingTopic(table, query, f)
    decreases |table|
  {
    if table != [] {
      var init, last := table[..|table| - 1], table[|table| - 1];
      CuratedInMatches(init, query);
      var a := CuratedIn(init, query);
      var b := if Contains(Lower(query), last.keyword) then Tagged(last.entries, query) else [];
      assert CuratedIn(table, query) == a + b;
      forall f: Found | f in a + b
        ensures f.resourceType == "PDF" && f.source == CuratedSource && f.searchQuery == query
        ensures FromMatchingTopic(table, query, f)
      {
        if f in a {
          var k :| 0 <= k < |init| && Contains(Lower(query), init[k].keyword)
            && Entry(f.title, f.url, f.summary) in init[k].entries;
          assert table[k] == init[k];
        } else {
          var j :| 0 <= j < |b| && b[j] == f;
          assert f == Tag(last.entries[j], query);
          assert Entry(f.title, f.url, f.summary) == last.entries[j];
          assert table[|table| - 1] == last;
        }
      }
    }
  }

  /** Conversely, every entry of every topic whose keyword occurs in the
      lower-cased query is curated, tagged for the query. */
  lemma {:induction false} CuratedInComplete(table: seq<CuratedTopic>, query: string, k: nat, e: Entry)
    requires k < |table| && Contains(Lower(query), table[k].keyword) && e in table[k].entries
    ensures Tag(e, query) in CuratedIn(table, query)
    decreases |table|
  {
    var init := table[..|table| - 1];
    if k == |table| - 1 {
      var j :| 0 <= j < |table[k].entries| && table[k].entries[j] == e;
      assert Tagged(table[k].entries, query)[j] == Tag(e, query);
    } else {
      assert init[k] == table[k];
      CuratedInComplete(init, query, k, e);
    }
  }

  /** The result is empty exactly when no keyword occurs in the query (every
      topic of the table has entries). */
  lemma {:induction false} CuratedInEmpty(table: seq<CuratedTopic>, query: string)
    requires forall k :: 0 <= k < |table| ==> table[k].entries != []
    ensures CuratedIn(table, query) == [] <==> forall k :: 0 <= k < |table| ==> !Contains(Lower(query), table[k].keyword)
    decreases |table|
  {
    if table != [] {
      CuratedInEmpty(table[..|table| - 1], query);
      assert forall k :: 0 <= k < |table| - 1 ==> table[..|table| - 1][k] == table[k];
    }
  }

  lemma CuratedForEmpty(query: string)
    ensures CuratedFor(query) == [] <==>
      forall k :: 0 <= k < |CuratedTable| ==> !Contains(Lower(query), CuratedTable[k].keyword)
  {
    CuratedInEmpty(CuratedTable, query);
  }

  /** Topics after `m` whose keyword does not occur in the query add nothing. */
  lemma {:induction false} CuratedInUnmatchedTail(table: seq<CuratedTopic>, query: string, m: nat)
    requires m <= |table|
    requires forall k :: m <= k < |table| ==> !Contains(Lower(query), table[k].keyword)
    ensures CuratedIn(table, query) == CuratedIn(table[..m], query)
    decreases |table|
  {
    if |table| > m {
      var init := table[..|table| - 1];
      assert init[..m] == table[..m];
      CuratedInUnmatchedTail(init, query, m);
    } else {
      assert table[..m] == table;
    }
  }

  /** The query "Python" matches the python topic and no other. */
  lemma PythonQuery()
    ensures CuratedFor("Python") == Tagged(CuratedTable[0].entries, "Python")
  {
    var t, q := CuratedTable, "Python";
    assert Lower(q) == "python";
    ContainsAt("python", "python", 0);
    assert t[..1][..0] == [];
    assert CuratedIn(t[..1], q) == Tagged(t[0].entries, q);
    NoOtherTopicForPython();
    CuratedInUnmatchedTail(t, q, 1);
  }

  lemma NoOtherTopicForPython()
    ensures forall k :: 1 <= k < |CuratedTable| ==> !Contains(Lower("Python"), CuratedTable[k].keyword)
  {
    forall k | 1 <= k < |CuratedTable|
      ensures !Contains(Lower("Python"), CuratedTable[k].keyword)
    {
      if k == 1 {
        PythonMissesTopic(k, 0, 'j');
      } else if k == 2 {
        PythonMissesTopic(k, 1, 'a');
      } else if k == 3 {
        PythonMissesTopic(k, 0, 'm');
      } else if k == 4 {
        PythonMissesTopic(k, 0, 'w');
      } else {
        PythonMissesTopic(k, 0, 'r');
      }
    }
  }

  /** Topic `k`'s keyword has the character `c` at `i`, which "python" lacks. */
  lemma PythonMissesTopic(k: nat, i: nat, c: char)
    requires k < |CuratedTable| && i < |CuratedTable[k].keyword|
    requires CuratedTable[k].keyword[i] == c && c !in "python"
    ensures !Contains(Lower("Python"), CuratedTable[k].keyword)
  {
    NotInPython(CuratedTable[k].keyword, c);
  }

  lemma NotInPython(kw: string, c: char)
    requires c in kw && c !in "python"
    ensures !Contains(Lower("Python"), kw)
  {
    assert Lower("Python") == "python";
    NotContainedWithout("python", kw, c);
  }

  /** The methods' results for one topic, concatenated in order until the
      running total reaches `maxPerTopic`. */
  function GatherUntil(acc: seq<Found>, lists: seq<seq<Found>>, maxPerTopic: int): seq<Found>
    decreases |lists|
  {
    if lists == [] then acc
    else
      var a := acc + lists[0];
      if |a| >= maxPerTopic then a else GatherUntil(a, lists[1..], maxPerTopic)
  }

  /** What one topic contributes: `topic_pdfs[:max_per_topic]`. */
  function TopicResults(lists: seq<seq<Found>>, maxPerTopic: int): seq<Found>
  {
    SliceTo(GatherUntil([], lists, maxPerTopic), maxPerTopic)
  }

  function Concat(lists: seq<seq<Found>>): seq<Found>
    decreases |lists|
  {
    if lists == [] then [] else lists[0] + Concat(lists[1..])
  }

  lemma {:induction false} GatherUntilPrefix(acc: seq<Found>, lists: seq<seq<Found>>, maxPerTopic: int)
    ensures var g := GatherUntil(acc, lists, maxPerTopic);
      |g| <= |acc + Concat(lists)| && g == (acc + Concat(lists))[..|g|]
      && (|g| >= maxPerTopic || g == acc + Concat(lists))
    decreases |lists|
  {
    if lists != [] {
      var a := acc + lists[0];
      assert acc + Concat(lists) == a + Concat(lists[1..]);
      if |a| < maxPerTopic {
        GatherUntilPrefix(a, lists[1..], maxPerTopic);
      }
    }
  }

  /** Stopping early changes nothing: a topic contributes the first
      `maxPerTopic` results of all its methods together, so never more than
      `maxPerTopic`. */
  lemma TopicResultsArePrefix(lists: seq<seq<Found>>, maxPerTopic: nat)
    ensures TopicResults(lists, maxPerTopic) == Take(Concat(lists), maxPerTopic)
    ensures |TopicResults(lists, maxPerTopic)| <= maxPerTopic
  {
    GatherUntilPrefix([], lists, maxPerTopic);
    assert [] + Concat(lists) == Concat(lists);
  }

  /** The gathering loop of one topic. */
  method GatherTopic(lists: seq<seq<Found>>, maxPerTopic: int) returns (r: seq<Found>)
    ensures r == TopicResults(lists, maxPerTopic)
  {
    var acc: seq<Found> := [];
    var i := 0;
    while i < |lists|
      invariant 0 <= i <= |lists|
      invariant GatherUntil(acc, lists[i..], maxPerTopic) == GatherUntil([], lists, maxPerTopic)
    {
      assert lists[i..][0] == lists[i] && lists[i..][1..] == lists[i + 1..];
      acc := acc + lists[i];
      if |acc| >= maxPerTopic {
        assert acc == GatherUntil([], lists, maxPerTopic);
        break;
      }
      i := i + 1;
    }
    r := SliceTo(acc, maxPerTopic);
  }

  /** The search results of one topic: the curated list first, then the
      other three methods' results. */
  function TopicLists(topic: string, others: string -> seq<seq<Found>>): seq<seq<Found>>
  {
    [CuratedFor(topic)] + others(topic)
  }

  /** `all_resources` after the topic loop. */
  function Gathered(topics: seq<string>, maxPerTopic: int, others: string -> seq<seq<Found>>): seq<Found>
    decreases |topics|
  {
    if topics == [] then []
    else Gathered(topics[..|topics| - 1], maxPerTopic, others)
         + TopicResults(TopicLists(topics[|topics| - 1], others), maxPerTopic)
  }

  /** Each topic contributes at most `maxPerTopic` resources. */
  lemma {:induction false} GatheredBound(topics: seq<string>, maxPerTopic: nat, others: string -> seq<seq<Found>>)
    ensures |Gathered(topics, maxPerTopic, others)| <= |topics| * maxPerTopic
    decreases |topics|
  {
    if topics != [] {
      GatheredBound(topics[..|topics| - 1], maxPerTopic, others);
      TopicResultsArePrefix(TopicLists(topics[|topics| - 1], others), maxPerTopic);
      assert (|topics| - 1) * maxPerTopic + maxPerTopic == |topics| * maxPerTopic;
    }
  }

  method GatherAll(topics: seq<string>, maxPerTopic: int, others: string -> seq<seq<Found>>) returns (all: seq<Found>)
    ensures all == Gathered(topics, maxPerTopic, others)
  {
    all := [];
    var i := 0;
    while i < |topics|
      invariant 0 <= i <= |topics|
      invariant all == Gathered(topics[..i], maxPerTopic, others)
    {
      var curated := GetCuratedPdfs(topics[i]);
      var got := GatherTopic([curated] + others(topics[i]), maxPerTopic);
      assert topics[..i + 1][..i] == topics[..i];
      all := all + got;
      i := i + 1;
    }
    assert topics[..i] == topics;
  }

  /** A score that raised falls back to 7. */
  function ScoreOf(score: Found -> Option<int>, f: Found): int
  {
    match score(f)
    case Some(v) => v
    case None => 7
  }

  function Scores(all: seq<Found>, score: Found -> Option<int>): (r: seq<Scored>)
    ensures |r| == |all|
    ensures forall i :: 0 <= i < |all| ==> r[i] == Scored(all[i], ScoreOf(score, all[i]))
  {
    seq(|all|, i requires 0 <= i < |all| => Scored(all[i], ScoreOf(score, all[i])))
  }

  /** The scoring loop. */
  method ScoreAll(all: seq<Found>, score: Found -> Option<int>) returns (scored: seq<Scored>)
    ensures scored == Scores(all, score)
  {
    scored := [];
    var i := 0;
    while i < |all|
      invariant 0 <= i <= |all|
      invariant scored == Scores(all, score)[..i]
    {
      scored := scored + [Scored(all[i], ScoreOf(score, all[i]))];
      i := i + 1;
    }
  }

  /** `sort(key=relevance, reverse=True)` is the stable sort by the negated
      score. */
  function ByRelevanceDesc(s: Scored): int
  {
    -s.relevance
  }

  function Ranked(all: seq<Found>, score: Found -> Option<int>): seq<Scored>
  {
    StableSort.Sort(Scores(all, score), ByRelevanceDesc)
  }

  /** The ranking orders by score, highest first, is a permutation of the
      scored resources, and keeps resources of equal score in their found
      order. */
  lemma RankedByRelevance(all: seq<Found>, score: Found -> Option<int>, v: int)
    ensures var r := Ranked(all, score);
      |r| == |all|
      && (forall i, j :: 0 <= i < j < |r| ==> r[i].relevance >= r[j].relevance)
      && multiset(r) == multiset(Scores(all, score))
      && StableSort.WithKey(r, ByRelevanceDesc, v) == StableSort.WithKey(Scores(all, score), ByRelevanceDesc, v)
  {
    RankedDescending(all, score);
    StableSort.SortStable(Scores(all, score), ByRelevanceDesc, v);
  }

  /** The order and permutation half of the ranking. */
  lemma RankedDescending(all: seq<Found>, score: Found -> Option<int>)
    ensures var r := Ranked(all, score);
      |r| == |all|
      && (forall i, j :: 0 <= i < j < |r| ==> r[i].relevance >= r[j].relevance)
      && multiset(r) == multiset(Scores(all, score))
  {
    StableSort.SortSorted(Scores(all, score), ByRelevanceDesc);
    var r := Ranked(all, score);
    forall i, j | 0 <= i < j < |r|
      ensures r[i].relevance >= r[j].relevance
    {
      assert ByRelevanceDesc(r[i]) <= ByRelevanceDesc(r[j]);
    }
  }

  /** A resource after the download pass: `success` exactly when a local
      file path came back. */
  function AfterDownload(s: Scored, path: string): (c: Curated)
    ensures c.status == "success" <==> c.localPath != ""
    ensures c.status == "failed" <==> c.localPath == ""
  {
    Curated(s.pdf, s.relevance, path, if path != "" then "success" else "failed", "")
  }

  /** The download pass over the ten best. A download that raises or finds no
      valid PDF gives the empty path. */
  function DownloadTop(ranked: seq<Scored>, download: Found -> string): (r: seq<Curated>)
    ensures |r| == if |ranked| < 10 then |ranked| else 10
    ensures forall i :: 0 <= i < |r| ==> r[i] == AfterDownload(ranked[i], download(ranked[i].pdf))
  {
    var top := Take(ranked, 10);
    seq(|top|, i requires 0 <= i < |top| => AfterDownload(top[i], download(top[i].pdf)))
  }

  method DownloadLoop(ranked: seq<Scored>, download: Found -> string) returns (downloaded: seq<Curated>)
    ensures downloaded == DownloadTop(ranked, download)
  {
    var top := Take(ranked, 10);
    downloaded := [];
    var i := 0;
    while i < |top|
      invariant 0 <= i <= |top|
      invariant downloaded == DownloadTop(ranked, download)[..i]
    {
      downloaded := downloaded + [AfterDownload(top[i], download(top[i].pdf))];
      i := i + 1;
    }
  }

  const DraftHead: string := "\U{1F4DA} Free Resource Alert!\n\nFound this PDF: \""
  const DraftLearning: string := "\"\n\nPerfect for learning "
  const DraftDownload: string := "! \U{1F680}\n\n\U{1F517} Download: "
  const DraftTags: string := " #Learning #FreePDF #TechEducation"

  /** `_create_simple_draft`: the head, the title, the learning line with the
      query, the download line with the url, and the hashtags. */
  function SimpleDraft(title: string, query: string, url: string): string
  {
    DraftHead + title + AfterTitle(query, url)
  }

  function AfterTitle(query: string, url: string): string
  {
    DraftLearning + query + AfterQuery(query, url)
  }

  function AfterQuery(query: string, url: string): string
  {
    DraftDownload + url + AfterUrl(query)
  }

  function AfterUrl(query: string): string
  {
    "\n\n" + ("#" + Hashtag(query)) + DraftTags
  }

  /** `query.replace(' ', '')`. */
  function Hashtag(query: string): string
  {
    ReplaceAll(query, " ", "")
  }

  /** The simple draft names the title, the query and the link, and tags the
      query as one hashtag word. */
  lemma SimpleDraftMentions(title: string, query: string, url: string)
    ensures var d := SimpleDraft(title, query, url);
      Contains(d, title) && Contains(d, query) && Contains(d, url) && Contains(d, "#" + Hashtag(query))
    ensures ' ' !in Hashtag(query)
  {
    var front := DraftHead + title;
    ContainsMiddle(DraftHead, title, AfterTitle(query, url));
    DraftTailMentions(query, url);
    ContainsAfter(front, AfterTitle(query, url), query);
    ContainsAfter(front, AfterTitle(query, url), url);
    ContainsAfter(front, AfterTitle(query, url), "#" + Hashtag(query));
    ReplaceCharGone(query, ' ', []);
  }

  /** The part after the title names the query, the url and the hashtag. */
  lemma DraftTailMentions(query: string, url: string)
    ensures var t := AfterTitle(query, url);
      Contains(t, query) && Contains(t, url) && Contains(t, "#" + Hashtag(query))
  {
    var h := "#" + Hashtag(query);
    ContainsMiddle(DraftLearning, query, AfterQuery(query, url));
    ContainsMiddle(DraftDownload, url, AfterUrl(query));
    ContainsMiddle("\n\n", h, DraftTags);
    ContainsAfter(DraftDownload + url, AfterUrl(query), h);
    ContainsAfter(DraftLearning + query, AfterQuery(query, url), url);
    ContainsAfter(DraftLearning + query, AfterQuery(query, url), h);
  }

  /** The model's draft for a resource, or the simple draft when it raises. */
  function DraftFor(c: Curated, aiDraft: Curated -> Option<string>): string
  {
    match aiDraft(c)
    case Some(text) => text
    case None => SimpleDraft(c.pdf.title, c.pdf.searchQuery, c.pdf.url)
  }

  /** The draft pass: only the draft of each resource changes. */
  function WithDrafts(ds: seq<Curated>, aiDraft: Curated -> Option<string>): (r: seq<Curated>)
    ensures |r| == |ds|
    ensures forall i :: 0 <= i < |ds| ==> r[i] == ds[i].(draft := DraftFor(ds[i], aiDraft))
  {
    seq(|ds|, i requires 0 <= i < |ds| => ds[i].(draft := DraftFor(ds[i], aiDraft)))
  }

  method DraftLoop(ds: seq<Curated>, aiDraft: Curated -> Option<string>) returns (r: seq<Curated>)
    ensures r == WithDrafts(ds, aiDraft)
  {
    r := [];
    var i := 0;
    while i < |ds|
      invariant 0 <= i <= |ds|
      invariant r == WithDrafts(ds, aiDraft)[..i]
    {
      var text := match aiDraft(ds[i])
        case Some(t) => t
        case None => SimpleDraft(ds[i].pdf.title, ds[i].pdf.searchQuery, ds[i].pdf.url);
      r := r + [ds[i].(draft := text)];
      i := i + 1;
    }
  }

  /** `curate_resources_from_topics` up to the save: None where constructing
      the AI service raises, which is not caught. */
  function Curate(topics: seq<string>, maxPerTopic: int, others: string -> seq<seq<Found>>, aiReady: bool,
                  score: Found -> Option<int>, download: Found -> string,
                  aiDraft: Curated -> Option<string>): Option<seq<Curated>>
  {
    var all := Gathered(topics, maxPerTopic, others);
    if all == [] then Some([])
    else if !aiReady then None
    else Some(WithDrafts(DownloadTop(Ranked(all, score), download), aiDraft))
  }

  /** The download and draft passes keep the order and the scores of the ten
      best and mark each `success` exactly when it has a local file. */
  lemma {:induction false} TopTenKept(ranked: seq<Scored>, download: Found -> string, aiDraft: Curated -> Option<string>)
    ensures var r := WithDrafts(DownloadTop(ranked, download), aiDraft);
      |r| == (if |ranked| < 10 then |ranked| else 10)
      && forall i :: 0 <= i < |r| ==>
           r[i].pdf == ranked[i].pdf && r[i].relevance == ranked[i].relevance
           && (r[i].status == "success" <==> r[i].localPath != "")
  {
    var d := DownloadTop(ranked, download);
    var r := WithDrafts(d, aiDraft);
    forall i | 0 <= i < |r|
      ensures r[i].pdf == ranked[i].pdf && r[i].relevance == ranked[i].relevance
      ensures r[i].status == "success" <==> r[i].localPath != ""
    {
      assert r[i].pdf == d[i].pdf && r[i].relevance == d[i].relevance;
      assert r[i].status == d[i].status && r[i].localPath == d[i].localPath;
      assert Take(ranked, 10)[i] == ranked[i];
    }
  }

  /** Every ranked resource was gathered. */
  lemma RankedFromGathered(all: seq<Found>, score: Found -> Option<int>)
    ensures forall i :: 0 <= i < |Ranked(all, score)| ==> Ranked(all, score)[i].pdf in all
  {
    var ranked := Ranked(all, score);
    StableSort.SortSorted(Scores(all, score), ByRelevanceDesc);
    forall i | 0 <= i < |ranked|
      ensures ranked[i].pdf in all
    {
      assert ranked[i] in multiset(Scores(all, score));
      var k :| 0 <= k < |all| && Scores(all, score)[k] == ranked[i];
    }
  }

  /** The outcome keeps at most ten resources, each one gathered for some
      topic, in score order, none scoring below a resource left out, each
      marked `success` exactly when it has a local file. */
  lemma CurateOutcome(topics: seq<string>, maxPerTopic: int, others: string -> seq<seq<Found>>, aiReady: bool,
                      score: Found -> Option<int>, download: Found -> string, aiDraft: Curated -> Option<string>)
    requires Curate(topics, maxPerTopic, others, aiReady, score, download, aiDraft).Some?
    ensures var all := Gathered(topics, maxPerTopic, others);
      var r := Curate(topics, maxPerTopic, others, aiReady, score, download, aiDraft).value;
      TopTen(r, all, Ranked(all, score))
  {
    var all := Gathered(topics, maxPerTopic, others);
    if all != [] {
      PipelineOutcome(all, score, download, aiDraft);
    }
  }

  /** `r` keeps the best of `all` as ranked: at most ten, each gathered, in
      score order, none below a resource left out, each marked `success`
      exactly when it has a local file. */
  ghost predicate TopTen(r: seq<Curated>, all: seq<Found>, ranked: seq<Scored>)
  {
    |r| == (if |all| < 10 then |all| else 10)
    && (forall i :: 0 <= i < |r| ==> r[i].pdf in all)
    && (forall i, j :: 0 <= i < j < |r| ==> r[i].relevance >= r[j].relevance)
    && (forall i, j :: 0 <= i < |r| <= j < |ranked| ==> r[i].relevance >= ranked[j].relevance)
    && (forall i :: 0 <= i < |r| ==> (r[i].status == "success" <==> r[i].localPath != ""))
  }

  lemma PipelineOutcome(all: seq<Found>, score: Found -> Option<int>, download: Found -> string,
                        aiDraft: Curated -> Option<string>)
    ensures TopTen(WithDrafts(DownloadTop(Ranked(all, score), download), aiDraft), all, Ranked(all, score))
  {
    var ranked := Ranked(all, score);
    var r := WithDrafts(DownloadTop(ranked, download), aiDraft);
    RankedDescending(all, score);
    RankedFromGathered(all, score);
    TopTenKept(ranked, download, aiDraft);
    TopTenOfRanked(r, all, ranked);
  }

  /** The first ten of a descending ranking of `all`, with their scores kept,
      are the best ten. */
  lemma TopTenOfRanked(r: seq<Curated>, all: seq<Found>, ranked: seq<Scored>)
    requires |ranked| == |all|
    requires forall i, j :: 0 <= i < j < |ranked| ==> ranked[i].relevance >= ranked[j].relevance
    requires forall i :: 0 <= i < |ranked| ==> ranked[i].pdf in all
    requires |r| == (if |ranked| < 10 then |ranked| else 10)
    requires forall i :: 0 <= i < |r| ==>
      r[i].pdf == ranked[i].pdf && r[i].relevance == ranked[i].relevance
      && (r[i].status == "success" <==> r[i].localPath != "")
    ensures TopTen(r, all, ranked)
  {
    forall i, j | 0 <= i < j < |r|
      ensures r[i].relevance >= r[j].relevance
    {
      assert r[i].relevance == ranked[i].relevance && r[j].relevance == ranked[j].relevance;
    }
    forall i, j | 0 <= i < |r| <= j < |ranked|
      ensures r[i].relevance >= ranked[j].relevance
    {
      assert r[i].relevance == ranked[i].relevance;
    }
  }

  /** The characters a file name keeps: `isalnum`, space, `-` and `_`. */
  predicate SafeChar(c: char)
  {
    'a' <= c <= 'z' || 'A' <= c <= 'Z' || '0' <= c <= '9' || c == ' ' || c == '-' || c == '_'
  }

  /** The title part of a downloaded file's name: every other character
      becomes `_`, and at most 80 characters are kept. */
  function SafeTitle(title: string): (r: string)
    ensures |r| <= 80 && |r| <= |title|
    ensures forall i :: 0 <= i < |r| ==> r[i] == (if SafeChar(title[i]) then title[i] else '_')
  {
    Take(seq(|title|, i requires 0 <= i < |title| => if SafeChar(title[i]) then title[i] else '_'), 80)
  }

  /** A safe title is left as it is. */
  lemma SafeTitleIdempotent(title: string)
    ensures SafeTitle(SafeTitle(title)) == SafeTitle(title)
  {
  }

  /** `f"{safe_title}_{url_hash}.pdf"` with the first eight characters of the
      url's hex digest. */
  function PdfFileName(title: string, digest: string): string
  {
    SafeTitle(title) + "_" + Take(digest, 8) + ".pdf"
  }

  predicate IsHex(c: char)
  {
    '0' <= c <= '9' || 'a' <= c <= 'f'
  }

  /** With a hex digest the file name has no path separator, so the file
      stays in the download folder; it ends in `.pdf` and has at most 93
      characters. */
  lemma FileNameStaysInFolder(title: string, digest: string)
    requires forall i :: 0 <= i < |digest| ==> IsHex(digest[i])
    ensures var name := PdfFileName(title, digest);
      '/' !in name && |name| <= 93 && name[|name| - 4..] == ".pdf"
  {
    var name := PdfFileName(title, digest);
    var safe, hash := SafeTitle(title), Take(digest, 8);
    assert name == safe + "_" + hash + ".pdf";
    forall i | 0 <= i < |name|
      ensures name[i] != '/'
    {
      if i < |safe| {
        assert name[i] == safe[i];
      } else if |safe| < i < |safe| + 1 + |hash| {
        assert name[i] == hash[i - |safe| - 1] == digest[i - |safe| - 1];
      }
    }
  }

  /** `path.split('/')[-1]`: what follows the last `/`. */
  function LastSegment(path: string): (r: string)
    ensures '/' !in r
    ensures |r| <= |path| && r == path[|path| - |r|..]
    ensures |r| < |path| ==> path[|path| - |r| - 1] == '/'
    decreases |path|
  {
    if path == [] || path[|path| - 1] == '/' then []
    else LastSegment(path[..|path| - 1]) + [path[|path| - 1]]
  }

  /** `re.sub(r'\s+', ' ', s)`: every run of white space becomes one space. */
  function CollapseSpaces(s: string): (r: string)
    ensures forall i :: 0 <= i < |r| - 1 ==> !(IsSpace(r[i]) && IsSpace(r[i + 1]))
    ensures forall c :: c in r ==> c in s || c == ' '
    ensures r == [] <==> s == []
    ensures r != [] ==> (IsSpace(r[0]) <==> IsSpace(s[0]))
    decreases |s|
  {
    if s == [] then []
    else if IsSpace(s[0]) then [' '] + CollapseSpaces(StripLeft(s[1..]))
    else [s[0]] + CollapseSpaces(s[1..])
  }

  /** The title cleanup of the first search method, applied to the last
      path segment. */
  function CleanTitle(segment: string): string
  {
    var t := ReplaceAll(ReplaceAll(ReplaceAll(segment, ".pdf", ""), "_", " "), "-", " ");
    Strip(CollapseSpaces(t))
  }

  /** No two white-space characters side by side. */
  ghost predicate SingleSpaced(s: string)
  {
    forall i :: 0 <= i < |s| - 1 ==> !(IsSpace(s[i]) && IsSpace(s[i + 1]))
  }

  /** A cleaned title has no `_` or `-`, no two white-space characters side by
      side, and no white space at either end. */
  lemma CleanTitleShape(segment: string)
    ensures var r := CleanTitle(segment);
      '_' !in r && '-' !in r && SingleSpaced(r)
      && (r == [] || (!IsSpace(r[0]) && !IsSpace(r[|r| - 1])))
  {
    var t0 := ReplaceAll(segment, ".pdf", "");
    var t1 := ReplaceAll(t0, "_", " ");
    var t2 := ReplaceAll(t1, "-", " ");
    ReplaceCharGone(t0, '_', " ");
    ReplaceCharGone(t1, '-', " ");
    var c := CollapseSpaces(t2);
    assert '_' !in c && '-' !in c && SingleSpaced(c);
    StripKeepsShape(c);
  }

  lemma StripKeepsShape(c: string)
    requires '_' !in c && '-' !in c && SingleSpaced(c)
    ensures '_' !in Strip(c) && '-' !in Strip(c) && SingleSpaced(Strip(c))
  {
    var l := StripLeft(c);
    assert l == c[|c| - |l|..|c|];
    SliceKeepsShape(c, |c| - |l|, |c|);
    var r := StripRight(l);
    assert r == l[0..|r|];
    SliceKeepsShape(l, 0, |r|);
    assert Strip(c) == r;
  }

  /** A slice of a title without `_` or `-` and without double white space
      has neither either. */
  lemma SliceKeepsShape(c: string, a: nat, b: nat)
    requires a <= b <= |c|
    requires '_' !in c && '-' !in c && SingleSpaced(c)
    ensures '_' !in c[a..b] && '-' !in c[a..b] && SingleSpaced(c[a..b])
  {
    var r := c[a..b];
    forall i | 0 <= i < |r|
      ensures r[i] != '_' && r[i] != '-'
    {
      assert r[i] == c[a + i];
    }
    forall i | 0 <= i < |r| - 1
      ensures !(IsSpace(r[i]) && IsSpace(r[i + 1]))
    {
      assert r[i] == c[a + i] && r[i + 1] == c[a + i + 1];
    }
  }

  /** The title stored for a result of the first search method: the cleaned
      last path segment, or `PDF about <query> - <n>` when that is shorter than
      five characters, cut to 200 characters. */
  function UrlTitle(path: string, query: string, idx: nat): (r: string)
    ensures |r| <= 200
    ensures |CleanTitle(LastSegment(path))| >= 5 ==> r == Take(CleanTitle(LastSegment(path)), 200)
  {
    TitleOrFallback(CleanTitle(LastSegment(path)), query, idx)
  }

  function TitleOrFallback(t: string, query: string, idx: nat): (r: string)
    ensures |r| <= 200
    ensures |t| >= 5 ==> r == Take(t, 200)
    ensures |t| < 5 ==> r == Take(FallbackTitle(query, idx), 200)
  {
    Take(if |t| < 5 then FallbackTitle(query, idx) else t, 200)
  }

  function FallbackTitle(query: string, idx: nat): string
  {
    "PDF about " + query + (" - " + NatToString(idx + 1))
  }

  /** The fallback title names the query when the query fits. */
  lemma FallbackTitleNamesQuery(path: string, query: string, idx: nat)
    requires |CleanTitle(LastSegment(path))| < 5 && |query| <= 190
    ensures Contains(UrlTitle(path, query, idx), query)
  {
    FallbackNamesQuery(CleanTitle(LastSegment(path)), query, idx);
  }

  lemma FallbackNamesQuery(t: string, query: string, idx: nat)
    requires |t| < 5 && |query| <= 190
    ensures Contains(TitleOrFallback(t, query, idx), query)
  {
    var tail := " - " + NatToString(idx + 1);
    assert FallbackTitle(query, idx) == "PDF about " + query + tail;
    TakeKeepsMiddle("PDF about ", query, tail, 200);
  }

  lemma TakeKeepsMiddle(a: string, b: string, c: string, n: nat)
    requires |a| + |b| <= n
    ensures Contains(Take(a + b + c, n), b)
  {
    var t := Take(a + b + c, n);
    assert t[|a|..|a| + |b|] == (a + b + c)[|a|..|a| + |b|] == b;
    ContainsAt(t, b, |a|);
  }

  /** The twelve cells `_save_to_sheets` appends for one resource. */
  function ResourceRow(id: nat, c: Curated, created: string): (cells: seq<string>)
    ensures |cells| == 12
  {
    [NatToString(id), Take(c.pdf.title, 500), c.pdf.url, c.pdf.resourceType, c.pdf.source, c.pdf.searchQuery,
     Take(c.pdf.summary, 500), IntToString(c.relevance), c.localPath, Take(c.draft, 1000), c.status, created]
  }

  /** The url column of the stored records. */
  function StoredUrls(lines: seq<seq<string>>): seq<string>
  {
    if |lines| <= 1 then []
    else seq(|lines| - 1, i requires 0 <= i < |lines| - 1 => if |lines[i + 1]| > 2 then lines[i + 1][2] else "")
  }

  /** The resources a save appends: all of them when the sheet holds no
      record, otherwise those whose url is not stored yet. The stored table
      is read once, so two new resources with the same url are both saved. */
  function Fresh(rs: seq<Curated>, lines: seq<seq<string>>): seq<Curated>
    decreases |rs|
  {
    if rs == [] then []
    else
      var last := rs[|rs| - 1];
      Fresh(rs[..|rs| - 1], lines)
        + (if PostQueue.RecordCount(lines) == 0 || last.pdf.url !in StoredUrls(lines) then [last] else [])
  }

  lemma {:induction false} FreshKeeps(rs: seq<Curated>, lines: seq<seq<string>>)
    ensures forall c :: c in Fresh(rs, lines) <==>
      c in rs && (PostQueue.RecordCount(lines) == 0 || c.pdf.url !in StoredUrls(lines))
    decreases |rs|
  {
    if rs != [] {
      FreshKeeps(rs[..|rs| - 1], lines);
      assert rs == rs[..|rs| - 1] + [rs[|rs| - 1]];
    }
  }

  /** Rows for the resources to save; the `k`-th gets id `firstId + k` when
      `numbered`, and `firstId` otherwise. */
  function SaveRows(toSave: seq<Curated>, firstId: nat, numbered: bool, created: string): (rows: seq<seq<string>>)
    ensures |rows| == |toSave|
  {
    seq(|toSave|, k requires 0 <= k < |toSave| =>
      ResourceRow(if numbered then firstId + k else firstId, toSave[k], created))
  }

  lemma SaveRowsStep(toSave: seq<Curated>, c: Curated, firstId: nat, numbered: bool, created: string)
    ensures SaveRows(toSave + [c], firstId, numbered, created)
         == SaveRows(toSave, firstId, numbered, created)
            + [ResourceRow(if numbered then firstId + |toSave| else firstId, c, created)]
  {
  }

  /** The save loop. When `numbered`, the id counts on from the stored record
      count; as written, every row gets `len(existing) + 1`. */
  method SaveLoop(sheet: PostQueue.Worksheet, rs: seq<Curated>, now: nat, numbered: bool)
    modifies sheet
    ensures sheet.lines == old(sheet.lines)
      + SaveRows(Fresh(rs, old(sheet.lines)), PostQueue.NextId(PostQueue.RecordCount(old(sheet.lines))), numbered, PostQueue.StampText(now))
  {
    var stored := sheet.lines;
    var firstId := PostQueue.NextId(PostQueue.RecordCount(stored));
    var urls := StoredUrls(stored);
    var empty := PostQueue.RecordCount(stored) == 0;
    var created := PostQueue.StampText(now);
    var added := 0;
    var i := 0;
    while i < |rs|
      invariant 0 <= i <= |rs|
      invariant added == |Fresh(rs[..i], stored)|
      invariant sheet.lines == stored + SaveRows(Fresh(rs[..i], stored), firstId, numbered, created)
    {
      assert rs[..i + 1][..i] == rs[..i];
      var c := rs[i];
      if empty || c.pdf.url !in urls {
        SaveRowsStep(Fresh(rs[..i], stored), c, firstId, numbered, created);
        sheet.AppendRow(ResourceRow(if numbered then firstId + added else firstId, c, created));
        added := added + 1;
      }
      i := i + 1;
    }
    assert rs[..i] == rs;
  }

  /** `_save_to_sheets` as written: every resource appended in one call gets
      the same id. */
  method SaveResourcesAsWritten(sheet: PostQueue.Worksheet, rs: seq<Curated>, now: nat)
    modifies sheet
    ensures sheet.lines == old(sheet.lines)
      + SaveRows(Fresh(rs, old(sheet.lines)), PostQueue.NextId(PostQueue.RecordCount(old(sheet.lines))), false, PostQueue.StampText(now))
  {
    SaveLoop(sheet, rs, now, false);
  }

  /** `_save_to_sheets` with ids counting on from the stored records. */
  method SaveResources(sheet: PostQueue.Worksheet, rs: seq<Curated>, now: nat)
    modifies sheet
    ensures sheet.lines == old(sheet.lines)
      + SaveRows(Fresh(rs, old(sheet.lines)), PostQueue.NextId(PostQueue.RecordCount(old(sheet.lines))), true, PostQueue.StampText(now))
  {
    SaveLoop(sheet, rs, now, true);
  }

  /** As written, two resources saved in one call carry the same id. */
  lemma SharedIdAsWritten(toSave: seq<Curated>, firstId: nat, created: string)
    requires |toSave| >= 2
    ensures var rows := SaveRows(toSave, firstId, false, created);
      rows[0][0] == rows[1][0]
  {
  }

  /** With numbering, the saved rows carry the ids `firstId`, `firstId + 1`,
      ... in order, so no two of them share an id. */
  lemma NumberedIdsDistinct(toSave: seq<Curated>, firstId: nat, created: string)
    ensures var rows := SaveRows(toSave, firstId, true, created);
      (forall k :: 0 <= k < |rows| ==> IsDigits(rows[k][0]) && DigitsValue(rows[k][0]) == firstId + k)
      && (forall j, k :: 0 <= j < k < |rows| ==> rows[j][0] != rows[k][0])
  {
    var rows := SaveRows(toSave, firstId, true, created);
    forall k | 0 <= k < |rows|
      ensures IsDigits(rows[k][0]) && DigitsValue(rows[k][0]) == firstId + k
    {
      NatToStringRoundTrip(firstId + k);
    }
  }

  /** The steps of `curate_resources_from_topics`: gather, score, rank,
      download the ten best, draft, and save what was downloaded, with the
      saved rows numbered on from the stored records exactly when
      `numbered`. */
  method CuratePipeline(sheet: PostQueue.Worksheet, topics: seq<string>, maxPerTopic: int,
                        others: string -> seq<seq<Found>>, aiReady: bool,
                        score: Found -> Option<int>, download: Found -> string,
                        aiDraft: Curated -> Option<string>, now: nat, numbered: bool)
    returns (result: Option<seq<Curated>>)
    modifies sheet
    ensures result == Curate(topics, maxPerTopic, others, aiReady, score, download, aiDraft)
    ensures result.Some? && result.value != [] ==>
      sheet.lines == old(sheet.lines)
        + SaveRows(Fresh(result.value, old(sheet.lines)), PostQueue.NextId(PostQueue.RecordCount(old(sheet.lines))),
                   numbered, PostQueue.StampText(now))
    ensures result.None? || result.value == [] ==> sheet.lines == old(sheet.lines)
  {
    var all := GatherAll(topics, maxPerTopic, others);
    if all == [] {
      return Some([]);
    }
    if !aiReady {
      return None;
    }
    var scored := ScoreAll(all, score);
    scored := StableSort.Sort(scored, ByRelevanceDesc);
    var downloaded := DownloadLoop(scored, download);
    downloaded := DraftLoop(downloaded, aiDraft);
    if downloaded != [] {
      if numbered {
        SaveResources(sheet, downloaded, now);
      } else {
        SaveResourcesAsWritten(sheet, downloaded, now);
      }
    }
    result := Some(downloaded);
  }

  /** `curate_resources_from_topics` as written: it saves through
      `_save_to_sheets`, so every row saved by one run shares an id. */
  method CurateResourcesFromTopics(sheet: PostQueue.Worksheet, topics: seq<string>, maxPerTopic: int,
                                   others: string -> seq<seq<Found>>, aiReady: bool,
                                   score: Found -> Option<int>, download: Found -> string,
                                   aiDraft: Curated -> Option<string>, now: nat)
    returns (result: Option<seq<Curated>>)
    modifies sheet
    ensures result == Curate(topics, maxPerTopic, others, aiReady, score, download, aiDraft)
    ensures result.Some? && result.value != [] ==>
      sheet.lines == old(sheet.lines)
        + SaveRows(Fresh(result.value, old(sheet.lines)), PostQueue.NextId(PostQueue.RecordCount(old(sheet.lines))),
                   false, PostQueue.StampText(now))
    ensures result.None? || result.value == [] ==> sheet.lines == old(sheet.lines)
  {
    result := CuratePipeline(sheet, topics, maxPerTopic, others, aiReady, score, download, aiDraft, now, false);
  }

  /** `curate_resources_from_topics` as intended: the saved rows are numbered
      on from the stored records. */
  method CurateResourcesFromTopicsIntended(sheet: PostQueue.Worksheet, topics: seq<string>, maxPerTopic: int,
                                           others: string -> seq<seq<Found>>, aiReady: bool,
                                           score: Found -> Option<int>, download: Found -> string,
                                           aiDraft: Curated -> Option<string>, now: nat)
    returns (result: Option<seq<Curated>>)
    modifies sheet
    ensures result == Curate(topics, maxPerTopic, others, aiReady, score, download, aiDraft)
    ensures result.Some? && result.value != [] ==>
      sheet.lines == old(sheet.lines)
        + SaveRows(Fresh(result.value, old(sheet.lines)), PostQueue.NextId(PostQueue.RecordCount(old(sheet.lines))),
                   true, PostQueue.StampText(now))
    ensures result.None? || result.value == [] ==> sheet.lines == old(sheet.lines)
  {
    result := CuratePipeline(sheet, topics, maxPerTopic, others, aiReady, score, download, aiDraft, now, true);
  }
}
