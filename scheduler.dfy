/** The background scheduler: a running flag, two daily jobs keyed by id, and
    the dispatch tick that publishes the earliest due pending post. */
module Scheduler {
  import opened Wrappers
  import opened Text
  import opened PostQueue

  /** What the browser publisher does with one post: it returns a text (the
      feed url, "Login failed", "Post saved as draft - ...", "Posting failed -
      ...") or it raises. */
  datatype PublishReply = Returned(text: string) | Raised

  /** The publisher, called with the content and the optional image path. */
  type Publisher = (string, Option<string>) -> PublishReply

  predicate IsPending(r: PostRecord)
  {
    r.status == Pending
  }

  /** `image_url if image_url else None`. */
  function ImageArg(url: string): Option<string>
  {
    if url == "" then None else Some(url)
  }

  /** Rank of a parsed date in `sort_values`: points in time first, NaT last. */
  function DateClass(s: Stamp): nat
  {
    match s
    case At(_) => 0
    case NaT => 1
    case Unparsable => 2
  }

  function DateValue(s: Stamp): nat
  {
    match s
    case At(n) => n
    case _ => 0
  }

  /** Row `i` comes no later than row `j` in the order the tick sorts pending
      rows in: by scheduled date (earliest first, NaT last). Pandas fixes no
      order among equal dates; the model breaks ties by lowest id, then by
      position. */
  predicate Before(t: seq<PostRecord>, i: nat, j: nat)
    requires i < |t| && j < |t|
  {
    var a, b := ParseStamp(t[i].scheduledDate), ParseStamp(t[j].scheduledDate);
    DateClass(a) < DateClass(b)
    || (DateClass(a) == DateClass(b)
        && (DateValue(a) < DateValue(b)
            || (DateValue(a) == DateValue(b)
                && (t[i].id < t[j].id || (t[i].id == t[j].id && i <= j)))))
  }

  lemma BeforeTotal(t: seq<PostRecord>, i: nat, j: nat)
    requires i < |t| && j < |t|
    ensures Before(t, i, j) || Before(t, j, i)
  {
  }

  lemma BeforeTransitive(t: seq<PostRecord>, i: nat, j: nat, k: nat)
    requires i < |t| && j < |t| && k < |t|
    requires Before(t, i, j) && Before(t, j, k)
    ensures Before(t, i, k)
  {
  }

  /** Row `k` is the first pending row in sort order: `pending.iloc[0]`. */
  predicate IsEarliest(t: seq<PostRecord>, k: nat)
  {
    k < |t| && IsPending(t[k])
    && forall j :: 0 <= j < |t| && IsPending(t[j]) ==> Before(t, k, j)
  }

  /** Only one row can be first. */
  lemma EarliestUnique(t: seq<PostRecord>, k1: nat, k2: nat)
    requires IsEarliest(t, k1) && IsEarliest(t, k2)
    ensures k1 == k2
  {
    assert Before(t, k1, k2) && Before(t, k2, k1);
  }

  /** The first pending row among `t[..n]`, found by one pass. */
  function EarliestIn(t: seq<PostRecord>, n: nat): (r: Option<nat>)
    requires n <= |t|
    ensures r.Some? ==> r.value < n
    decreases n
  {
    if n == 0 then None
    else
      var p := EarliestIn(t, n - 1);
      if IsPending(t[n - 1]) && (p.None? || !Before(t, p.value, n - 1)) then Some(n - 1) else p
  }

  lemma {:induction false} EarliestInCorrect(t: seq<PostRecord>, n: nat)
    requires n <= |t|
    ensures EarliestIn(t, n).None? <==> forall j :: 0 <= j < n ==> !IsPending(t[j])
    ensures EarliestIn(t, n).Some? ==>
      var k := EarliestIn(t, n).value;
      IsPending(t[k]) && forall j :: 0 <= j < n && IsPending(t[j]) ==> Before(t, k, j)
    decreases n
  {
    if n > 0 {
      EarliestInCorrect(t, n - 1);
      var p := EarliestIn(t, n - 1);
      if IsPending(t[n - 1]) && p.Some? && !Before(t, p.value, n - 1) {
        BeforeTotal(t, p.value, n - 1);
        forall j | 0 <= j < n && IsPending(t[j])
          ensures Before(t, n - 1, j)
        {
          if j < n - 1 {
            BeforeTransitive(t, n - 1, p.value, j);
          }
        }
      }
    }
  }

  /** The first pending row of the whole table, if there is a pending row. */
  function Earliest(t: seq<PostRecord>): (r: Option<nat>)
    ensures r.Some? ==> r.value < |t|
  {
    EarliestIn(t, |t|)
  }

  lemma EarliestCorrect(t: seq<PostRecord>)
    ensures Earliest(t).None? <==> forall j :: 0 <= j < |t| ==> !IsPending(t[j])
    ensures Earliest(t).Some? ==> IsEarliest(t, Earliest(t).value)
  {
    EarliestInCorrect(t, |t|);
  }

  /** Pending selection: keep the pending rows, sort them by date, take the
      first. */
  method SelectNext(t: seq<PostRecord>) returns (k: Option<nat>)
    ensures k.None? <==> forall j :: 0 <= j < |t| ==> !IsPending(t[j])
    ensures k.Some? ==> IsEarliest(t, k.value)
  {
    k := None;
    var i := 0;
    while i < |t|
      invariant 0 <= i <= |t|
      invariant k.None? ==> forall j :: 0 <= j < i ==> !IsPending(t[j])
      invariant k.Some? ==> k.value < i && IsPending(t[k.value])
      invariant k.Some? ==> forall j :: 0 <= j < i && IsPending(t[j]) ==> Before(t, k.value, j)
    {
      if IsPending(t[i]) {
        if k.None? {
          k := Some(i);
        } else if !Before(t, k.value, i) {
          BeforeTotal(t, k.value, i);
          forall j | 0 <= j < i && IsPending(t[j])
            ensures Before(t, i, j)
          {
            BeforeTransitive(t, i, k.value, j);
          }
          k := Some(i);
        }
      }
      i := i + 1;
    }
  }

  /** `scheduled <= now`; NaT compares false, so an undated row is never due. */
  predicate Due(r: PostRecord, now: nat)
  {
    match ParseStamp(r.scheduledDate)
    case At(n) => n <= now
    case _ => false
  }

  /** `pd.to_datetime` raises when some pending row holds an unparsable date. */
  predicate AnyUnparsable(t: seq<PostRecord>)
  {
    exists i :: 0 <= i < |t| && IsPending(t[i]) && ParseStamp(t[i].scheduledDate) == Unparsable
  }

  /** What one tick does to the sheet: nothing, or a full rewrite. */
  datatype TickPlan = Idle | Rewrite(table: seq<PostRecord>)

  /** One run of `_publish_scheduled_post` at time `now`. Every exception
      (an unreadable sheet, an unparsable date, a raising publisher) ends the
      tick before anything is written. The reply of the publisher is stored
      as the post url whatever it says: the row becomes published. */
  function PlanTick(lines: seq<seq<string>>, now: nat, publish: Publisher): TickPlan
  {
    match ReadTable(lines)
    case None => Idle
    case Some(t) =>
      if Earliest(t).None? || AnyUnparsable(t) then Idle
      else
        var k := Earliest(t).value;
        if !Due(t[k], now) then Idle
        else match publish(t[k].content, ImageArg(t[k].imageUrl))
          case Raised => Idle
          case Returned(url) => Rewrite(MarkPublished(t, t[k].id, url, StampText(now)))
  }

  function SheetAfter(plan: TickPlan, lines: seq<seq<string>>): seq<seq<string>>
  {
    match plan
    case Idle => lines
    case Rewrite(t) => TableLines(t)
  }

  /** The pending row a tick looks at, if the sheet is readable and has one. */
  function Chosen(lines: seq<seq<string>>): Option<PostRecord>
  {
    match ReadTable(lines)
    case None => None
    case Some(t) => if Earliest(t).None? then None else Some(t[Earliest(t).value])
  }

  /** With no pending row the tick writes nothing. */
  lemma TickIdleWithoutPending(lines: seq<seq<string>>, now: nat, publish: Publisher)
    requires ReadTable(lines).Some?
    requires forall j :: 0 <= j < |ReadTable(lines).value| ==> !IsPending(ReadTable(lines).value[j])
    ensures PlanTick(lines, now, publish) == Idle
  {
    EarliestCorrect(ReadTable(lines).value);
  }

  /** A rewrite happens only for the first pending row in date order, only
      when it is due; the table written is the one read with every row of
      that id marked published with the publisher's reply and `now`. */
  lemma TickPublishesEarliestDue(lines: seq<seq<string>>, now: nat, publish: Publisher)
    requires PlanTick(lines, now, publish).Rewrite?
    ensures ReadTable(lines).Some? && Chosen(lines).Some?
    ensures var t := ReadTable(lines).value;
      var k := Earliest(t).value;
      IsEarliest(t, k) && Due(t[k], now) && !AnyUnparsable(t)
      && publish(t[k].content, ImageArg(t[k].imageUrl)).Returned?
      && PlanTick(lines, now, publish).table
         == MarkPublished(t, t[k].id, publish(t[k].content, ImageArg(t[k].imageUrl)).text, StampText(now))
  {
    EarliestCorrect(ReadTable(lines).value);
  }

  /** Conversely, on a readable sheet with no pending date that fails to
      parse, a due first pending row and a publisher that returns always lead
      to the rewrite that marks that row's id published with the reply. */
  lemma TickPublishesWhenEarliestDue(lines: seq<seq<string>>, now: nat, publish: Publisher, k: nat)
    requires ReadTable(lines).Some? && IsEarliest(ReadTable(lines).value, k)
    requires !AnyUnparsable(ReadTable(lines).value) && Due(ReadTable(lines).value[k], now)
    requires var t := ReadTable(lines).value;
      publish(t[k].content, ImageArg(t[k].imageUrl)).Returned?
    ensures var t := ReadTable(lines).value;
      PlanTick(lines, now, publish)
        == Rewrite(MarkPublished(t, t[k].id, publish(t[k].content, ImageArg(t[k].imageUrl)).text, StampText(now)))
  {
    var t := ReadTable(lines).value;
    EarliestCorrect(t);
    EarliestUnique(t, Earliest(t).value, k);
  }

  /** If the first pending row is not due, no pending row is due, and the
      tick writes nothing. */
  lemma TickWaitsWhenEarliestNotDue(lines: seq<seq<string>>, now: nat, publish: Publisher)
    requires Chosen(lines).Some? && !Due(Chosen(lines).value, now)
    ensures var t := ReadTable(lines).value;
      forall j :: 0 <= j < |t| && IsPending(t[j]) ==> !Due(t[j], now)
    ensures PlanTick(lines, now, publish) == Idle
  {
    var t := ReadTable(lines).value;
    EarliestCorrect(t);
    var k := Earliest(t).value;
    forall j | 0 <= j < |t| && IsPending(t[j])
      ensures !Due(t[j], now)
    {
      assert Before(t, k, j);
    }
  }

  /** A post is dispatched once: after a rewrite, no row carrying the
      dispatched id is pending, so the next tick picks another post. */
  lemma DispatchedIdNotChosenAgain(lines: seq<seq<string>>, now: nat, publish: Publisher)
    requires PlanTick(lines, now, publish).Rewrite?
    ensures var after := TableLines(PlanTick(lines, now, publish).table);
      Chosen(after).Some? ==> Chosen(after).value.id != Chosen(lines).value.id
  {
    TickPublishesEarliestDue(lines, now, publish);
    var t1 := PlanTick(lines, now, publish).table;
    var id := Chosen(lines).value.id;
    ReadAfterRewrite(t1);
    var after := TableLines(t1);
    if Chosen(after).Some? {
      EarliestCorrect(t1);
      var k := Earliest(t1).value;
      assert IsPending(t1[k]);
    }
  }

  /** The end-to-end case: post 1 is an hour overdue, post 2 an hour ahead.
      The tick publishes post 1 only, and marks it published even when the
      publisher reports "Login failed". */
  lemma TickScenario()
    ensures
      var t := ScenarioRows();
      var login: Publisher := (c, i) => Returned("Login failed");
      PlanTick(TableLines(t), 7200, login)
        == Rewrite([t[0].(status := Published, postUrl := "Login failed", publishedAt := StampText(7200)), t[1]])
  {
    var t := ScenarioRows();
    ReadAfterRewrite(t);
    ScenarioPicksFirst();
    ScenarioMarksFirst();
  }

  /** Post 1 is due at 3600 and post 2 at 10800, both pending. */
  function ScenarioRows(): seq<PostRecord>
  {
    [PostRecord(1, "s", "a", "first", Pending, StampText(3600), "", "", "", ""),
     PostRecord(2, "s", "b", "second", Pending, StampText(10800), "", "", "", "")]
  }

  /** At 7200 the tick picks post 1, which is due, and every date parses. */
  lemma ScenarioPicksFirst()
    ensures var t := ScenarioRows();
      Earliest(t) == Some(0) && !AnyUnparsable(t) && Due(t[0], 7200)
  {
    var t := ScenarioRows();
    StampRoundTrip(3600);
    StampRoundTrip(10800);
    assert Before(t, 0, 1);
    EarliestCorrect(t);
    assert IsEarliest(t, 0);
    EarliestUnique(t, 0, Earliest(t).value);
    forall i | 0 <= i < |t|
      ensures ParseStamp(t[i].scheduledDate) != Unparsable
    {
    }
  }

  lemma ScenarioMarksFirst()
    ensures var t := ScenarioRows();
      MarkPublished(t, 1, "Login failed", StampText(7200))
        == [t[0].(status := Published, postUrl := "Login failed", publishedAt := StampText(7200)), t[1]]
  {
    var t := ScenarioRows();
    var m := MarkPublished(t, 1, "Login failed", StampText(7200));
    assert m[0] == t[0].(status := Published, postUrl := "Login failed", publishedAt := StampText(7200));
    assert m[1] == t[1];
  }

  /** The daily cron trigger of a job. */
  datatype Trigger = Trigger(hour: int, minute: int)

  /** `CronTrigger(hour=h, minute=m)` accepts an hour in 0..23 and a minute in 0..59. */
  predicate ValidTrigger(tr: Trigger)
  {
    0 <= tr.hour < 24 && 0 <= tr.minute < 60
  }

  const DailyPost: string := "daily_post"
  const DailyCuration: string := "daily_curation"

  /** The jobs `_setup_jobs` registers: posting at 09:00, curation at 08:00. */
  const DefaultJobs: map<string, Trigger> := map[DailyPost := Trigger(9, 0), DailyCuration := Trigger(8, 0)]

  const Day: nat := 86400

  function Offset(tr: Trigger): nat
    requires ValidTrigger(tr)
  {
    tr.hour * 3600 + tr.minute * 60
  }

  /** The next firing of a daily hh:mm trigger at or after `now` (seconds of
      local time; the scheduler's zone keeps no daylight saving). */
  function NextFire(tr: Trigger, now: nat): (r: nat)
    requires ValidTrigger(tr)
    ensures now <= r < now + Day
    ensures r % Day == Offset(tr)
  {
    var d := now / Day;
    DayFloor(now);
    DayParts(d, Offset(tr));
    DayParts(d + 1, Offset(tr));
    var base := d * Day + Offset(tr);
    assert base + Day == (d + 1) * Day + Offset(tr);
    if base >= now then base else base + Day
  }

  /** `k` whole days and `o` seconds split back into `k` and `o`. */
  lemma DayParts(k: nat, o: nat)
    requires o < Day
    ensures (k * Day + o) % Day == o && (k * Day + o) / Day == k
  {
  }

  lemma DayFloor(now: nat)
    ensures (now / Day) * Day <= now < (now / Day) * Day + Day
  {
  }

  /** No time at or after `now` with the trigger's hour and minute comes
      before the next firing. */
  lemma NextFireEarliest(tr: Trigger, now: nat, t: nat)
    requires ValidTrigger(tr)
    requires now <= t && t % Day == Offset(tr)
    ensures NextFire(tr, now) <= t
  {
    var d, q := now / Day, t / Day;
    assert t == q * Day + Offset(tr);
    if d * Day + Offset(tr) < now {
      assert q > d;
    } else {
      assert q >= d;
    }
  }

  /** Why `update_schedule` raises: the trigger is invalid (`ValueError` from
      `CronTrigger`) or there is no job with that id (`JobLookupError`). */
  datatype ScheduleError = InvalidTrigger | UnknownJob

  /** The methods `CurationService` defines. */
  const CuratorMethods: set<string> := {"search_google_pdfs_method1", "search_google_pdfs_method2",
    "search_github_pdfs", "get_curated_pdfs", "curate_resources_from_topics", "_download_pdf",
    "_create_simple_draft", "_save_to_sheets"}

  /** The method the curation job calls. */
  const CurateResources: string := "curate_resources"

  function CuratedMessage(count: nat): string
  {
    "\U{1F4DA} Curated " + NatToString(count) + " new resources"
  }

  /** The notification of the curation job on a curator with `methods`: sent
      only when the lookup of `curate_resources` succeeds; a raise is caught
      and sends nothing. */
  function CurationNotice(methods: set<string>, count: nat): Option<string>
  {
    if CurateResources in methods then Some(CuratedMessage(count)) else None
  }

  /** A curator that has `curate_resources` gets a notification naming the
      number of resources; one that lacks it gets none. */
  lemma CurationNoticeCounts(methods: set<string>, count: nat)
    ensures CurationNotice(methods, count).Some? <==> CurateResources in methods
    ensures CurationNotice(methods, count).Some? ==>
      Contains(CurationNotice(methods, count).value, NatToString(count))
  {
    ContainsMiddle("\U{1F4DA} Curated ", NatToString(count), " new resources");
  }

  /** The curation service lacks the method the job calls, so the job never
      notifies, whatever the count. */
  lemma CurationJobNeverNotifies(count: nat)
    ensures CurationNotice(CuratorMethods, count).None?
  {
  }

  class SchedulerService {
    var running: bool
    var jobs: map<string, Trigger>
    /** The posts worksheet the tick reads and rewrites. */
    const posts: Worksheet

    /** The two jobs stay registered, each with a valid trigger. */
    ghost predicate Valid()
      reads this
    {
      jobs.Keys == DefaultJobs.Keys && forall id :: id in jobs ==> ValidTrigger(jobs[id])
    }

    /** `__init__` and `_setup_jobs`: stopped, with the two default jobs. */
    constructor (posts: Worksheet)
      ensures Valid() && !running && jobs == DefaultJobs && this.posts == posts
    {
      running := false;
      jobs := DefaultJobs;
      this.posts := posts;
    }

    /** `start`: stopped becomes running; starting a running scheduler does nothing. */
    method Start()
      modifies this
      ensures running && jobs == old(jobs)
    {
      if !running {
        running := true;
      }
    }

    /** `stop`: running becomes stopped; stopping a stopped scheduler does nothing. */
    method Stop()
      modifies this
      ensures !running && jobs == old(jobs)
    {
      if running {
        running := false;
      }
    }

    function IsRunning(): bool
      reads this
    {
      running
    }

    /** `get_next_run_time`: the next firing of a known job, None otherwise. */
    function NextRunTime(jobId: string, now: nat): (r: Option<nat>)
      reads this
      requires Valid()
      ensures r.None? <==> jobId !in jobs
      ensures r.Some? ==> now <= r.value < now + Day && r.value % Day == Offset(jobs[jobId])
    {
      if jobId in jobs then Some(NextFire(jobs[jobId], now)) else None
    }

    /** `update_schedule`: the trigger is built first, so an invalid hour or
        minute fails before the job is looked up; on success only the named
        job's trigger changes. */
    method UpdateSchedule(jobId: string, hour: int, minute: int) returns (error: Option<ScheduleError>)
      requires Valid()
      modifies this
      ensures Valid() && running == old(running)
      ensures !ValidTrigger(Trigger(hour, minute)) ==> error == Some(InvalidTrigger) && jobs == old(jobs)
      ensures ValidTrigger(Trigger(hour, minute)) && jobId !in old(jobs) ==>
        error == Some(UnknownJob) && jobs == old(jobs)
      ensures ValidTrigger(Trigger(hour, minute)) && jobId in old(jobs) ==>
        error == None && jobs == old(jobs)[jobId := Trigger(hour, minute)]
    {
      var tr := Trigger(hour, minute);
      if !ValidTrigger(tr) {
        error := Some(InvalidTrigger);
      } else if jobId !in jobs {
        error := Some(UnknownJob);
      } else {
        jobs := jobs[jobId := tr];
        error := None;
      }
    }

    /** `_publish_scheduled_post`: read the sheet, pick the first pending post
        in date order, and if it is due publish it, mark its id published and
        rewrite the sheet. The notification is fire-and-forget and changes
        nothing here. */
    method PublishScheduledPost(now: nat, publish: Publisher)
      modifies posts
      ensures posts.lines == SheetAfter(PlanTick(old(posts.lines), now, publish), old(posts.lines))
    {
      var read := ReadTable(posts.lines);
      if read.None? {
        return;
      }
      var t := read.value;
      var k := SelectNext(t);
      EarliestCorrect(t);
      if k.None? {
        return;
      }
      if exists i :: 0 <= i < |t| && IsPending(t[i]) && ParseStamp(t[i].scheduledDate) == Unparsable {
        return;
      }
      var next := k.value;
      EarliestUnique(t, next, Earliest(t).value);
      if !Due(t[next], now) {
        return;
      }
      var reply := publish(t[next].content, ImageArg(t[next].imageUrl));
      if reply.Raised? {
        return;
      }
      var updated := SetPublished(t, t[next].id, reply.text, StampText(now));
      UpdateSheet(posts, updated);
    }

    /** `_run_curation`, given the number of resources `curate_resources`
        would return. The method is looked up on `CurationService`, which
        does not define it, so the job always ends in the caught
        `AttributeError` and sends nothing. With no frame, it changes neither
        worksheet. */
    method RunCuration(count: nat) returns (notice: Option<string>)
      ensures notice == CurationNotice(CuratorMethods, count)
      ensures notice.None?
    {
      if CurateResources in CuratorMethods {
        notice := Some(CuratedMessage(count));
      } else {
        notice := None;
      }
    }
  }
}
