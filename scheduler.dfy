/**
 * The content scheduler: the random time inside the publication window,
 * its list of tasks and their `last_run` stamps, the job registry of the
 * `schedule` library, and the publishing callback with its lock file and
 * its selection of the publications to send out.  Clock readings are
 * parameters; random draws are choices (`:|`); callbacks, uploads and
 * Graph API results are oracles.
 */
module Scheduler {
  import opened Builtins
  import ContentHistory
  import Publisher

  datatype TaskType = Generate | Publish | AutoApprove

  /** A `datetime.time` with hour and minute (seconds are always zero here). */
  datatype Time = Time(hour: int, minute: int)

  datatype ScheduledTask = ScheduledTask(taskType: TaskType, scheduledTime: Time, lastRun: Option<int>, enabled: bool)

  /** A job registered with the `schedule` library: daily at a "HH:MM" time, or every few hours. */
  datatype Job = Daily(taskType: TaskType, at: string) | EveryHours(interval: int)

  /** How an awaited callback ended. */
  datatype CallbackOutcome = Returned(success: bool) | Raised

  // ---------------------------------------------------------------------
  // Times
  // ---------------------------------------------------------------------

  /** What `time(hour, minute)` accepts without raising ValueError. */
  predicate ValidTime(t: Time) {
    0 <= t.hour <= 23 && 0 <= t.minute <= 59
  }

  /** The window of `_get_random_time`: an hour in [start, end - 1] when end > start, otherwise the start hour. */
  predicate InWindow(hourStart: int, hourEnd: int, t: Time) {
    0 <= t.minute <= 59
    && if hourEnd > hourStart then hourStart <= t.hour < hourEnd else t.hour == hourStart
  }

  /**
   * `_get_random_time`: a minute drawn from 0..59 and, when the window is
   * wider than its start hour, an hour drawn from it.  An hour outside
   * 0..23 makes `time(...)` raise ValueError.
   */
  method GetRandomTime(hourStart: int, hourEnd: int) returns (r: Result<Time, string>)
    ensures r.Ok? ==> InWindow(hourStart, hourEnd, r.value) && ValidTime(r.value)
    ensures r.Err? ==> r.error == "hour must be in 0..23"
    ensures hourStart > 23 ==> r.Err?
    ensures 0 <= hourStart && hourEnd <= 24 && (hourEnd > hourStart || hourStart <= 23) ==> r.Ok?
  {
    var hour := hourStart;
    var minute :| 0 <= minute <= 59;
    if hourEnd > hourStart {
      hour :| hourStart <= hour <= hourEnd - 1;
    }
    if 0 <= hour <= 23 {
      r := Ok(Time(hour, minute));
    } else {
      r := Err("hour must be in 0..23");
    }
  }

  /** Two decimal digits, zero-padded, as `%H` and `%M` print them. */
  function Pad2(n: nat): string
    requires n < 100
  {
    if n < 10 then "0" + NatToString(n) else NatToString(n)
  }

  /** `strftime("%H:%M")` */
  function FormatTime(t: Time): string
    requires ValidTime(t)
  {
    Pad2(t.hour) + ":" + Pad2(t.minute)
  }

  lemma Pad2Reads(n: nat)
    requires n < 100
    ensures |Pad2(n)| == 2 && IsDigit(Pad2(n)[0]) && IsDigit(Pad2(n)[1])
    ensures DigitsValue(Pad2(n)) == n
  {
    NatToStringRoundTrip(n);
    if n < 10 {
      var s := Pad2(n);
      assert s[..1] == "0";
      assert DigitsValue(s[..1]) == 0 by {
        assert s[..1][..0] == [];
      }
    } else {
      assert NatToString(n) == NatToString(n / 10) + [DigitChar(n % 10)];
    }
  }

  /** "%H:%M" is five characters and reads back as the same hour and minute. */
  lemma FormatTimeRoundTrip(t: Time)
    requires ValidTime(t)
    ensures var s := FormatTime(t);
      |s| == 5 && s[2] == ':'
      && IsDigit(s[0]) && IsDigit(s[1]) && IsDigit(s[3]) && IsDigit(s[4])
      && DigitsValue(s[..2]) == t.hour && DigitsValue(s[3..]) == t.minute
  {
    Pad2Reads(t.hour);
    Pad2Reads(t.minute);
    var s := FormatTime(t);
    assert s[..2] == Pad2(t.hour);
    assert s[3..] == Pad2(t.minute);
  }

  // ---------------------------------------------------------------------
  // Task bookkeeping
  // ---------------------------------------------------------------------

  /** Task `i` is the first one of its type. */
  predicate FirstOfType(tasks: seq<ScheduledTask>, kind: TaskType, i: int) {
    0 <= i < |tasks| && tasks[i].taskType == kind && forall k :: 0 <= k < i ==> tasks[k].taskType != kind
  }

  /** The list of tasks after a run of `kind` that did not raise: only the first task of that type is stamped. */
  function Stamped(tasks: seq<ScheduledTask>, kind: TaskType, now: int): (r: seq<ScheduledTask>)
    ensures |r| == |tasks|
  {
    seq(|tasks|, i requires 0 <= i < |tasks| =>
      if FirstOfType(tasks, kind, i) then tasks[i].(lastRun := Some(now)) else tasks[i])
  }

  /** At most one task changes, it is of the run's type, and it is the first such task. */
  lemma StampedChangesFirstOnly(tasks: seq<ScheduledTask>, kind: TaskType, now: int, i: nat)
    requires i < |tasks| && Stamped(tasks, kind, now)[i] != tasks[i]
    ensures tasks[i].taskType == kind && Stamped(tasks, kind, now)[i].lastRun == Some(now)
    ensures forall j :: 0 <= j < |tasks| && j != i ==> Stamped(tasks, kind, now)[j] == tasks[j]
  {
    assert FirstOfType(tasks, kind, i);
  }

  /** When a task of the type exists, the first one carries the run's time afterwards. */
  lemma StampedMarksFirst(tasks: seq<ScheduledTask>, kind: TaskType, now: int, i: nat)
    requires i < |tasks| && tasks[i].taskType == kind
    ensures exists j :: 0 <= j <= i && FirstOfType(tasks, kind, j) && Stamped(tasks, kind, now)[j].lastRun == Some(now)
    decreases i
  {
    if FirstOfType(tasks, kind, i) {
      assert Stamped(tasks, kind, now)[i].lastRun == Some(now);
    } else {
      var k :| 0 <= k < i && tasks[k].taskType == kind;
      StampedMarksFirst(tasks, kind, now, k);
    }
  }

  /** A second run stamps the same task again, with the later time. */
  lemma StampedTwice(tasks: seq<ScheduledTask>, kind: TaskType, first: int, second: int)
    ensures Stamped(Stamped(tasks, kind, first), kind, second) == Stamped(tasks, kind, second)
  {
    var once := Stamped(tasks, kind, first);
    forall i | 0 <= i < |tasks|
      ensures FirstOfType(once, kind, i) == FirstOfType(tasks, kind, i)
    {
      assert forall k :: 0 <= k < |tasks| ==> once[k].taskType == tasks[k].taskType;
    }
  }

  class ContentScheduler {
    const hourStart: int
    const hourEnd: int
    /** Whether an auto-approve callback was given. */
    const hasAutoApprove: bool
    var tasks: seq<ScheduledTask>
    /** The jobs registered with the `schedule` library. */
    var jobs: seq<Job>
    var running: bool

    constructor(hourStart: int, hourEnd: int, hasAutoApprove: bool)
      ensures this.hourStart == hourStart && this.hourEnd == hourEnd && this.hasAutoApprove == hasAutoApprove
      ensures tasks == [] && jobs == [] && !running
    {
      this.hourStart := hourStart;
      this.hourEnd := hourEnd;
      this.hasAutoApprove := hasAutoApprove;
      tasks := [];
      jobs := [];
      running := false;
    }

    /**
     * `schedule_daily_generation` (kind Generate) and
     * `schedule_daily_publishing` (kind Publish): one daily job and one
     * task at a random time of the window, whose "HH:MM" is returned.
     */
    method ScheduleDaily(kind: TaskType) returns (r: Result<string, string>)
      requires kind != AutoApprove
      modifies this
      ensures r.Err? ==> tasks == old(tasks) && jobs == old(jobs)
      ensures r.Ok? ==>
        |tasks| == |old(tasks)| + 1 && tasks[..|old(tasks)|] == old(tasks)
        && var t := tasks[|old(tasks)|];
        t.taskType == kind && t.lastRun == None && t.enabled
        && InWindow(hourStart, hourEnd, t.scheduledTime) && ValidTime(t.scheduledTime)
        && r.value == FormatTime(t.scheduledTime)
        && jobs == old(jobs) + [Daily(kind, r.value)]
      ensures running == old(running)
    {
      var time := GetRandomTime(hourStart, hourEnd);
      if time.Err? {
        return Err(time.error);
      }
      var text := FormatTime(time.value);
      jobs := jobs + [Daily(kind, text)];
      tasks := tasks + [ScheduledTask(kind, time.value, None, true)];
      r := Ok(text);
    }

    /** `schedule_auto_approval`: without a callback nothing is registered. */
    method ScheduleAutoApproval(checkIntervalHours: int)
      modifies this
      ensures jobs == if hasAutoApprove then old(jobs) + [EveryHours(checkIntervalHours)] else old(jobs)
      ensures tasks == old(tasks) && running == old(running)
    {
      if !hasAutoApprove {
        return;
      }
      jobs := jobs + [EveryHours(checkIntervalHours)];
    }

    /**
     * `_run_generation` (kind Generate) and `_run_publishing` (kind
     * Publish): whatever the callback returns, the first task of the
     * kind is stamped with `now`; nothing is stamped when it raises.
     */
    method RunTask(kind: TaskType, outcome: CallbackOutcome, now: int)
      requires kind != AutoApprove
      modifies this
      ensures tasks == if outcome.Raised? then old(tasks) else Stamped(old(tasks), kind, now)
      ensures jobs == old(jobs) && running == old(running)
    {
      if outcome.Raised? {
        return;
      }
      var i := 0;
      while i < |tasks|
        invariant 0 <= i <= |tasks|
        invariant tasks == old(tasks)
        invariant forall k :: 0 <= k < i ==> tasks[k].taskType != kind
      {
        if tasks[i].taskType == kind {
          tasks := tasks[i := tasks[i].(lastRun := Some(now))];
          assert FirstOfType(old(tasks), kind, i);
          return;
        }
        i := i + 1;
      }
    }

    method Stop()
      modifies this
      ensures !running && tasks == old(tasks) && jobs == old(jobs)
    {
      running := false;
    }

    /** `clear_all`: both the library's jobs and the list of tasks are emptied. */
    method ClearAll()
      modifies this
      ensures tasks == [] && jobs == [] && running == old(running)
    {
      jobs := [];
      tasks := [];
    }
  }

  // ---------------------------------------------------------------------
  // Choosing what to publish
  // ---------------------------------------------------------------------

  /** A day, in microseconds; `now` is read in microseconds from midnight of day 0. */
  const DayMicros: int := 86_400_000_000

  /** `now - datetime.fromisoformat(date) > timedelta(hours=24)`, the date read as its midnight. */
  predicate Stale(p: ContentHistory.Publication, now: int) {
    now - p.date * DayMicros > DayMicros
  }

  /** Ready to publish: approved by the moderator, or pending for more than a day. */
  predicate Ready(p: ContentHistory.Publication, now: int) {
    p.status == "approved" || (p.status == "pending" && Stale(p, now))
  }

  /** The positions below `n` of the publications ready to publish, in order. */
  function ReadyBelow(pubs: seq<ContentHistory.Publication>, now: int, n: nat): seq<nat>
    requires n <= |pubs|
  {
    if n == 0 then []
    else ReadyBelow(pubs, now, n - 1) + (if Ready(pubs[n - 1], now) then [n - 1] else [])
  }

  lemma {:induction false} ReadyBelowMeaning(pubs: seq<ContentHistory.Publication>, now: int, n: nat)
    requires n <= |pubs|
    ensures forall k :: 0 <= k < |ReadyBelow(pubs, now, n)| ==>
      ReadyBelow(pubs, now, n)[k] < n && Ready(pubs[ReadyBelow(pubs, now, n)[k]], now)
    ensures forall i :: 0 <= i < n && Ready(pubs[i], now) ==> i in ReadyBelow(pubs, now, n)
    ensures forall a, b :: 0 <= a < b < |ReadyBelow(pubs, now, n)| ==> ReadyBelow(pubs, now, n)[a] < ReadyBelow(pubs, now, n)[b]
  {
    if n > 0 {
      ReadyBelowMeaning(pubs, now, n - 1);
    }
  }

  /** The selection of `_do_publish` over the whole history. */
  function Selection(pubs: seq<ContentHistory.Publication>, now: int): seq<nat> {
    ReadyBelow(pubs, now, |pubs|)
  }

  /** The selection holds exactly the ready publications, each once, in history order. */
  lemma SelectionExact(pubs: seq<ContentHistory.Publication>, now: int)
    ensures forall k :: 0 <= k < |Selection(pubs, now)| ==>
      Selection(pubs, now)[k] < |pubs| && Ready(pubs[Selection(pubs, now)[k]], now)
    ensures forall i :: 0 <= i < |pubs| && Ready(pubs[i], now) ==> i in Selection(pubs, now)
    ensures forall a, b :: 0 <= a < b < |Selection(pubs, now)| ==> Selection(pubs, now)[a] < Selection(pubs, now)[b]
  {
    ReadyBelowMeaning(pubs, now, |pubs|);
  }

  /**
   * The selection as the code is written: it runs over
   * `get_pending_content()`, which holds only "pending" publications, so
   * the "approved" branch can never fire.
   */
  function SelectionAsWritten(pubs: seq<ContentHistory.Publication>, now: int): (r: seq<nat>)
    ensures forall k :: 0 <= k < |r| ==> r[k] < |pubs| && pubs[r[k]].status == "pending"
  {
    var pending := ContentHistory.IndicesWithStatus(pubs, "pending", 0);
    var r := Filter((i: nat) => i < |pubs| && Ready(pubs[i], now), pending);
    assert forall k :: 0 <= k < |r| ==> r[k] in pending;
    r
  }

  /** A history holding one publication the moderator approved: the code as written publishes nothing. */
  lemma ApprovedContentNeverPublished(p: ContentHistory.Publication, now: int)
    requires p.status == "approved"
    ensures SelectionAsWritten([p], now) == []
    ensures Selection([p], now) == [0]
  {
    assert ReadyBelow([p], now, 0) == [];
  }

  /** Every publication the moderator approved is selected. */
  lemma ApprovedIsSelected(pubs: seq<ContentHistory.Publication>, now: int, i: nat)
    requires i < |pubs| && pubs[i].status == "approved"
    ensures i in Selection(pubs, now)
  {
    SelectionExact(pubs, now);
  }

  // ---------------------------------------------------------------------
  // Publishing the selection
  // ---------------------------------------------------------------------

  /**
   * What the `try` block for one selected publication met: no video
   * files, no successful upload, a series result, or an exception before
   * any status change.
   */
  datatype Delivery = NoVideos | NoUploads | Posted(result: Publisher.SeriesPublishResult) | Crashed

  /** `mark_published(publication, id)`: status "published", the id kept only when non-empty. */
  function Marked(p: ContentHistory.Publication, id: string): ContentHistory.Publication {
    p.(status := "published", instagramId := if id != "" then Some(id) else p.instagramId)
  }

  /** A ready publication after the selection loop: approved. */
  function Selected(p: ContentHistory.Publication, now: int): ContentHistory.Publication {
    if Ready(p, now) then p.(status := "approved") else p
  }

  /** The id recorded for a series result: the first three media ids joined by ','. */
  function SeriesId(r: Publisher.SeriesPublishResult): string {
    Join(",", PrefixSlice(r.mediaIds, 3))
  }

  /** Publishing one approved publication: the publication afterwards and whether it counts. */
  function Delivered(p: ContentHistory.Publication, configured: bool, d: Delivery): (ContentHistory.Publication, bool) {
    if !configured then (Marked(p, "no_publisher"), true)
    else
      match d
      case NoVideos => (Marked(p, "no_videos"), false)
      case NoUploads => (p, false)
      case Crashed => (p, false)
      case Posted(r) =>
        if r.success || Publisher.PartialSuccess(r) then (Marked(p, SeriesId(r)), true) else (p, false)
  }

  /** A publication after `_do_publish`. */
  function Settled(p: ContentHistory.Publication, now: int, configured: bool, d: Delivery): ContentHistory.Publication {
    if Ready(p, now) then Delivered(Selected(p, now), configured, d).0 else p
  }

  /** Whether a publication adds to `published_count`. */
  predicate Counted(p: ContentHistory.Publication, now: int, configured: bool, d: Delivery) {
    Ready(p, now) && Delivered(Selected(p, now), configured, d).1
  }

  /** Whether some position in `done` counted, scanning from the front. */
  predicate AnyCounted(pubs: seq<ContentHistory.Publication>, now: int, configured: bool,
                       deliver: nat -> Delivery, done: seq<nat>)
    decreases |done|
  {
    if done == [] then false
    else
      var last := done[|done| - 1];
      AnyCounted(pubs, now, configured, deliver, done[..|done| - 1])
      || (last < |pubs| && Counted(pubs[last], now, configured, deliver(last)))
  }

  /** `AnyCounted` holds exactly when one of the positions counted. */
  lemma {:induction false} AnyCountedMeaning(pubs: seq<ContentHistory.Publication>, now: int, configured: bool,
                                             deliver: nat -> Delivery, done: seq<nat>)
    requires forall k :: 0 <= k < |done| ==> done[k] < |pubs|
    ensures AnyCounted(pubs, now, configured, deliver, done) <==>
      exists m :: 0 <= m < |done| && Counted(pubs[done[m]], now, configured, deliver(done[m]))
    decreases |done|
  {
    if done != [] {
      var init := done[..|done| - 1];
      AnyCountedMeaning(pubs, now, configured, deliver, init);
      if AnyCounted(pubs, now, configured, deliver, done) {
        if AnyCounted(pubs, now, configured, deliver, init) {
          var m :| 0 <= m < |init| && Counted(pubs[init[m]], now, configured, deliver(init[m]));
          assert done[m] == init[m];
        } else {
          assert Counted(pubs[done[|done| - 1]], now, configured, deliver(done[|done| - 1]));
        }
      } else {
        forall m | 0 <= m < |done|
          ensures !Counted(pubs[done[m]], now, configured, deliver(done[m]))
        {
          if m < |init| {
            assert done[m] == init[m];
          }
        }
      }
    }
  }

  /** Without publisher and uploader, every ready publication is marked "no_publisher" and counts. */
  lemma NoPublisherPublishesAll(p: ContentHistory.Publication, now: int, d: Delivery)
    requires Ready(p, now)
    ensures Counted(p, now, false, d)
    ensures Settled(p, now, false, d).status == "published"
    ensures Settled(p, now, false, d).instagramId == Some("no_publisher")
  {
  }

  /** A failed series, a missing upload or an exception leaves the publication approved and uncounted. */
  lemma FailedDeliveryStaysApproved(p: ContentHistory.Publication, now: int, d: Delivery)
    requires Ready(p, now)
    requires d.NoUploads? || d.Crashed? || (d.Posted? && !d.result.success && !Publisher.PartialSuccess(d.result))
    ensures !Counted(p, now, true, d)
    ensures Settled(p, now, true, d) == p.(status := "approved")
  {
  }

  /** A publication that counts ends up "published". */
  lemma CountedIsPublished(p: ContentHistory.Publication, now: int, configured: bool, d: Delivery)
    requires Counted(p, now, configured, d)
    ensures Settled(p, now, configured, d).status == "published"
  {
  }

  /** The selection loop of `_do_publish`: ready publications are collected, the stale pending ones approved. */
  method ApproveReady(history: ContentHistory.History, now: int) returns (toPublish: seq<nat>)
    modifies history
    ensures toPublish == Selection(old(history.publications), now)
    ensures |history.publications| == |old(history.publications)|
    ensures forall k :: 0 <= k < |history.publications| ==>
      history.publications[k] == Selected(old(history.publications)[k], now)
    ensures history.lastUsedSubtopics == old(history.lastUsedSubtopics)
    ensures history.lastUsedPhotos == old(history.lastUsedPhotos)
    ensures history.lastUsedMusic == old(history.lastUsedMusic)
  {
    var pubs := history.publications;
    toPublish := [];
    var i := 0;
    while i < |pubs|
      invariant 0 <= i <= |pubs|
      invariant |history.publications| == |pubs|
      invariant toPublish == ReadyBelow(pubs, now, i)
      invariant forall k :: 0 <= k < |pubs| ==> history.publications[k] == if k < i then Selected(pubs[k], now) else pubs[k]
      invariant history.lastUsedSubtopics == old(history.lastUsedSubtopics)
      invariant history.lastUsedPhotos == old(history.lastUsedPhotos)
      invariant history.lastUsedMusic == old(history.lastUsedMusic)
    {
      var p := pubs[i];
      if p.status == "approved" {
        toPublish := toPublish + [i];
      } else if p.status == "pending" && Stale(p, now) {
        history.UpdatePublicationStatus(i, "approved", None);
        toPublish := toPublish + [i];
      }
      i := i + 1;
    }
  }

  /** Publishing one approved publication at `index`; `counted` says whether it adds to `published_count`. */
  method PublishOne(history: ContentHistory.History, index: nat, configured: bool, d: Delivery) returns (counted: bool)
    requires index < |history.publications|
    modifies history
    ensures history.publications == old(history.publications)[index := Delivered(old(history.publications)[index], configured, d).0]
    ensures counted == Delivered(old(history.publications)[index], configured, d).1
    ensures history.lastUsedSubtopics == old(history.lastUsedSubtopics)
    ensures history.lastUsedPhotos == old(history.lastUsedPhotos)
    ensures history.lastUsedMusic == old(history.lastUsedMusic)
  {
    counted := false;
    if configured {
      match d
      case NoVideos =>
        history.UpdatePublicationStatus(index, "published", Some("no_videos"));
      case NoUploads =>
      case Crashed =>
      case Posted(r) =>
        if r.success || Publisher.PartialSuccess(r) {
          history.UpdatePublicationStatus(index, "published", Some(SeriesId(r)));
          counted := true;
        }
    } else {
      history.UpdatePublicationStatus(index, "published", Some("no_publisher"));
      counted := true;
    }
    assert history.publications == old(history.publications)[index := Delivered(old(history.publications)[index], configured, d).0];
  }

  /** The history while publishing: the positions in `done` are settled, the others only approved. */
  ghost predicate PublishedSoFar(cur: seq<ContentHistory.Publication>, pubs: seq<ContentHistory.Publication>,
                                 done: seq<nat>, now: int, configured: bool, deliver: nat -> Delivery)
  {
    |cur| == |pubs|
    && forall k :: 0 <= k < |pubs| ==>
      cur[k] == if k in done then Settled(pubs[k], now, configured, deliver(k)) else Selected(pubs[k], now)
  }

  /** Publishing the j-th selected position settles it and leaves every other position as it was. */
  lemma PublishedStep(cur: seq<ContentHistory.Publication>, pubs: seq<ContentHistory.Publication>, toPublish: seq<nat>,
                      j: nat, now: int, configured: bool, deliver: nat -> Delivery)
    requires j < |toPublish| && toPublish[j] < |pubs| && Ready(pubs[toPublish[j]], now)
    requires forall a, b :: 0 <= a < b < |toPublish| ==> toPublish[a] < toPublish[b]
    requires PublishedSoFar(cur, pubs, toPublish[..j], now, configured, deliver)
    ensures toPublish[j] < |cur| && cur[toPublish[j]] == Selected(pubs[toPublish[j]], now)
    ensures PublishedSoFar(cur[toPublish[j] := Delivered(cur[toPublish[j]], configured, deliver(toPublish[j])).0],
                           pubs, toPublish[..j + 1], now, configured, deliver)
  {
    var idx := toPublish[j];
    assert toPublish[..j + 1] == toPublish[..j] + [idx];
    assert idx !in toPublish[..j];
  }

  /** One turn of the publishing loop: the j-th selected position is published and settled. */
  method PublishAt(history: ContentHistory.History, pubs: seq<ContentHistory.Publication>, now: int,
                   configured: bool, deliver: nat -> Delivery, toPublish: seq<nat>, j: nat)
    returns (counted: bool)
    requires j < |toPublish| && toPublish[j] < |pubs| && Ready(pubs[toPublish[j]], now)
    requires forall a, b :: 0 <= a < b < |toPublish| ==> toPublish[a] < toPublish[b]
    requires PublishedSoFar(history.publications, pubs, toPublish[..j], now, configured, deliver)
    modifies history
    ensures PublishedSoFar(history.publications, pubs, toPublish[..j + 1], now, configured, deliver)
    ensures counted == Counted(pubs[toPublish[j]], now, configured, deliver(toPublish[j]))
    ensures AnyCounted(pubs, now, configured, deliver, toPublish[..j + 1])
      == (AnyCounted(pubs, now, configured, deliver, toPublish[..j]) || counted)
    ensures history.lastUsedSubtopics == old(history.lastUsedSubtopics)
    ensures history.lastUsedPhotos == old(history.lastUsedPhotos)
    ensures history.lastUsedMusic == old(history.lastUsedMusic)
  {
    var idx := toPublish[j];
    PublishedStep(history.publications, pubs, toPublish, j, now, configured, deliver);
    counted := PublishOne(history, idx, configured, deliver(idx));
    assert toPublish[..j + 1][..j] == toPublish[..j];
  }

  /** The publishing loop of `_do_publish` over the selected positions. */
  method PublishSelected(history: ContentHistory.History, pubs: seq<ContentHistory.Publication>, now: int,
                         configured: bool, deliver: nat -> Delivery, toPublish: seq<nat>)
    returns (count: nat)
    requires |history.publications| == |pubs|
    requires forall k :: 0 <= k < |pubs| ==> history.publications[k] == Selected(pubs[k], now)
    requires forall a, b :: 0 <= a < b < |toPublish| ==> toPublish[a] < toPublish[b]
    requires forall k :: 0 <= k < |toPublish| ==> toPublish[k] < |pubs| && Ready(pubs[toPublish[k]], now)
    modifies history
    ensures |history.publications| == |pubs|
    ensures forall k :: 0 <= k < |pubs| ==>
      history.publications[k] == if k in toPublish then Settled(pubs[k], now, configured, deliver(k)) else Selected(pubs[k], now)
    ensures count > 0 <==> exists m :: 0 <= m < |toPublish| && Counted(pubs[toPublish[m]], now, configured, deliver(toPublish[m]))
    ensures history.lastUsedSubtopics == old(history.lastUsedSubtopics)
    ensures history.lastUsedPhotos == old(history.lastUsedPhotos)
    ensures history.lastUsedMusic == old(history.lastUsedMusic)
  {
    count := 0;
    var j := 0;
    assert toPublish[..0] == [];
    while j < |toPublish|
      invariant 0 <= j <= |toPublish|
      invariant PublishedSoFar(history.publications, pubs, toPublish[..j], now, configured, deliver)
      invariant count > 0 <==> AnyCounted(pubs, now, configured, deliver, toPublish[..j])
      invariant history.lastUsedSubtopics == old(history.lastUsedSubtopics)
      invariant history.lastUsedPhotos == old(history.lastUsedPhotos)
      invariant history.lastUsedMusic == old(history.lastUsedMusic)
    {
      var counted := PublishAt(history, pubs, now, configured, deliver, toPublish, j);
      if counted {
        count := count + 1;
      }
      j := j + 1;
    }
    assert toPublish[..j] == toPublish;
    AnyCountedMeaning(pubs, now, configured, deliver, toPublish);
  }

  /**
   * `_do_publish`, with the selection run over the whole history.
   * `deliver(i)` is what the publishing attempt for publication `i` met.
   */
  method DoPublish(history: ContentHistory.History, now: int, configured: bool, deliver: nat -> Delivery)
    returns (ok: bool)
    modifies history
    ensures |history.publications| == |old(history.publications)|
    ensures forall i :: 0 <= i < |history.publications| ==>
      history.publications[i] == Settled(old(history.publications)[i], now, configured, deliver(i))
    ensures ok <==> exists i :: (0 <= i < |old(history.publications)|
      && Counted(old(history.publications)[i], now, configured, deliver(i)))
    ensures history.lastUsedSubtopics == old(history.lastUsedSubtopics)
    ensures history.lastUsedPhotos == old(history.lastUsedPhotos)
    ensures history.lastUsedMusic == old(history.lastUsedMusic)
  {
    var pubs := history.publications;
    var toPublish := ApproveReady(history, now);
    SelectionExact(pubs, now);
    if toPublish == [] {
      return false;
    }
    var count := PublishSelected(history, pubs, now, configured, deliver, toPublish);
    ok := count > 0;
  }

  // ---------------------------------------------------------------------
  // The lock file
  // ---------------------------------------------------------------------

  /** The lock file that keeps two publishing runs apart. */
  class PublishLock {
    var held: bool

    constructor()
      ensures !held
    {
      held := false;
    }
  }

  /**
   * `publish_callback`: skipped while the lock file exists; otherwise the
   * lock is taken (`touchOk` says whether creating it worked), publishing
   * runs, and the lock is removed afterwards whatever publishing returned
   * (`unlinkOk` says whether removing it worked).
   */
  method PublishCallback(lock: PublishLock, history: ContentHistory.History, now: int, configured: bool,
                         deliver: nat -> Delivery, touchOk: bool, unlinkOk: bool)
    returns (ok: bool)
    modifies lock, history
    ensures old(lock.held) || !touchOk ==> !ok && lock.held == old(lock.held) && history.publications == old(history.publications)
    ensures !old(lock.held) && touchOk ==>
      lock.held == !unlinkOk
      && |history.publications| == |old(history.publications)|
      && (forall i :: 0 <= i < |history.publications| ==>
            history.publications[i] == Settled(old(history.publications)[i], now, configured, deliver(i)))
      && (ok <==> exists i :: (0 <= i < |old(history.publications)|
            && Counted(old(history.publications)[i], now, configured, deliver(i))))
  {
    if lock.held {
      return false;
    }
    if !touchOk {
      return false;
    }
    lock.held := true;
    ok := DoPublish(history, now, configured, deliver);
    if unlinkOk {
      lock.held := false;
    }
  }
}
