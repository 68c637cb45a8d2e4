/** What the scheduler's operations accept, keep and remove, in the terms of their arguments. */
module SchedulerLaws {
  import opened Options
  import opened Calendar
  import opened Scheduler
  import opened SchedulerRuns

  const MINUTE: int := 60
  const HOUR: int := 60 * MINUTE
  const DAY: int := 24 * HOUR

  const INTERVALS: map<string, int> := map[
    "every_30min" := 30 * MINUTE, "hourly" := HOUR, "every_6h" := 6 * HOUR, "every_12h" := 12 * HOUR,
    "daily" := DAY, "weekly" := 7 * DAY]

  lemma IntervalsAre(name: string)
    ensures IntervalSeconds(Some(name)) == if name in INTERVALS then INTERVALS[name] else 0
    ensures IntervalSeconds(None) == 0
  {
  }

  /** A text that is neither missing nor empty. */
  predicate Present(s: Option<string>) {
    s != None && s != Some("")
  }

  /** A run time and an interval that can be scheduled: the time is one, the interval known, a single run not past. */
  predicate Schedulable(runAt: Option<string>, interval: Option<string>, now: int, z: TimeText) {
    && (Present(runAt) ==> z.parse(runAt.value) != 0)
    && (Present(interval) ==> interval.value in INTERVALS)
    && (Present(runAt) && z.parse(runAt.value) <= now ==> Present(interval))
  }

  /** `t` runs at the time given, or if that is past at the least later slot. */
  ghost predicate RunsFrom(t: Task, runAt: string, interval: Option<string>, now: int, z: TimeText) {
    var at := z.parse(runAt);
    if at > now then t.runAt == Some(runAt)
    else
      && Present(interval) && interval.value in INTERVALS
      && OnSlot(at, INTERVALS[interval.value], RunTime(t, z)) && RunTime(t, z) > now
      && forall u | OnSlot(at, INTERVALS[interval.value], u) && u > now :: RunTime(t, z) <= u
  }

  lemma NextRun(t: Task, runAt: string, interval: Option<string>, now: int, z: TimeText)
    requires Faithful(z) && 0 <= now <= HORIZON
    requires z.parse(runAt) <= now && Present(interval) && interval.value in INTERVALS
    requires t.runAt == Some(z.show(NextSlot(z.parse(runAt), now, INTERVALS[interval.value])))
    ensures RunsFrom(t, runAt, interval, now, z)
  {
    var at, secs := z.parse(runAt), INTERVALS[interval.value];
    IntervalsAre(interval.value);
    var next := NextSlot(at, now, secs);
    assert z.parse(z.show(next)) == next;
    assert at == Slot(at, secs, 0);
    NextSlotIsLeast(at, secs, at, now);
  }

  /** A task is added exactly if it can be scheduled, behind all others; it runs when it should, and after now. */
  lemma AddedTask(s: State, id: string, runAt: Option<string>, interval: Option<string>, z: TimeText)
    requires Faithful(z) && 0 <= s.clock <= HORIZON
    ensures var tasks, now, r := s.tasks, s.clock, Apply(s, AddTask(id, runAt, interval), z).tasks;
            if Present(runAt) && Schedulable(runAt, interval, now, z)
            then && |r| == |tasks| + 1 && r[..|tasks|] == tasks
                 && var t := r[|tasks|];
                    && t.id == id && t.recurring == (if Present(interval) then interval else None)
                    && RunsFrom(t, runAt.value, interval, now, z) && RunTime(t, z) > now
            else r == tasks
  {
    var tasks, now := s.tasks, s.clock;
    if interval.Some? {
      IntervalsAre(interval.value);
    }
    if Present(runAt) && Schedulable(runAt, interval, now, z) && z.parse(runAt.value) <= now {
      NextRun(Add(tasks, id, runAt, interval, now, z)[|tasks|], runAt.value, interval, now, z);
    }
  }

  function Every(t: Task, interval: Option<string>): Option<string> {
    if interval == None then t.recurring else interval
  }

  /** A given time and a given interval replace the old ones, and an empty interval makes it a single run. */
  ghost predicate UpdatedTo(
    t: Task, t': Task, runAt: Option<string>, interval: Option<string>, now: int, z: TimeText)
  {
    && t'.id == t.id && t'.recurring == (if interval == Some("") then None else Every(t, interval))
    && (!Present(runAt) ==> t'.runAt == t.runAt)
    && (Present(runAt) ==> RunsFrom(t', runAt.value, Every(t, interval), now, z))
  }

  lemma UpdatedRun(t: Task, t': Task, runAt: Option<string>, interval: Option<string>, now: int, z: TimeText)
    requires Faithful(z) && z.parse("") == 0 && 0 <= now <= HORIZON
    requires Schedulable(runAt, Every(t, interval), now, z) && t'.id == t.id
    requires t'.recurring == if interval == Some("") then None else Every(t, interval)
    requires var c := CheckTask(runAt, Every(t, interval), now, z);
             c.Accepted? && t'.runAt == if Given(c.runAt) then c.runAt else t.runAt
    ensures UpdatedTo(t, t', runAt, interval, now, z)
  {
    var every := Every(t, interval);
    if Present(runAt) && z.parse(runAt.value) <= now {
      IntervalsAre(every.value);
      ShownIsGiven(NextSlot(z.parse(runAt.value), now, INTERVALS[every.value]), z);
      NextRun(t', runAt.value, every, now, z);
    }
  }

  lemma CheckedIs(runAt: Option<string>, every: Option<string>, now: int, z: TimeText)
    requires now >= 0
    ensures CheckTask(runAt, every, now, z).Accepted? <==> Schedulable(runAt, every, now, z)
  {
    if every.Some? {
      IntervalsAre(every.value);
    }
  }

  /** An update changes a task exactly if the result can be scheduled, and no other task. */
  lemma UpdatedTask(s: State, i: nat, runAt: Option<string>, interval: Option<string>, z: TimeText)
    requires Faithful(z) && z.parse("") == 0 && 0 <= s.clock <= HORIZON && Distinct(s.tasks) && i < |s.tasks|
    ensures var tasks, r := s.tasks, Apply(s, UpdateTask(s.tasks[i].id, runAt, interval), z).tasks;
            if Schedulable(runAt, Every(tasks[i], interval), s.clock, z)
            then |r| == |tasks| && r == tasks[i := r[i]] && UpdatedTo(tasks[i], r[i], runAt, interval, s.clock, z)
            else r == tasks
  {
    var t, r := s.tasks[i], Update(s.tasks, s.tasks[i].id, runAt, interval, s.clock, z);
    FindUnique(s.tasks, i);
    CheckedIs(runAt, Every(t, interval), s.clock, z);
    if Schedulable(runAt, Every(t, interval), s.clock, z) {
      UpdatedRun(t, r[i], runAt, interval, s.clock, z);
    }
  }

  /** A run time that parses again was not printed as the empty text. */
  lemma ShownIsGiven(t: int, z: TimeText)
    requires Faithful(z) && z.parse("") == 0 && 0 < t <= MAX_TIME
    ensures Present(Some(z.show(t)))
  {
    assert z.parse(z.show(t)) == t;
  }

  /** The parser takes the empty text for no time. */
  lemma EmptyIsNoTime(local: Tm -> int)
    ensures Utc(local).parse("") == 0
  {
  }

  /** `x` comes before `y` in the list. */
  predicate Precedes(tasks: seq<Task>, x: Task, y: Task) {
    exists k, l :: 0 <= k < l < |tasks| && tasks[k] == x && tasks[l] == y
  }

  lemma PrecedesAt(tasks: seq<Task>, k: nat, l: nat)
    requires k < l < |tasks|
    ensures Precedes(tasks, tasks[k], tasks[l])
  {
  }

  lemma CancelRemoves(tasks: seq<Task>, id: string)
    requires Distinct(tasks)
    ensures forall t :: t in Cancel(tasks, id) <==> t in tasks && t.id != id
  {
    var r, f := Cancel(tasks, id), Find(tasks, id);
    forall t | t in tasks && t.id != id
      ensures t in r
    {
      var k :| 0 <= k < |tasks| && tasks[k] == t;
      assert r[if f >= 0 && k > f then k - 1 else k] == t;
    }
  }

  /** A cancelled task is gone, and all others are there. */
  lemma CancelledTask(s: State, id: string, z: TimeText)
    requires s.clock >= 0 && Distinct(s.tasks)
    ensures forall t :: t in Apply(s, CancelTask(id), z).tasks <==> t in s.tasks && t.id != id
  {
    CancelRemoves(s.tasks, id);
  }

  /** In their order. */
  lemma CancelKeepsOrder(s: State, id: string, z: TimeText)
    requires s.clock >= 0
    ensures var tasks, r := s.tasks, Apply(s, CancelTask(id), z).tasks;
            forall i, j | 0 <= i < j < |r| :: Precedes(tasks, r[i], r[j])
  {
    var tasks := s.tasks;
    var r, f := Cancel(tasks, id), Find(tasks, id);
    forall i, j | 0 <= i < j < |r|
      ensures Precedes(tasks, r[i], r[j])
    {
      PrecedesAt(tasks, if f >= 0 && i >= f then i + 1 else i, if f >= 0 && j >= f then j + 1 else j);
    }
  }

  /** A task is due exactly when its printed run time has come. */
  lemma DueTask(tasks: seq<Task>, t: Task, now: int, z: TimeText)
    requires Distinct(tasks)
    ensures t in Due(tasks, now, z) <==> t in tasks && t.runAt.Some? && 0 < z.parse(t.runAt.value) <= now
  {
    DueTasks(tasks, now, z);
  }

  /** Whatever is due fires: each such task is on record with its slot, the clock and its interval. */
  lemma DueTaskFires(s: State, z: TimeText, t: Task)
    requires s.clock >= 0 && Distinct(s.tasks) && s.firing == []
    requires t in s.tasks && t.runAt.Some? && 0 < z.parse(t.runAt.value) <= s.clock
    ensures var s' := Apply(s, GetDue, z);
            && t.id in s'.firing && s.log <= s'.log && s'.tasks == s.tasks
            && Firing(t.id, z.parse(t.runAt.value), s.clock, IntervalSeconds(t.recurring)) in s'.log[|s.log|..]
  {
    var s', due := Apply(s, GetDue, z), Due(s.tasks, s.clock, z);
    DueTask(s.tasks, t, s.clock, z);
    var k :| 0 <= k < |due| && due[k] == t;
    assert s'.firing[k] == t.id && s'.log[|s.log| + k] == Fired(due, s.clock, z)[k];
    assert s'.log[|s.log|..][k] == s'.log[|s.log| + k];
  }

  //
  // Runs.
  //

  /** No task has the id, which was drawn before. */
  predicate Gone(s: State, id: string) {
    id in s.drawn && forall k | 0 <= k < |s.tasks| :: s.tasks[k].id != id
  }

  lemma GoneStays(s: State, e: Event, z: TimeText, id: string)
    requires Faithful(z) && Inv(s, z) && Enabled(s, e) && Gone(s, id)
    ensures var s' := Apply(s, e, z);
            && Gone(s', id) && s.log <= s'.log
            && forall i | |s.log| <= i < |s'.log| :: s'.log[i].id != id
  {
    match e
    case GetDue =>
      DueTasks(s.tasks, s.clock, z);
      var due := Due(s.tasks, s.clock, z);
      assert forall k | 0 <= k < |due| :: due[k] in due;
    case MarkDone => MarkAllEffect(s.tasks, s.firing, s.clock, z);
    case UpdateTask(other, runAt, interval) =>
      if Find(s.tasks, other) >= 0 {
        UpdateEffect(s, other, runAt, interval, z);
      }
    case _ =>
  }

  /** In every run a cancelled task never comes back and never fires again. */
  lemma {:induction false} CancelledStaysGone(
    run: seq<State>, events: seq<Event>, local: Tm -> int, m: nat, n: nat, id: string)
    requires IsRun(run, events, Utc(local)) && m < n < |run|
    requires events[m] == CancelTask(id) && id in run[m].drawn
    ensures Gone(run[n], id) && run[m].log <= run[n].log
    ensures forall i | |run[m].log| <= i < |run[n].log| :: run[n].log[i].id != id
    decreases n
  {
    var z, k := Utc(local), n - 1;
    UtcIsFaithful(local);
    RunInv(run, events, z, k);
    if m == k {
      CancelledTask(run[m], id, z);
      assert forall i | 0 <= i < |run[n].tasks| :: run[n].tasks[i] in run[n].tasks;
    } else {
      CancelledStaysGone(run, events, local, m, k, id);
      GoneStays(run[k], events[k], z, id);
    }
  }

  /** A log entry from `from` on says that the task has fired at its run time. */
  predicate FiredSince(s: State, t: Task, z: TimeText, from: nat) {
    exists i :: from <= i < |s.log| && s.log[i].id == t.id && s.log[i].slot == RunTime(t, z)
  }

  /** The task waits, or it has fired. */
  predicate Waits(s: State, t: Task, z: TimeText, from: nat) {
    FiredSince(s, t, z, from) || (t in s.tasks && t.id !in s.firing)
  }

  lemma MarkedOthersWait(s: State, t: Task, z: TimeText)
    requires Faithful(z) && Inv(s, z) && t in s.tasks && t.id !in s.firing
    ensures t in Apply(s, MarkDone, z).tasks
  {
    MarkAllEffect(s.tasks, s.firing, s.clock, z);
    var k :| 0 <= k < |s.tasks| && s.tasks[k] == t;
    assert Survives(s.tasks[k], MarkAll(s.tasks, s.firing, s.clock, z), s.firing, s.clock, z);
  }

  lemma DueIsLogged(s: State, t: Task, z: TimeText, from: nat)
    requires Inv(s, z) && Enabled(s, GetDue) && t in s.tasks && from <= |s.log|
    ensures var s' := Apply(s, GetDue, z);
            if IsDue(t, s.clock, z) then FiredSince(s', t, z, from) else t.id !in s'.firing
  {
    var s', due := Apply(s, GetDue, z), Due(s.tasks, s.clock, z);
    DueTasks(s.tasks, s.clock, z);
    if IsDue(t, s.clock, z) {
      var k :| 0 <= k < |due| && due[k] == t;
      assert s'.log[|s.log| + k] == Fired(due, s.clock, z)[k];
    } else {
      forall k | 0 <= k < |due|
        ensures due[k].id != t.id
      {
        assert due[k] in due;
      }
    }
  }

  lemma OthersWait(s: State, e: Event, z: TimeText, t: Task)
    requires Faithful(z) && Inv(s, z) && Enabled(s, e) && Spares(e, t.id) && t in s.tasks
    requires !e.MarkDone?
    ensures t in Apply(s, e, z).tasks
  {
    var k :| 0 <= k < |s.tasks| && s.tasks[k] == t;
    match e
    case AddTask(id, runAt, interval) => assert Apply(s, e, z).tasks[k] == t;
    case CancelTask(id) => CancelledTask(s, id, z);
    case UpdateTask(id, runAt, interval) => assert Apply(s, e, z).tasks[k] == t;
    case _ =>
  }

  lemma StepWaits(s: State, e: Event, z: TimeText, t: Task, from: nat)
    requires Faithful(z) && Inv(s, z) && Enabled(s, e) && Spares(e, t.id)
    requires Waits(s, t, z, from) && from <= |s.log|
    ensures var s' := Apply(s, e, z);
            && Waits(s', t, z, from) && from <= |s'.log|
            && (e.GetDue? && IsDue(t, s.clock, z) ==> FiredSince(s', t, z, from))
  {
    var s' := Apply(s, e, z);
    if FiredSince(s, t, z, from) {
      var i :| from <= i < |s.log| && s.log[i].id == t.id && s.log[i].slot == RunTime(t, z);
      assert s'.log[i] == s.log[i];
    } else if e.MarkDone? {
      MarkedOthersWait(s, t, z);
    } else {
      OthersWait(s, e, z, t);
      if e.GetDue? {
        DueIsLogged(s, t, z, from);
      }
    }
  }

  lemma {:induction false} WaitsOn(
    run: seq<State>, events: seq<Event>, local: Tm -> int, m: nat, n: nat, t: Task)
    requires IsRun(run, events, Utc(local)) && m <= n < |run|
    requires t in run[m].tasks && t.id !in run[m].firing
    requires forall i | m <= i < n :: Spares(events[i], t.id)
    ensures Waits(run[n], t, Utc(local), |run[m].log|) && |run[m].log| <= |run[n].log|
    decreases n
  {
    if m < n {
      WaitsOn(run, events, local, m, n - 1, t);
      UtcIsFaithful(local);
      RunInv(run, events, Utc(local), n - 1);
      StepWaits(run[n - 1], events[n - 1], Utc(local), t, |run[m].log|);
    }
  }

  /** In every run no scheduled time is missed: once it has come, the next look for due tasks finds that it fired. */
  lemma NoRunIsMissed(run: seq<State>, events: seq<Event>, local: Tm -> int, m: nat, n: nat, t: Task)
    requires IsRun(run, events, Utc(local)) && m <= n < |events|
    requires t in run[m].tasks && t.id !in run[m].firing
    requires forall i | m <= i < n :: Spares(events[i], t.id)
    requires events[n].GetDue? && 0 < RunTime(t, Utc(local)) <= run[n].clock
    ensures FiredSince(run[n + 1], t, Utc(local), |run[m].log|)
  {
    WaitsOn(run, events, local, m, n, t);
    UtcIsFaithful(local);
    RunInv(run, events, Utc(local), n);
    StepWaits(run[n], events[n], Utc(local), t, |run[m].log|);
  }
}
