/** Whole runs of the scheduler: the dispatcher fires tasks while sessions add, cancel and update them. */
module SchedulerRuns {
  import opened Options
  import opened Calendar
  import opened Scheduler

  /** One due task handed to a session: its slot, when, and its interval (0 for a one-shot task). */
  datatype Firing = Firing(id: string, slot: int, at: int, secs: int)

  /**
   * `firing` holds the ids between sched_get_due and sched_mark_done, `drawn` every id ever given out,
   * `base` the run time each task was last set to.
   */
  datatype State = State(
    tasks: seq<Task>, clock: int, firing: seq<string>, drawn: set<string>, base: map<string, int>, log: seq<Firing>)

  datatype Event =
    | Tick(now: int)
    | AddTask(id: string, runAt: Option<string>, interval: Option<string>)
    | CancelTask(id: string)
    | UpdateTask(id: string, runAt: Option<string>, interval: Option<string>)
    | GetDue
    | MarkDone

  predicate Enabled(s: State, e: Event) {
    match e
    case Tick(now) => s.clock <= now <= HORIZON
    case AddTask(id, _, _) => id !in s.drawn
    case CancelTask(_) => true
    case UpdateTask(_, _, _) => s.firing == []
    case GetDue => s.firing == []
    case MarkDone => true
  }

  function Ids(tasks: seq<Task>): seq<string> {
    seq(|tasks|, i requires 0 <= i < |tasks| => tasks[i].id)
  }

  function Fired(due: seq<Task>, now: int, z: TimeText): seq<Firing> {
    seq(|due|, i requires 0 <= i < |due| =>
      Firing(due[i].id, RunTime(due[i], z), now, IntervalSeconds(due[i].recurring)))
  }

  /** The base of a task that was added or updated is its new run time. */
  function Rebased(base: map<string, int>, tasks: seq<Task>, id: string, z: TimeText): map<string, int> {
    if Find(tasks, id) < 0 then base else base[id := RunTime(tasks[Find(tasks, id)], z)]
  }

  function Apply(s: State, e: Event, z: TimeText): State
    requires s.clock >= 0
  {
    match e
    case Tick(now) => s.(clock := now)
    case AddTask(id, runAt, interval) =>
      var tasks := Add(s.tasks, id, runAt, interval, s.clock, z);
      s.(tasks := tasks, drawn := s.drawn + {id}, base := Rebased(s.base, tasks, id, z))
    case CancelTask(id) => s.(tasks := Cancel(s.tasks, id))
    case UpdateTask(id, runAt, interval) =>
      var tasks := Update(s.tasks, id, runAt, interval, s.clock, z);
      s.(tasks := tasks, base := Rebased(s.base, tasks, id, z))
    case GetDue =>
      var due := Due(s.tasks, s.clock, z);
      s.(firing := Ids(due), log := s.log + Fired(due, s.clock, z))
    case MarkDone => s.(tasks := MarkAll(s.tasks, s.firing, s.clock, z), firing := [])
  }

  //
  // The invariant.
  //

  predicate Distinct(tasks: seq<Task>) {
    forall i, j | 0 <= i < j < |tasks| :: tasks[i].id != tasks[j].id
  }

  predicate NoRepeats(ids: seq<string>) {
    forall i, j | 0 <= i < j < |ids| :: ids[i] != ids[j]
  }

  /** A firing on record is over for task `t`, or the one being marked. */
  predicate Past(f: Firing, t: Task, firing: seq<string>, z: TimeText) {
    || (f.secs > 0 && f.at < RunTime(t, z))
    || (t.id in firing && f.slot == RunTime(t, z) && f.secs == IntervalSeconds(t.recurring))
  }

  ghost predicate Slotted(t: Task, base: map<string, int>, z: TimeText) {
    IntervalSeconds(t.recurring) > 0 ==>
      t.id in base && OnSlot(base[t.id], IntervalSeconds(t.recurring), RunTime(t, z))
  }

  /** A firing after another of the same task has a later slot, and the earlier one was of a recurring task. */
  predicate Ordered(log: seq<Firing>) {
    forall i, j | 0 <= i < j < |log| && log[i].id == log[j].id ::
      log[i].secs > 0 && log[i].slot <= log[i].at < log[j].slot
  }

  predicate GoodTasks(s: State, z: TimeText) {
    && Distinct(s.tasks)
    && (forall k | 0 <= k < |s.tasks| :: s.tasks[k].id in s.drawn)
    && (forall k | 0 <= k < |s.tasks| && s.tasks[k].id in s.firing :: IsDue(s.tasks[k], s.clock, z))
    && NoRepeats(s.firing)
    && (forall i | 0 <= i < |s.firing| :: s.firing[i] in s.drawn)
  }

  predicate GoodLog(s: State, z: TimeText) {
    && Ordered(s.log)
    && (forall i | 0 <= i < |s.log| ::
          0 < s.log[i].slot <= s.log[i].at <= s.clock && s.log[i].id in s.drawn)
    && (forall i, k | 0 <= i < |s.log| && 0 <= k < |s.tasks| && s.log[i].id == s.tasks[k].id ::
          Past(s.log[i], s.tasks[k], s.firing, z))
  }

  ghost predicate OnSlots(s: State, z: TimeText) {
    forall k | 0 <= k < |s.tasks| :: Slotted(s.tasks[k], s.base, z)
  }

  ghost predicate Inv(s: State, z: TimeText) {
    0 <= s.clock <= HORIZON && GoodTasks(s, z) && GoodLog(s, z) && OnSlots(s, z)
  }

  /** Any task list with distinct ids, and nothing fired yet. */
  ghost predicate Init(s: State, z: TimeText) {
    && 0 <= s.clock <= HORIZON && s.firing == [] && s.log == []
    && Distinct(s.tasks)
    && (forall k | 0 <= k < |s.tasks| :: s.tasks[k].id in s.drawn)
    && (forall k | 0 <= k < |s.tasks| ::
          s.tasks[k].id in s.base && s.base[s.tasks[k].id] == RunTime(s.tasks[k], z))
  }

  lemma SlotZero(base: int, secs: int)
    ensures OnSlot(base, secs, base)
  {
    assert base == Slot(base, secs, 0);
  }

  lemma InitInv(s: State, z: TimeText)
    requires Init(s, z)
    ensures Inv(s, z)
  {
    forall k | 0 <= k < |s.tasks|
      ensures Slotted(s.tasks[k], s.base, z)
    {
      SlotZero(RunTime(s.tasks[k], z), IntervalSeconds(s.tasks[k].recurring));
    }
  }

  //
  // What the list operations do.
  //

  lemma FindUnique(tasks: seq<Task>, k: nat)
    requires Distinct(tasks) && k < |tasks|
    ensures Find(tasks, tasks[k].id) == k
  {
  }

  lemma {:induction false} DueTasks(tasks: seq<Task>, now: int, z: TimeText)
    requires Distinct(tasks)
    ensures forall t :: t in Due(tasks, now, z) <==> t in tasks && IsDue(t, now, z)
    ensures Distinct(Due(tasks, now, z))
  {
    if tasks != [] {
      var n := |tasks| - 1;
      DueTasks(tasks[..n], now, z);
      assert tasks == tasks[..n] + [tasks[n]];
      var rest := Due(tasks[..n], now, z);
      forall i | 0 <= i < |rest|
        ensures rest[i].id != tasks[n].id
      {
        assert rest[i] in tasks[..n];
      }
    }
  }

  /** `t'` is what marking makes of task `t`. */
  predicate Marked(t: Task, t': Task, ids: seq<string>, now: int, z: TimeText)
    requires now >= 0
  {
    if t.id in ids then
      && IntervalSeconds(t.recurring) > 0 && t'.id == t.id && t'.recurring == t.recurring
      && RunTime(t', z) == NextSlot(RunTime(t, z), now, IntervalSeconds(t.recurring))
    else t' == t
  }

  predicate AllMarked(tasks: seq<Task>, tasks': seq<Task>, ids: seq<string>, now: int, z: TimeText)
    requires now >= 0
  {
    forall k | 0 <= k < |tasks'| ::
      var i := Find(tasks, tasks'[k].id);
      i >= 0 && Marked(tasks[i], tasks'[k], ids, now, z)
  }

  lemma LaterRunTime(t: Task, now: int, z: TimeText)
    requires Faithful(z) && 0 <= now <= HORIZON && IsDue(t, now, z) && IntervalSeconds(t.recurring) > 0
    ensures RunTime(Later(t, now, z), z) == NextSlot(RunTime(t, z), now, IntervalSeconds(t.recurring))
  {
    var next := NextSlot(RunTime(t, z), now, IntervalSeconds(t.recurring));
    assert z.parse(z.show(next)) == next;
  }

  lemma RemoveEffect(tasks: seq<Task>, i: nat, now: int, z: TimeText)
    requires now >= 0 && Distinct(tasks) && i < |tasks|
    ensures var r := tasks[..i] + tasks[i + 1..];
            Distinct(r) && AllMarked(tasks, r, [tasks[i].id], now, z)
  {
    var r := tasks[..i] + tasks[i + 1..];
    forall k | 0 <= k < |r|
      ensures var j := Find(tasks, r[k].id); j >= 0 && Marked(tasks[j], r[k], [tasks[i].id], now, z)
    {
      FindUnique(tasks, if k >= i then k + 1 else k);
    }
  }

  lemma ReplaceEffect(tasks: seq<Task>, i: nat, t': Task, now: int, z: TimeText)
    requires now >= 0 && Distinct(tasks) && i < |tasks|
    requires Marked(tasks[i], t', [tasks[i].id], now, z)
    ensures var r := tasks[i := t'];
            Distinct(r) && AllMarked(tasks, r, [tasks[i].id], now, z)
  {
    var r := tasks[i := t'];
    forall k | 0 <= k < |r|
      ensures var j := Find(tasks, r[k].id); j >= 0 && Marked(tasks[j], r[k], [tasks[i].id], now, z)
    {
      FindUnique(tasks, k);
    }
  }

  lemma MarkOneEffect(tasks: seq<Task>, id: string, now: int, z: TimeText)
    requires Faithful(z) && 0 <= now <= HORIZON && Distinct(tasks)
    requires Find(tasks, id) >= 0 ==> IsDue(tasks[Find(tasks, id)], now, z)
    ensures var r := MarkOne(tasks, id, now, z);
            Distinct(r) && AllMarked(tasks, r, [id], now, z)
  {
    var i := Find(tasks, id);
    if i < 0 {
      forall k | 0 <= k < |tasks|
        ensures Find(tasks, tasks[k].id) == k
      {
        FindUnique(tasks, k);
      }
    } else if IntervalSeconds(tasks[i].recurring) <= 0 {
      RemoveEffect(tasks, i, now, z);
    } else {
      LaterRunTime(tasks[i], now, z);
      ReplaceEffect(tasks, i, Later(tasks[i], now, z), now, z);
    }
  }

  lemma {:induction false} MarkedAll(tasks: seq<Task>, ids: seq<string>, now: int, z: TimeText)
    requires Faithful(z) && 0 <= now <= HORIZON && Distinct(tasks) && NoRepeats(ids)
    requires forall k | 0 <= k < |tasks| && tasks[k].id in ids :: IsDue(tasks[k], now, z)
    ensures var r := MarkAll(tasks, ids, now, z);
            Distinct(r) && AllMarked(tasks, r, ids, now, z)
  {
    if ids == [] {
      forall k | 0 <= k < |tasks|
        ensures Find(tasks, tasks[k].id) == k
      {
        FindUnique(tasks, k);
      }
    } else {
      var n := |ids| - 1;
      var mid, id := MarkAll(tasks, ids[..n], now, z), ids[n];
      assert ids == ids[..n] + [id];
      MarkedAll(tasks, ids[..n], now, z);
      assert id !in ids[..n];
      var m := Find(mid, id);
      if m >= 0 {
        assert Marked(tasks[Find(tasks, id)], mid[m], ids[..n], now, z);
      }
      MarkOneEffect(mid, id, now, z);
      MarkCompose(tasks, mid, MarkOne(mid, id, now, z), ids[..n], id, now, z);
    }
  }

  lemma MarkCompose(
    tasks: seq<Task>, mid: seq<Task>, r: seq<Task>, ids: seq<string>, id: string, now: int, z: TimeText)
    requires now >= 0 && id !in ids
    requires AllMarked(tasks, mid, ids, now, z) && AllMarked(mid, r, [id], now, z)
    ensures AllMarked(tasks, r, ids + [id], now, z)
  {
    forall k | 0 <= k < |r|
      ensures var i := Find(tasks, r[k].id); i >= 0 && Marked(tasks[i], r[k], ids + [id], now, z)
    {
      var j := Find(mid, r[k].id);
      assert Marked(mid[j], r[k], [id], now, z);
      var i := Find(tasks, mid[j].id);
      assert Marked(tasks[i], mid[j], ids, now, z);
    }
  }

  //
  // Marking in one pass: which tasks are left, and in which order.
  //

  /** The list with each task of the batch moved to its next run, or left out if it has no interval. */
  function OnePass(tasks: seq<Task>, ids: seq<string>, now: int, z: TimeText): seq<Task>
    requires now >= 0
  {
    if tasks == [] then []
    else
      var n := |tasks| - 1;
      var rest := OnePass(tasks[..n], ids, now, z);
      if tasks[n].id !in ids then rest + [tasks[n]]
      else if IntervalSeconds(tasks[n].recurring) > 0 then rest + [Later(tasks[n], now, z)]
      else rest
  }

  predicate Without(tasks: seq<Task>, id: string) {
    forall k | 0 <= k < |tasks| :: tasks[k].id != id
  }

  lemma {:induction false} OnePassIds(tasks: seq<Task>, ids: seq<string>, id: string, now: int, z: TimeText)
    requires now >= 0 && Without(tasks, id)
    ensures Without(OnePass(tasks, ids, now, z), id)
    ensures OnePass(tasks, ids + [id], now, z) == OnePass(tasks, ids, now, z)
  {
    if tasks != [] {
      OnePassIds(tasks[..|tasks| - 1], ids, id, now, z);
    }
  }

  lemma {:induction false} FindInit(tasks: seq<Task>, t: Task, id: string)
    ensures Find(tasks + [t], id)
         == if Find(tasks, id) >= 0 then Find(tasks, id) else if t.id == id then |tasks| else -1
  {
    if tasks == [] {
      assert tasks + [t] == [t] && [t][1..] == [];
    } else {
      assert (tasks + [t])[1..] == tasks[1..] + [t];
      FindInit(tasks[1..], t, id);
    }
  }

  lemma MarkOther(tasks: seq<Task>, t: Task, id: string, now: int, z: TimeText)
    requires now >= 0 && t.id != id
    ensures MarkOne(tasks + [t], id, now, z) == MarkOne(tasks, id, now, z) + [t]
  {
    FindInit(tasks, t, id);
    var i := Find(tasks, id);
    if i >= 0 {
      assert (tasks + [t])[..i] == tasks[..i] && (tasks + [t])[i + 1..] == tasks[i + 1..] + [t];
    }
  }

  lemma MarkLast(tasks: seq<Task>, t: Task, now: int, z: TimeText)
    requires now >= 0 && Without(tasks, t.id)
    ensures MarkOne(tasks + [t], t.id, now, z)
         == if IntervalSeconds(t.recurring) > 0 then tasks + [Later(t, now, z)] else tasks
  {
    FindInit(tasks, t, t.id);
  }

  lemma {:induction false} OnePassPush(tasks: seq<Task>, ids: seq<string>, id: string, now: int, z: TimeText)
    requires now >= 0 && Distinct(tasks) && id !in ids
    ensures OnePass(tasks, ids + [id], now, z) == MarkOne(OnePass(tasks, ids, now, z), id, now, z)
  {
    if tasks != [] {
      var n := |tasks| - 1;
      var t, rest := tasks[n], OnePass(tasks[..n], ids, now, z);
      if t.id == id {
        OnePassIds(tasks[..n], ids, id, now, z);
        MarkLast(rest, t, now, z);
      } else {
        OnePassPush(tasks[..n], ids, id, now, z);
        if t.id !in ids {
          MarkOther(rest, t, id, now, z);
        } else if IntervalSeconds(t.recurring) > 0 {
          MarkOther(rest, Later(t, now, z), id, now, z);
        }
      }
    }
  }

  lemma {:induction false} OnePassNone(tasks: seq<Task>, now: int, z: TimeText)
    requires now >= 0
    ensures OnePass(tasks, [], now, z) == tasks
  {
    if tasks != [] {
      OnePassNone(tasks[..|tasks| - 1], now, z);
      assert tasks == tasks[..|tasks| - 1] + [tasks[|tasks| - 1]];
    }
  }

  /**
   * Marking a batch id by id is one pass over the list: every other task stays as it is, every recurring task of the
   * batch stays with its next run, one-shot tasks of the batch leave, and the order is kept.
   */
  lemma {:induction false} MarkAllIsOnePass(tasks: seq<Task>, ids: seq<string>, now: int, z: TimeText)
    requires now >= 0 && Distinct(tasks) && NoRepeats(ids)
    ensures MarkAll(tasks, ids, now, z) == OnePass(tasks, ids, now, z)
  {
    if ids == [] {
      OnePassNone(tasks, now, z);
    } else {
      var n := |ids| - 1;
      MarkAllIsOnePass(tasks, ids[..n], now, z);
      OnePassPush(tasks, ids[..n], ids[n], now, z);
      assert ids == ids[..n] + [ids[n]];
    }
  }

  /** What marking leaves of task `t`. */
  predicate Survives(t: Task, r: seq<Task>, ids: seq<string>, now: int, z: TimeText)
    requires now >= 0
  {
    && (t.id !in ids ==> t in r)
    && (t.id in ids && IntervalSeconds(t.recurring) > 0 ==> Later(t, now, z) in r)
  }

  lemma {:induction false} OnePassSurvives(tasks: seq<Task>, ids: seq<string>, now: int, z: TimeText)
    requires now >= 0
    ensures forall k | 0 <= k < |tasks| :: Survives(tasks[k], OnePass(tasks, ids, now, z), ids, now, z)
  {
    if tasks != [] {
      var n := |tasks| - 1;
      OnePassSurvives(tasks[..n], ids, now, z);
      forall k | 0 <= k < |tasks|
        ensures Survives(tasks[k], OnePass(tasks, ids, now, z), ids, now, z)
      {
        assert k < n ==> Survives(tasks[..n][k], OnePass(tasks[..n], ids, now, z), ids, now, z);
      }
    }
  }

  /** Marking fired tasks: what is left is marked or untouched, and all that should be left is. */
  lemma MarkAllEffect(tasks: seq<Task>, ids: seq<string>, now: int, z: TimeText)
    requires Faithful(z) && 0 <= now <= HORIZON && Distinct(tasks) && NoRepeats(ids)
    requires forall k | 0 <= k < |tasks| && tasks[k].id in ids :: IsDue(tasks[k], now, z)
    ensures var r := MarkAll(tasks, ids, now, z);
            && Distinct(r) && AllMarked(tasks, r, ids, now, z) && r == OnePass(tasks, ids, now, z)
            && forall k | 0 <= k < |tasks| :: Survives(tasks[k], r, ids, now, z)
  {
    MarkedAll(tasks, ids, now, z);
    MarkAllIsOnePass(tasks, ids, now, z);
    OnePassSurvives(tasks, ids, now, z);
  }

  //
  // Every step keeps the invariant.
  //

  lemma AddKeeps(s: State, e: Event, z: TimeText)
    requires Faithful(z) && Inv(s, z) && Enabled(s, e) && e.AddTask?
    ensures Inv(Apply(s, e, z), z)
  {
    var s' := Apply(s, e, z);
    if |s'.tasks| > |s.tasks| {
      var n := |s.tasks|;
      assert Distinct(s'.tasks);
      FindUnique(s'.tasks, n);
      SlotZero(RunTime(s'.tasks[n], z), IntervalSeconds(s'.tasks[n].recurring));
      forall k | 0 <= k < |s'.tasks|
        ensures Slotted(s'.tasks[k], s'.base, z)
      {
        assert k < n ==> Slotted(s.tasks[k], s.base, z);
      }
    }
  }

  /** Every task of `sub` is one of `tasks`, in the same order. */
  predicate Sublist(sub: seq<Task>, tasks: seq<Task>, i: nat) {
    && |sub| + 1 == |tasks| && i < |tasks|
    && forall k | 0 <= k < |sub| :: sub[k] == tasks[if k < i then k else k + 1]
  }

  lemma FewerTasks(s: State, s': State, i: nat, z: TimeText)
    requires GoodTasks(s, z) && s' == s.(tasks := s'.tasks) && Sublist(s'.tasks, s.tasks, i)
    ensures GoodTasks(s', z)
  {
  }

  lemma FewerPast(s: State, s': State, i: nat, z: TimeText)
    requires GoodLog(s, z) && s' == s.(tasks := s'.tasks) && Sublist(s'.tasks, s.tasks, i)
    ensures GoodLog(s', z)
  {
    forall j, k | 0 <= j < |s'.log| && 0 <= k < |s'.tasks| && s'.log[j].id == s'.tasks[k].id
      ensures Past(s'.log[j], s'.tasks[k], s'.firing, z)
    {
      assert s'.tasks[k] == s.tasks[if k < i then k else k + 1];
    }
  }

  lemma CancelKeeps(s: State, e: Event, z: TimeText)
    requires Inv(s, z) && e.CancelTask?
    ensures Inv(Apply(s, e, z), z)
  {
    var s', i := Apply(s, e, z), Find(s.tasks, e.id);
    if i >= 0 {
      assert Sublist(s'.tasks, s.tasks, i);
      FewerTasks(s, s', i, z);
      FewerPast(s, s', i, z);
    }
  }

  /** An accepted run time is strictly after now. */
  lemma AcceptedIsLater(runAt: Option<string>, interval: Option<string>, now: int, z: TimeText)
    requires Faithful(z) && 0 <= now <= HORIZON
    ensures var c := CheckTask(runAt, interval, now, z);
            c.Accepted? && Given(runAt) ==> c.runAt.Some? && z.parse(c.runAt.value) > now
  {
    if Given(runAt) {
      var t := z.parse(runAt.value);
      if t <= now && IntervalSeconds(interval) > 0 {
        var next := NextSlot(t, now, IntervalSeconds(interval));
        assert z.parse(z.show(next)) == next;
      }
    }
  }

  /** An updated task keeps its run time or moves it past the clock. */
  lemma UpdateEffect(s: State, id: string, runAt: Option<string>, interval: Option<string>, z: TimeText)
    requires Faithful(z) && 0 <= s.clock <= HORIZON && Find(s.tasks, id) >= 0
    ensures var i, r := Find(s.tasks, id), Update(s.tasks, id, runAt, interval, s.clock, z);
            && |r| == |s.tasks| && r == s.tasks[i := r[i]] && r[i].id == id
            && (RunTime(r[i], z) == RunTime(s.tasks[i], z) || RunTime(r[i], z) > s.clock)
  {
    var i := Find(s.tasks, id);
    AcceptedIsLater(runAt, if interval.Some? then interval else s.tasks[i].recurring, s.clock, z);
  }

  lemma UpdateKeeps(s: State, e: Event, z: TimeText)
    requires Faithful(z) && Inv(s, z) && Enabled(s, e) && e.UpdateTask?
    ensures Inv(Apply(s, e, z), z)
  {
    var i := Find(s.tasks, e.id);
    if i >= 0 {
      UpdateEffect(s, e.id, e.runAt, e.interval, z);
      var tasks := Update(s.tasks, e.id, e.runAt, e.interval, s.clock, z);
      assert Distinct(tasks);
      FindUnique(tasks, i);
      ReplacedKeeps(s, i, tasks[i], z);
    }
  }

  lemma ReplacedKeeps(s: State, i: nat, t: Task, z: TimeText)
    requires Inv(s, z) && s.firing == [] && i < |s.tasks| && t.id == s.tasks[i].id
    requires RunTime(t, z) == RunTime(s.tasks[i], z) || RunTime(t, z) > s.clock
    ensures Inv(s.(tasks := s.tasks[i := t], base := s.base[t.id := RunTime(t, z)]), z)
  {
    var s' := s.(tasks := s.tasks[i := t], base := s.base[t.id := RunTime(t, z)]);
    SlotZero(RunTime(t, z), IntervalSeconds(t.recurring));
    forall k | 0 <= k < |s'.tasks|
      ensures Slotted(s'.tasks[k], s'.base, z)
    {
      assert k != i ==> Slotted(s.tasks[k], s.base, z);
    }
    forall j, k | 0 <= j < |s.log| && 0 <= k < |s'.tasks| && s.log[j].id == s'.tasks[k].id
      ensures Past(s.log[j], s'.tasks[k], s'.firing, z)
    {
      assert Past(s.log[j], s.tasks[k], s.firing, z);
    }
  }

  lemma GetDueKeeps(s: State, e: Event, z: TimeText)
    requires Inv(s, z) && Enabled(s, e) && e.GetDue?
    ensures Inv(Apply(s, e, z), z)
  {
    var s', due := Apply(s, e, z), Due(s.tasks, s.clock, z);
    assert s' == s.(firing := Ids(due), log := s.log + Fired(due, s.clock, z));
    DueTasks(s.tasks, s.clock, z);
    forall i | 0 <= i < |due|
      ensures due[i] in s.tasks && IsDue(due[i], s.clock, z)
    {
      assert due[i] in due;
    }
    forall k | 0 <= k < |s.tasks| && s.tasks[k].id in s'.firing
      ensures s.tasks[k] in due
    {
      var i :| 0 <= i < |due| && due[i].id == s.tasks[k].id;
      assert due[i] in s.tasks;
    }
    LogGrows(s, s', due, z);
  }

  lemma LogGrows(s: State, s': State, due: seq<Task>, z: TimeText)
    requires GoodTasks(s, z) && GoodLog(s, z) && s.firing == []
    requires Distinct(due) && forall i | 0 <= i < |due| :: due[i] in s.tasks && IsDue(due[i], s.clock, z)
    requires s' == s.(firing := Ids(due), log := s.log + Fired(due, s.clock, z))
    ensures GoodLog(s', z)
  {
    var n := |s.log|;
    forall i, j | 0 <= i < j < |s'.log| && s'.log[i].id == s'.log[j].id
      ensures s'.log[i].secs > 0 && s'.log[i].slot <= s'.log[i].at < s'.log[j].slot
    {
      if n <= j {
        var k :| 0 <= k < |s.tasks| && s.tasks[k] == due[j - n];
        if i < n {
          assert Past(s.log[i], s.tasks[k], s.firing, z);
        }
      }
    }
    forall i, k | 0 <= i < |s'.log| && 0 <= k < |s'.tasks| && s'.log[i].id == s'.tasks[k].id
      ensures Past(s'.log[i], s'.tasks[k], s'.firing, z)
    {
      if i < n {
        assert Past(s.log[i], s.tasks[k], s.firing, z);
      } else {
        var d := due[i - n];
        assert d in s.tasks && d == s.tasks[k];
        assert s'.firing[i - n] == d.id;
      }
    }
  }

  lemma MarkDoneKeeps(s: State, e: Event, z: TimeText)
    requires Faithful(z) && Inv(s, z) && e.MarkDone?
    ensures Inv(Apply(s, e, z), z)
    ensures FiredMoveOn(s, Apply(s, e, z), z)
  {
    var s' := Apply(s, e, z);
    MarkAllEffect(s.tasks, s.firing, s.clock, z);
    forall k | 0 <= k < |s'.tasks|
      ensures s'.tasks[k].id in s.drawn && Slotted(s'.tasks[k], s'.base, z)
      ensures s'.tasks[k].id in s.firing ==> MovesOn(s'.tasks[k], s, z)
    {
      MarkedTask(s, s'.tasks[k], z);
    }
    forall i, k | 0 <= i < |s'.log| && 0 <= k < |s'.tasks| && s'.log[i].id == s'.tasks[k].id
      ensures Past(s'.log[i], s'.tasks[k], s'.firing, z)
    {
      var t := s.tasks[Find(s.tasks, s'.tasks[k].id)];
      assert Marked(t, s'.tasks[k], s.firing, s.clock, z);
      assert Past(s.log[i], t, s.firing, z);
    }
  }

  /** A fired task that is still there is recurring and waits for its least slot after now. */
  ghost predicate MovesOn(t: Task, s: State, z: TimeText) {
    var secs := IntervalSeconds(t.recurring);
    && secs > 0 && t.id in s.base
    && OnSlot(s.base[t.id], secs, RunTime(t, z)) && RunTime(t, z) > s.clock
    && forall u | OnSlot(s.base[t.id], secs, u) && u > s.clock :: RunTime(t, z) <= u
  }

  /** Fired tasks are one-shot and gone, or there with their next run; all others are still there unchanged. */
  ghost predicate FiredMoveOn(s: State, s': State, z: TimeText)
    requires s.clock >= 0
  {
    && s'.tasks == OnePass(s.tasks, s.firing, s.clock, z)
    && (forall k | 0 <= k < |s.tasks| :: Survives(s.tasks[k], s'.tasks, s.firing, s.clock, z))
    && forall k | 0 <= k < |s'.tasks| && s'.tasks[k].id in s.firing :: MovesOn(s'.tasks[k], s, z)
  }

  lemma MarkedTask(s: State, t': Task, z: TimeText)
    requires Inv(s, z)
    requires Find(s.tasks, t'.id) >= 0
    requires Marked(s.tasks[Find(s.tasks, t'.id)], t', s.firing, s.clock, z)
    ensures t'.id in s.drawn && Slotted(t', s.base, z)
    ensures t'.id in s.firing ==> MovesOn(t', s, z)
  {
    var t := s.tasks[Find(s.tasks, t'.id)];
    assert Slotted(t, s.base, z);
    if t.id in s.firing {
      NextSlotIsLeast(s.base[t.id], IntervalSeconds(t.recurring), RunTime(t, z), s.clock);
    }
  }

  lemma StepKeeps(s: State, e: Event, z: TimeText)
    requires Faithful(z) && Inv(s, z) && Enabled(s, e)
    ensures Inv(Apply(s, e, z), z)
  {
    match e
    case Tick(_) =>
    case AddTask(_, _, _) => AddKeeps(s, e, z);
    case CancelTask(_) => CancelKeeps(s, e, z);
    case UpdateTask(_, _, _) => UpdateKeeps(s, e, z);
    case GetDue => GetDueKeeps(s, e, z);
    case MarkDone => MarkDoneKeeps(s, e, z);
  }

  //
  // Runs.
  //

  /** The states of a run: each follows from the one before by the event between them. */
  ghost predicate IsRun(run: seq<State>, events: seq<Event>, z: TimeText) {
    && |run| == |events| + 1
    && Init(run[0], z)
    && forall i | 0 <= i < |events| ::
         run[i].clock >= 0 && Enabled(run[i], events[i]) && run[i + 1] == Apply(run[i], events[i], z)
  }

  lemma {:induction false} RunInv(run: seq<State>, events: seq<Event>, z: TimeText, n: nat)
    requires Faithful(z) && IsRun(run, events, z) && n < |run|
    ensures Inv(run[n], z)
  {
    if n == 0 {
      InitInv(run[0], z);
    } else {
      RunInv(run, events, z, n - 1);
      StepKeeps(run[n - 1], events[n - 1], z);
    }
  }

  /** A task with this id and interval is scheduled. */
  predicate Scheduled(tasks: seq<Task>, id: string, recurring: Option<string>) {
    exists k :: 0 <= k < |tasks| && tasks[k].id == id && tasks[k].recurring == recurring
  }

  /** The event is not a cancel or an update of the task. */
  predicate Spares(e: Event, id: string) {
    && (e.CancelTask? ==> e.id != id)
    && (e.UpdateTask? ==> e.id != id)
  }

  lemma MarkStays(s: State, id: string, recurring: Option<string>, z: TimeText)
    requires Inv(s, z) && Scheduled(s.tasks, id, recurring) && IntervalSeconds(recurring) > 0
    ensures Scheduled(MarkAll(s.tasks, s.firing, s.clock, z), id, recurring)
  {
    var r := MarkAll(s.tasks, s.firing, s.clock, z);
    MarkAllIsOnePass(s.tasks, s.firing, s.clock, z);
    OnePassSurvives(s.tasks, s.firing, s.clock, z);
    var k :| 0 <= k < |s.tasks| && s.tasks[k].id == id && s.tasks[k].recurring == recurring;
    assert Survives(s.tasks[k], r, s.firing, s.clock, z);
    var t := if id in s.firing then Later(s.tasks[k], s.clock, z) else s.tasks[k];
    var j :| 0 <= j < |r| && r[j] == t;
    assert r[j].id == id && r[j].recurring == recurring;
  }

  lemma CancelStays(tasks: seq<Task>, other: string, id: string, recurring: Option<string>)
    requires Scheduled(tasks, id, recurring) && other != id
    ensures Scheduled(Cancel(tasks, other), id, recurring)
  {
    var k :| 0 <= k < |tasks| && tasks[k].id == id && tasks[k].recurring == recurring;
    var i, r := Find(tasks, other), Cancel(tasks, other);
    var j := if 0 <= i < k then k - 1 else k;
    assert r[j] == tasks[k];
  }

  lemma SameStays(tasks: seq<Task>, r: seq<Task>, i: int, id: string, recurring: Option<string>)
    requires Scheduled(tasks, id, recurring) && |tasks| <= |r| && (0 <= i < |tasks| ==> tasks[i].id != id)
    requires forall k | 0 <= k < |tasks| && k != i :: r[k] == tasks[k]
    ensures Scheduled(r, id, recurring)
  {
    var k :| 0 <= k < |tasks| && tasks[k].id == id && tasks[k].recurring == recurring;
    assert r[k] == tasks[k];
  }

  lemma StepStays(s: State, e: Event, id: string, recurring: Option<string>, z: TimeText)
    requires Faithful(z) && Inv(s, z) && Enabled(s, e) && Spares(e, id)
    requires Scheduled(s.tasks, id, recurring) && IntervalSeconds(recurring) > 0
    ensures Scheduled(Apply(s, e, z).tasks, id, recurring)
  {
    match e
    case MarkDone => MarkStays(s, id, recurring, z);
    case CancelTask(other) => CancelStays(s.tasks, other, id, recurring);
    case UpdateTask(other, runAt, interval) =>
      if Find(s.tasks, other) >= 0 {
        UpdateEffect(s, other, runAt, interval, z);
      }
      SameStays(s.tasks, Apply(s, e, z).tasks, Find(s.tasks, other), id, recurring);
    case _ => SameStays(s.tasks, Apply(s, e, z).tasks, -1, id, recurring);
  }

  /** In every run a recurring task stays scheduled, fired or not, until it is cancelled or updated. */
  lemma {:induction false} RecurringStays(
    run: seq<State>, events: seq<Event>, local: Tm -> int, m: nat, n: nat, id: string, recurring: Option<string>)
    requires IsRun(run, events, Utc(local)) && m <= n < |run|
    requires Scheduled(run[m].tasks, id, recurring) && IntervalSeconds(recurring) > 0
    requires forall i | m <= i < n :: Spares(events[i], id)
    ensures Scheduled(run[n].tasks, id, recurring)
    decreases n
  {
    if m < n {
      RecurringStays(run, events, local, m, n - 1, id, recurring);
      UtcIsFaithful(local);
      RunInv(run, events, Utc(local), n - 1);
      StepStays(run[n - 1], events[n - 1], id, recurring, Utc(local));
    }
  }

  /**
   * In every run: no slot fires twice, a fired one-shot task never fires again, recurring tasks stay on their
   * slots, and whenever fired tasks are marked the recurring ones are still there and wait for their least slot
   * strictly after the clock, with all other tasks as they were.
   */
  lemma SchedulerSafety(run: seq<State>, events: seq<Event>, local: Tm -> int, n: nat)
    requires IsRun(run, events, Utc(local)) && n < |run|
    ensures Ordered(run[n].log) && OnSlots(run[n], Utc(local))
    ensures n + 1 < |run| && events[n].MarkDone? ==> FiredMoveOn(run[n], run[n + 1], Utc(local))
  {
    UtcIsFaithful(local);
    RunInv(run, events, Utc(local), n);
    if n + 1 < |run| && events[n].MarkDone? {
      MarkDoneKeeps(run[n], events[n], Utc(local));
    }
  }
}
