/** Starting sessions: the dispatcher of src/daemon.c and its worker threads, step by step. */
module Dispatcher {
  const QUEUE_MAX: nat := 64
  const GAP: int := 5  // TC_SESSION_GAP

  /** An owner message waiting for its agent; `num` counts the messages accepted before it. */
  datatype Trigger = Trigger(agent: nat, text: string, num: nat)

  //
  // The queue, an array whose tail is moved down when an entry leaves.
  //

  function Without(q: seq<Trigger>, i: nat): seq<Trigger>
    requires i < |q|
  {
    q[..i] + q[i + 1..]
  }

  predicate Queued(q: seq<Trigger>, a: nat) {
    exists i :: 0 <= i < |q| && q[i].agent == a
  }

  class TriggerQueue {
    const entries: array<Trigger>
    var len: nat

    ghost predicate Valid()
      reads this
    {
      entries.Length == QUEUE_MAX && len <= QUEUE_MAX
    }

    ghost function Contents(): seq<Trigger>
      requires Valid()
      reads this, entries
    {
      entries[..len]
    }

    constructor ()
      ensures Valid() && Contents() == []
    {
      entries := new Trigger[QUEUE_MAX](_ => Trigger(0, "", 0));
      len := 0;
    }

    method Enqueue(t: Trigger)
      requires Valid()
      modifies this, entries
      ensures Valid()
      ensures Contents() == if |old(Contents())| < QUEUE_MAX then old(Contents()) + [t] else old(Contents())
    {
      if len < QUEUE_MAX {
        entries[len] := t;
        len := len + 1;
      }
    }

    /** The memmove behind a started entry. */
    method Remove(i: nat)
      requires Valid() && i < len
      modifies this, entries
      ensures Valid() && Contents() == Without(old(Contents()), i)
    {
      len := len - 1;
      var n := len;
      forall k | i <= k < n {
        entries[k] := entries[k + 1];
      }
    }

    /** queued_for */
    method QueuedFor(a: nat) returns (r: bool)
      requires Valid()
      ensures r == Queued(Contents(), a)
    {
      for i := 0 to len
        invariant forall k | 0 <= k < i :: Contents()[k].agent != a
      {
        if entries[i].agent == a {
          assert Contents()[i].agent == a;
          return true;
        }
      }
      return false;
    }
  }

  //
  // The system.
  //

  datatype Source = Owner | Mail | Task | Nothing

  /** A worker's way out: it reads the clock, stores last_session_time, then clears busy. */
  datatype Phase = Running | Timed(t: int) | Recorded

  datatype Worker = Worker(agent: nat, phase: Phase)

  /** Where the main thread is: between polls, in the loop over the queue, or in the loop over the agents. */
  datatype Pc =
    | Polling
    | Check(owner: bool, i: nat)                  // next: load busy
    | Read(owner: bool, i: nat)                   // busy was 0; next: load last_session_time
    | Start(owner: bool, i: nat)                  // idle; next: look for a trigger, store busy
    | Spawn(owner: bool, i: nat, source: Source)  // next: pthread_create

  datatype Entry = Started(agent: nat, source: Source, at: int) | Ended(agent: nat, at: int)

  /**
   * `nowS` is the second the current pass began. For the proofs: `accepted` and `taken` are the messages that
   * entered and left the queue, and `overtaken` holds the agents whose busy flag was cleared too late: in the middle
   * of the loop over the queue, between two messages of the agent, with a recorded time that was old already.
   */
  datatype State = State(
    clock: int, nowS: int, pc: Pc, queue: seq<Trigger>, busy: seq<bool>, last: seq<int>,
    workers: map<nat, Worker>, nextId: nat,
    overtaken: set<nat>, accepted: seq<Trigger>, taken: seq<Trigger>, log: seq<Entry>)

  datatype Event =
    | Tick(now: int)
    | Enqueue(t: Trigger)
    | Begin
    | Main(source: Source, created: bool)  // the main thread's next step, with what it finds
    | ReadClock(w: nat)
    | StoreTime(w: nat)
    | ClearBusy(w: nat)
    | Finish(w: nat)                       // the three worker steps at once

  predicate AgentIdle(s: State, a: nat)
    requires a < |s.busy| == |s.last|
  {
    !s.busy[a] && s.nowS - s.last[a] >= GAP
  }

  /** The agent the main thread is looking at. */
  function Looked(s: State): nat {
    if s.pc.Polling? then 0
    else if !s.pc.owner then s.pc.i
    else if s.pc.i < |s.queue| then s.queue[s.pc.i].agent
    else 0
  }

  function NextCheck(s: State): Pc
    requires !s.pc.Polling?
  {
    Check(s.pc.owner, s.pc.i + 1)
  }

  function MainCheck(s: State): State
    requires s.pc.Check? && |s.busy| == |s.last| && forall k | 0 <= k < |s.queue| :: s.queue[k].agent < |s.busy|
  {
    if s.pc.owner && s.pc.i >= |s.queue| then s.(pc := Check(false, 0))
    else if !s.pc.owner && s.pc.i >= |s.busy| then s.(pc := Polling)
    else if s.busy[Looked(s)] then s.(pc := NextCheck(s))
    else s.(pc := Read(s.pc.owner, s.pc.i))
  }

  function MainRead(s: State): State
    requires s.pc.Read? && Looked(s) < |s.last|
  {
    if s.nowS - s.last[Looked(s)] < GAP then s.(pc := NextCheck(s))
    else s.(pc := Start(s.pc.owner, s.pc.i))
  }

  /** start_session up to the store of busy; the loop over agents starts nothing for one with a queued message. */
  function MainStart(s: State, source: Source): State
    requires s.pc.Start? && Looked(s) < |s.busy|
  {
    var a := Looked(s);
    var src := if s.pc.owner then Owner else if source == Owner then Nothing else source;
    if !s.pc.owner && (src == Nothing || Queued(s.queue, a)) then s.(pc := NextCheck(s))
    else s.(busy := s.busy[a := true], pc := Spawn(s.pc.owner, s.pc.i, src))
  }

  /** pthread_create, and the queue entry leaves whether it worked or not. */
  function MainSpawn(s: State, created: bool): State
    requires s.pc.Spawn? && Looked(s) < |s.busy| && (s.pc.owner ==> s.pc.i < |s.queue|)
  {
    var a := Looked(s);
    var s1 := if created
              then s.(workers := s.workers[s.nextId := Worker(a, Running)], nextId := s.nextId + 1,
                      log := s.log + [Started(a, s.pc.source, s.clock)])
              else s.(busy := s.busy[a := false]);
    if s.pc.owner then
      s1.(queue := Without(s.queue, s.pc.i), taken := s.taken + [s.queue[s.pc.i]], pc := Check(true, s.pc.i))
    else s1.(pc := NextCheck(s))
  }

  function Record(s: State, w: nat, t: int): State
    requires w in s.workers && s.workers[w].agent < |s.last|
  {
    var a := s.workers[w].agent;
    s.(last := s.last[a := t], workers := s.workers[w := Worker(a, Recorded)], log := s.log + [Ended(a, t)])
  }

  function Clear(s: State, w: nat): State
    requires w in s.workers && s.workers[w].agent < |s.busy| == |s.last|
  {
    var a := s.workers[w].agent;
    s.(busy := s.busy[a := false], workers := s.workers - {w},
       overtaken := if s.nowS - s.last[a] >= GAP && Between(s, a) then s.overtaken + {a} else s.overtaken)
  }

  /** Message `j` of the agent is behind the loop over the queue, message `k` still ahead. */
  predicate Straddle(s: State, a: nat, j: nat, k: nat) {
    && !s.pc.Polling? && s.pc.owner
    && j < s.pc.i <= k < |s.queue| && s.queue[j].agent == a && s.queue[k].agent == a
  }

  predicate Between(s: State, a: nat) {
    exists j, k | 0 <= j < |s.queue| && 0 <= k < |s.queue| :: Straddle(s, a, j, k)
  }

  predicate Shape(s: State) {
    && |s.busy| == |s.last|
    && (forall k | 0 <= k < |s.queue| :: s.queue[k].agent < |s.busy|)
    && (forall w | w in s.workers :: s.workers[w].agent < |s.busy|)
    && (s.pc.Read? || s.pc.Start? || s.pc.Spawn? ==>
          Looked(s) < |s.busy| && (s.pc.owner ==> s.pc.i < |s.queue|))
  }

  predicate Enabled(s: State, e: Event) {
    match e
    case Tick(now) => s.clock <= now
    case Enqueue(t) => s.pc.Polling? && t.agent < |s.busy| && t.num == |s.accepted|
    case Begin => s.pc.Polling?
    case Main(_, _) => !s.pc.Polling?
    case ReadClock(w) => w in s.workers && s.workers[w].phase.Running?
    case StoreTime(w) => w in s.workers && s.workers[w].phase.Timed?
    case ClearBusy(w) => w in s.workers && s.workers[w].phase.Recorded?
    case Finish(w) => w in s.workers && s.workers[w].phase.Running?
  }

  function Apply(s: State, e: Event): State
    requires Shape(s) && Enabled(s, e)
  {
    match e
    case Tick(now) => s.(clock := now)
    case Enqueue(t) =>
      if |s.queue| < QUEUE_MAX then s.(queue := s.queue + [t], accepted := s.accepted + [t]) else s
    case Begin => s.(pc := Check(true, 0), nowS := s.clock)
    case Main(source, created) =>
      (match s.pc
       case Check(_, _) => MainCheck(s)
       case Read(_, _) => MainRead(s)
       case Start(_, _) => MainStart(s, source)
       case Spawn(_, _, _) => MainSpawn(s, created))
    case ReadClock(w) => s.(workers := s.workers[w := Worker(s.workers[w].agent, Timed(s.clock))])
    case StoreTime(w) => Record(s, w, s.workers[w].phase.t)
    case ClearBusy(w) => Clear(s, w)
    case Finish(w) => Clear(Record(s, w, s.clock), w)
  }

  //
  // The invariant.
  //

  /** At most one live session for each agent, and busy while there is one. */
  predicate OneEach(s: State) {
    && (forall w | w in s.workers :: w < s.nextId && s.workers[w].agent < |s.busy| && s.busy[s.workers[w].agent])
    && (forall v, w | v in s.workers && w in s.workers && v != w :: s.workers[v].agent != s.workers[w].agent)
  }

  predicate NoWorker(s: State, a: nat) {
    forall w | w in s.workers :: s.workers[w].agent != a
  }

  /** What the main thread has read stays true until it acts on it. */
  predicate PcOk(s: State)
    requires Shape(s)
  {
    match s.pc
    case Polling => true
    case Check(_, _) => true
    case Read(_, _) => !s.busy[Looked(s)]
    case Start(_, _) => AgentIdle(s, Looked(s))
    case Spawn(owner, i, source) =>
      && s.busy[Looked(s)] && NoWorker(s, Looked(s)) && s.nowS - s.last[Looked(s)] >= GAP
      && (owner ==> source == Owner) && (!owner ==> source != Owner && !Queued(s.queue, Looked(s)))
  }

  predicate Times(s: State)
    requires Shape(s)
  {
    && s.nowS <= s.clock
    && (forall a | 0 <= a < |s.last| :: s.last[a] <= s.clock)
    && (forall w | w in s.workers && s.workers[w].phase.Timed? ::
          s.last[s.workers[w].agent] <= s.workers[w].phase.t <= s.clock)
  }

  /** Every session started at least GAP seconds after every recorded end of its agent before it. */
  predicate Spaced(log: seq<Entry>) {
    forall i, j | 0 <= i < j < |log| && log[i].Ended? && log[j].Started? && log[i].agent == log[j].agent ::
      log[j].at >= log[i].at + GAP
  }

  predicate LogOk(s: State)
    requires Shape(s)
  {
    && Spaced(s.log)
    && (forall i | 0 <= i < |s.log| && s.log[i].Ended? ::
          s.log[i].agent < |s.last| && s.log[i].at <= s.last[s.log[i].agent])
  }

  predicate Inv(s: State) {
    Shape(s) && OneEach(s) && PcOk(s) && Times(s) && LogOk(s)
  }

  predicate Init(s: State) {
    && |s.busy| == |s.last| && (forall a | 0 <= a < |s.busy| :: !s.busy[a] && s.last[a] <= s.clock)
    && s.pc == Polling && s.nowS <= s.clock
    && s.queue == [] && s.workers == map[] && s.overtaken == {}
    && s.accepted == [] && s.taken == [] && s.log == []
  }

  /** The position of the main thread matters to Shape and PcOk only. */
  lemma PcOnly(s: State, s': State)
    requires Inv(s) && s' == s.(pc := s'.pc) && Shape(s')
    ensures OneEach(s') && Times(s') && LogOk(s')
  {
  }

  lemma CheckKeeps(s: State)
    requires Inv(s) && s.pc.Check?
    ensures Inv(MainCheck(s))
  {
    assert Shape(MainCheck(s)) && PcOk(MainCheck(s));
    PcOnly(s, MainCheck(s));
  }

  lemma ReadKeeps(s: State)
    requires Inv(s) && s.pc.Read?
    ensures Inv(MainRead(s))
  {
  }

  lemma StartKeeps(s: State, source: Source)
    requires Inv(s) && s.pc.Start?
    ensures Inv(MainStart(s, source))
  {
    assert NoWorker(s, Looked(s));
  }

  lemma SpawnedLog(s: State, e: Entry)
    requires Shape(s) && LogOk(s) && Times(s)
    requires e.Started? && e.agent < |s.last| && e.at >= s.last[e.agent] + GAP
    ensures LogOk(s.(log := s.log + [e]))
  {
    var log := s.log + [e];
    forall i, j | 0 <= i < j < |log| && log[i].Ended? && log[j].Started? && log[i].agent == log[j].agent
      ensures log[j].at >= log[i].at + GAP
    {
      assert log[i] == s.log[i];
    }
  }

  lemma SpawnShape(s: State, created: bool)
    requires Inv(s) && s.pc.Spawn?
    ensures var s' := MainSpawn(s, created);
            Shape(s') && PcOk(s')
  {
  }

  lemma SpawnTimes(s: State, created: bool)
    requires Inv(s) && s.pc.Spawn? && Shape(MainSpawn(s, created))
    ensures Times(MainSpawn(s, created))
  {
  }

  lemma SpawnedOne(s: State)
    requires Inv(s) && s.pc.Spawn?
    ensures OneEach(MainSpawn(s, true))
  {
  }

  lemma FailedOne(s: State)
    requires Inv(s) && s.pc.Spawn?
    ensures OneEach(MainSpawn(s, false))
  {
  }

  lemma SpawnKeeps(s: State, created: bool)
    requires Inv(s) && s.pc.Spawn?
    ensures Inv(MainSpawn(s, created))
  {
    SpawnShape(s, created);
    SpawnTimes(s, created);
    if created {
      SpawnedOne(s);
      SpawnedLog(s, Started(Looked(s), s.pc.source, s.clock));
    } else {
      FailedOne(s);
    }
  }

  lemma RecordKeeps(s: State, w: nat, t: int)
    requires Inv(s) && w in s.workers && s.last[s.workers[w].agent] <= t <= s.clock
    ensures Inv(Record(s, w, t))
  {
  }

  lemma ClearKeeps(s: State, w: nat)
    requires Inv(s) && w in s.workers && s.workers[w].phase.Recorded?
    ensures Inv(Clear(s, w))
  {
  }

  lemma EnqueueKeeps(s: State, t: Trigger)
    requires Inv(s) && Enabled(s, Enqueue(t))
    ensures Inv(Apply(s, Enqueue(t)))
  {
  }

  lemma BeginKeeps(s: State)
    requires Inv(s) && Enabled(s, Begin)
    ensures Inv(Apply(s, Begin))
  {
  }

  lemma TickKeeps(s: State, now: int)
    requires Inv(s) && Enabled(s, Tick(now))
    ensures Inv(Apply(s, Tick(now)))
  {
  }

  lemma ReadClockKeeps(s: State, w: nat)
    requires Inv(s) && Enabled(s, ReadClock(w))
    ensures Inv(Apply(s, ReadClock(w)))
  {
  }

  lemma StepKeeps(s: State, e: Event)
    requires Inv(s) && Enabled(s, e)
    ensures Inv(Apply(s, e))
  {
    match e
    case Main(source, created) =>
      match s.pc {
        case Check(_, _) => CheckKeeps(s);
        case Read(_, _) => ReadKeeps(s);
        case Start(_, _) => StartKeeps(s, source);
        case Spawn(_, _, _) => SpawnKeeps(s, created);
      }
    case StoreTime(w) => RecordKeeps(s, w, s.workers[w].phase.t);
    case ClearBusy(w) => ClearKeeps(s, w);
    case Finish(w) =>
      RecordKeeps(s, w, s.clock);
      ClearKeeps(Record(s, w, s.clock), w);
    case Tick(now) => TickKeeps(s, now);
    case Enqueue(t) => EnqueueKeeps(s, t);
    case Begin => BeginKeeps(s);
    case ReadClock(w) => ReadClockKeeps(s, w);
  }

  //
  // The order of owner messages.
  //

  /** The messages of one agent. */
  function For(a: nat, q: seq<Trigger>): seq<Trigger> {
    if q == [] then []
    else
      var n := |q| - 1;
      if q[n].agent == a then For(a, q[..n]) + [q[n]] else For(a, q[..n])
  }

  lemma {:induction false} ForConcat(a: nat, p: seq<Trigger>, q: seq<Trigger>)
    ensures For(a, p + q) == For(a, p) + For(a, q)
  {
    if q == [] {
      assert p + q == p;
    } else {
      assert (p + q)[..|p + q| - 1] == p + q[..|q| - 1];
      ForConcat(a, p, q[..|q| - 1]);
    }
  }

  lemma {:induction false} ForNone(a: nat, q: seq<Trigger>)
    requires forall i | 0 <= i < |q| :: q[i].agent != a
    ensures For(a, q) == []
  {
    if q != [] {
      ForNone(a, q[..|q| - 1]);
    }
  }

  /** Taking the oldest message of an agent, from wherever it is in the queue. */
  lemma ForWithout(a: nat, q: seq<Trigger>, i: nat)
    requires i < |q| && forall j | 0 <= j < i :: q[j].agent != q[i].agent
    ensures For(a, q) == For(a, [q[i]]) + For(a, Without(q, i))
  {
    var before, after := q[..i], q[i + 1..];
    assert q == before + [q[i]] + after;
    ForConcat(a, before + [q[i]], after);
    ForConcat(a, before, [q[i]]);
    ForConcat(a, before, after);
    assert [q[i]][..0] == [];
    if q[i].agent == a {
      ForNone(a, before);
    }
  }

  /** Where more messages of an agent are ahead, those that the pass has gone by wait until the agent is idle. */
  predicate PassedBy(s: State)
    requires Shape(s)
  {
    !s.pc.Polling? && s.pc.owner ==>
      forall j, k | 0 <= j < s.pc.i <= k < |s.queue|
                    && s.queue[k].agent == s.queue[j].agent && s.queue[j].agent !in s.overtaken ::
        && !AgentIdle(s, s.queue[j].agent)
        && (s.pc.Spawn? ==> s.queue[j].agent != Looked(s))
  }

  /** The messages of an agent leave in the order they came. */
  predicate InOrder(s: State, a: nat) {
    For(a, s.accepted) == For(a, s.taken) + For(a, s.queue)
  }

  ghost predicate OrderInv(s: State) {
    && Shape(s) && PassedBy(s)
    && (forall a: nat | a !in s.overtaken :: InOrder(s, a))
    && multiset(s.accepted) == multiset(s.taken) + multiset(s.queue)
  }

  lemma EnqueuedOne(s: State, t: Trigger, a: nat)
    requires InOrder(s, a)
    ensures InOrder(s.(queue := s.queue + [t], accepted := s.accepted + [t]), a)
  {
    ForConcat(a, s.accepted, [t]);
    ForConcat(a, s.queue, [t]);
  }

  lemma EnqueueOrder(s: State, t: Trigger)
    requires Inv(s) && OrderInv(s) && Enabled(s, Enqueue(t))
    ensures OrderInv(Apply(s, Enqueue(t)))
  {
    var s' := Apply(s, Enqueue(t));
    if |s.queue| < QUEUE_MAX {
      forall a: nat | a !in s'.overtaken
        ensures InOrder(s', a)
      {
        EnqueuedOne(s, t, a);
      }
    }
  }

  lemma SpawnPassed(s: State, created: bool)
    requires Inv(s) && PassedBy(s) && s.pc.Spawn? && s.pc.owner
    ensures Shape(MainSpawn(s, created)) && PassedBy(MainSpawn(s, created))
  {
    var s', i := MainSpawn(s, created), s.pc.i;
    SpawnKeeps(s, created);
    forall j, k | 0 <= j < i <= k < |s'.queue|
                  && s'.queue[k].agent == s'.queue[j].agent && s'.queue[j].agent !in s'.overtaken
      ensures !AgentIdle(s', s'.queue[j].agent)
    {
      assert s'.queue[j] == s.queue[j] && s'.queue[k] == s.queue[k + 1];
    }
  }

  lemma TakenInOrder(s: State, i: nat, a: nat)
    requires i < |s.queue| && InOrder(s, a)
    requires s.queue[i].agent == a ==> forall j | 0 <= j < i :: s.queue[j].agent != a
    ensures For(a, s.accepted) == For(a, s.taken + [s.queue[i]]) + For(a, Without(s.queue, i))
  {
    ForConcat(a, s.taken, [s.queue[i]]);
    if s.queue[i].agent == a {
      ForWithout(a, s.queue, i);
    } else {
      OtherWithout(a, s.queue, i);
    }
  }

  lemma SpawnOrder(s: State, created: bool)
    requires Inv(s) && OrderInv(s) && s.pc.Spawn? && s.pc.owner
    ensures OrderInv(MainSpawn(s, created))
  {
    var s', i := MainSpawn(s, created), s.pc.i;
    SpawnPassed(s, created);
    forall a: nat | a !in s'.overtaken
      ensures InOrder(s', a)
    {
      assert InOrder(s, a);
      if s.queue[i].agent == a {
        forall j | 0 <= j < i
          ensures s.queue[j].agent != a
        {
          assert s.queue[i].agent == Looked(s);
        }
      }
      TakenInOrder(s, i, a);
    }
    assert s.queue == s.queue[..i] + [s.queue[i]] + s.queue[i + 1..];
  }

  lemma OtherWithout(a: nat, q: seq<Trigger>, i: nat)
    requires i < |q| && q[i].agent != a
    ensures For(a, [q[i]]) == [] && For(a, q) == For(a, Without(q, i))
  {
    assert q == q[..i] + [q[i]] + q[i + 1..];
    ForConcat(a, q[..i] + [q[i]], q[i + 1..]);
    ForConcat(a, q[..i], [q[i]]);
    ForConcat(a, q[..i], q[i + 1..]);
    ForNone(a, [q[i]]);
  }

  /** Steps that leave the queue and its history alone. */
  lemma QueueUntouched(s: State, s': State)
    requires OrderInv(s) && Shape(s') && PassedBy(s') && s.overtaken <= s'.overtaken
    requires s'.queue == s.queue && s'.accepted == s.accepted && s'.taken == s.taken
    ensures OrderInv(s')
  {
    forall a: nat | a !in s'.overtaken
      ensures InOrder(s', a)
    {
      assert InOrder(s, a);
    }
  }

  lemma MainPassed(s: State, e: Event)
    requires Inv(s) && PassedBy(s) && Enabled(s, e) && e.Main? && !(s.pc.Spawn? && s.pc.owner)
    requires Shape(Apply(s, e))
    ensures PassedBy(Apply(s, e))
  {
  }

  lemma ClearPassed(s: State, w: nat)
    requires Shape(s) && PassedBy(s) && w in s.workers && Shape(Clear(s, w))
    requires s.busy[s.workers[w].agent]
    ensures PassedBy(Clear(s, w))
  {
    var s', a := Clear(s, w), s.workers[w].agent;
    if !s.pc.Polling? && s.pc.owner {
      forall j, k | 0 <= j < s.pc.i <= k < |s.queue|
                    && s.queue[k].agent == s.queue[j].agent && s.queue[j].agent !in s'.overtaken
        ensures !AgentIdle(s', s.queue[j].agent) && (s.pc.Spawn? ==> s.queue[j].agent != Looked(s))
      {
        assert Straddle(s, s.queue[j].agent, j, k);
      }
    }
  }

  lemma RecordPassed(s: State, w: nat, t: int)
    requires Shape(s) && PassedBy(s) && w in s.workers && Shape(Record(s, w, t))
    requires s.busy[s.workers[w].agent]
    ensures PassedBy(Record(s, w, t))
  {
  }

  lemma WorkerPassed(s: State, e: Event)
    requires Inv(s) && PassedBy(s) && Enabled(s, e) && (e.StoreTime? || e.ClearBusy? || e.Finish?)
    ensures Shape(Apply(s, e)) && PassedBy(Apply(s, e))
  {
    StepKeeps(s, e);
    match e
    case StoreTime(w) => RecordPassed(s, w, s.workers[w].phase.t);
    case ClearBusy(w) => ClearPassed(s, w);
    case Finish(w) =>
      RecordKeeps(s, w, s.clock);
      RecordPassed(s, w, s.clock);
      ClearPassed(Record(s, w, s.clock), w);
  }

  lemma QuietPassed(s: State, e: Event)
    requires Inv(s) && PassedBy(s) && Enabled(s, e) && (e.Tick? || e.Begin? || e.ReadClock?)
    requires Shape(Apply(s, e))
    ensures PassedBy(Apply(s, e))
  {
  }

  lemma StepOrder(s: State, e: Event)
    requires Inv(s) && OrderInv(s) && Enabled(s, e)
    ensures OrderInv(Apply(s, e))
  {
    if e.Enqueue? {
      EnqueueOrder(s, e.t);
    } else if e.Main? && s.pc.Spawn? && s.pc.owner {
      SpawnOrder(s, e.created);
    } else {
      var s' := Apply(s, e);
      assert Shape(s') by {
        StepKeeps(s, e);
      }
      if e.Main? {
        MainPassed(s, e);
      } else if e.Tick? || e.Begin? || e.ReadClock? {
        QuietPassed(s, e);
      } else {
        WorkerPassed(s, e);
      }
      QueueUntouched(s, s');
    }
  }

  //
  // Runs.
  //

  ghost predicate IsRun(run: seq<State>, events: seq<Event>) {
    && |run| == |events| + 1 && Init(run[0])
    && forall i | 0 <= i < |events| ::
         Shape(run[i]) && Enabled(run[i], events[i]) && run[i + 1] == Apply(run[i], events[i])
  }

  lemma {:induction false} RunInv(run: seq<State>, events: seq<Event>, n: nat)
    requires IsRun(run, events) && n < |run|
    ensures Inv(run[n]) && OrderInv(run[n])
  {
    if n > 0 {
      RunInv(run, events, n - 1);
      StepKeeps(run[n - 1], events[n - 1]);
      StepOrder(run[n - 1], events[n - 1]);
    }
  }

  /** In every interleaving: one live session per agent, at least GAP seconds after its recorded end. */
  lemma OneSessionAtATime(run: seq<State>, events: seq<Event>, n: nat)
    requires IsRun(run, events) && n < |run|
    ensures forall v, w | v in run[n].workers && w in run[n].workers && v != w ::
              run[n].workers[v].agent != run[n].workers[w].agent
    ensures Spaced(run[n].log)
  {
    RunInv(run, events, n);
  }

  /** Mail and due tasks never start for an agent with a queued owner message. */
  lemma OwnerFirst(run: seq<State>, events: seq<Event>, n: nat, entry: Entry)
    requires IsRun(run, events) && n < |events| && run[n + 1].log == run[n].log + [entry]
    requires entry.Started? && entry.source != Owner
    ensures !Queued(run[n].queue, entry.agent)
  {
    RunInv(run, events, n);
    var s := run[n];
    assert run[n + 1].log[|s.log|] == entry;
  }

  /** Owner messages leave the queue exactly once, in arrival order for every agent that was never overtaken. */
  lemma OwnerOrder(run: seq<State>, events: seq<Event>, n: nat, a: nat)
    requires IsRun(run, events) && n < |run|
    ensures multiset(run[n].accepted) == multiset(run[n].taken) + multiset(run[n].queue)
    ensures a !in run[n].overtaken ==> InOrder(run[n], a)
  {
    RunInv(run, events, n);
  }

  lemma WholeStep(s: State, e: Event)
    requires Inv(s) && Enabled(s, e) && !e.ReadClock?
    requires s.overtaken == {} && forall w | w in s.workers :: s.workers[w].phase == Running
    ensures var s' := Apply(s, e);
            s'.overtaken == {} && forall w | w in s'.workers :: s'.workers[w].phase == Running
  {
  }

  /** Nobody is overtaken when workers finish in one step. */
  lemma {:induction false} WholeFinishes(run: seq<State>, events: seq<Event>, n: nat)
    requires IsRun(run, events) && n < |run|
    requires forall i | 0 <= i < |events| :: !events[i].ReadClock?
    ensures run[n].overtaken == {}
    ensures forall w | w in run[n].workers :: run[n].workers[w].phase == Running
  {
    if n > 0 {
      WholeFinishes(run, events, n - 1);
      RunInv(run, events, n - 1);
      WholeStep(run[n - 1], events[n - 1]);
    }
  }
}
