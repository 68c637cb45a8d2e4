/** Fair runs of the dispatcher: a queued owner message leaves in the end, whatever else goes on. */
module DispatcherFair {
  import opened Dispatcher
  import opened DispatcherOrder

  predicate Steps(s: State, e: Event, s': State) {
    Shape(s) && Enabled(s, e) && s' == Apply(s, e)
  }

  ghost predicate Forever(run: nat -> State, events: nat -> Event) {
    Init(run(0)) && forall k: nat :: Steps(run(k), events(k), run(k + 1))
  }

  //
  // Fairness.
  //

  ghost predicate PassAfter(events: nat -> Event, n: nat) {
    exists m: nat :: n <= m && events(m).Begin?
  }

  ghost predicate GoneAfter(run: nat -> State, n: nat, w: nat) {
    exists m: nat :: n <= m && w !in run(m).workers
  }

  ghost predicate LaterThan(run: nat -> State, n: nat, t: int) {
    exists m: nat :: n <= m && run(m).clock >= t
  }

  /** Passes keep beginning, every worker finishes, and time passes. */
  ghost predicate Fair(run: nat -> State, events: nat -> Event) {
    && (forall n: nat :: PassAfter(events, n))
    && (forall n: nat, w: nat :: GoneAfter(run, n, w))
    && (forall n: nat, t: int :: LaterThan(run, n, t))
  }

  //
  // Invariants of infinite runs.
  //

  /** An agent is busy only while it has a worker, or while the main thread is starting one. */
  predicate BusyWhy(s: State, a: nat) {
    a < |s.busy| && s.busy[a] ==> !NoWorker(s, a) || (s.pc.Spawn? && Looked(s) == a)
  }

  lemma BusyStep(s: State, e: Event, a: nat)
    requires Inv(s) && Enabled(s, e) && BusyWhy(s, a)
    ensures BusyWhy(Apply(s, e), a)
  {
    var s' := Apply(s, e);
    if a < |s.busy| && s.busy[a] && !NoWorker(s, a) {
      var w :| w in s.workers && s.workers[w].agent == a;
      assert w in s'.workers ==> s'.workers[w].agent == a;
    }
    if e.Main? && s.pc.Spawn? && e.created && Looked(s) == a {
      assert s'.workers[s.nextId].agent == a;
    }
  }

  ghost predicate Good(s: State) {
    Inv(s) && OrderInv(s) && OvertakenInv(s) && forall a: nat :: BusyWhy(s, a)
  }

  lemma GoodStep(s: State, e: Event)
    requires Good(s) && Enabled(s, e)
    ensures Good(Apply(s, e))
  {
    StepKeeps(s, e);
    StepOrder(s, e);
    StepOvertaken(s, e);
    forall a: nat
      ensures BusyWhy(Apply(s, e), a)
    {
      BusyStep(s, e, a);
    }
  }

  lemma {:induction false} AllGood(run: nat -> State, events: nat -> Event, n: nat)
    requires Forever(run, events)
    ensures Good(run(n))
  {
    if n > 0 {
      AllGood(run, events, n - 1);
      assert Steps(run(n - 1), events(n - 1), run(n - 1 + 1));
      GoodStep(run(n - 1), events(n - 1));
    }
  }

  //
  // Messages of the same agent ahead of message `t`.
  //

  predicate IsOlder(u: Trigger, t: Trigger) {
    u.agent == t.agent && u.num < t.num
  }

  function Older(q: seq<Trigger>, t: Trigger): nat {
    if q == [] then 0
    else
      var n := |q| - 1;
      if IsOlder(q[n], t) then Older(q[..n], t) + 1 else Older(q[..n], t)
  }

  lemma {:induction false} OlderConcat(p: seq<Trigger>, q: seq<Trigger>, t: Trigger)
    ensures Older(p + q, t) == Older(p, t) + Older(q, t)
  {
    if q == [] {
      assert p + q == p;
    } else {
      assert (p + q)[..|p + q| - 1] == p + q[..|q| - 1];
      OlderConcat(p, q[..|q| - 1], t);
    }
  }

  lemma OlderOne(u: Trigger, t: Trigger)
    ensures Older([u], t) == if IsOlder(u, t) then 1 else 0
  {
    assert [u][..0] == [];
  }

  lemma OlderWithout(q: seq<Trigger>, i: nat, t: Trigger)
    requires i < |q|
    ensures Older(q, t) == Older(Without(q, i), t) + if IsOlder(q[i], t) then 1 else 0
  {
    assert q == q[..i] + [q[i]] + q[i + 1..];
    OlderConcat(q[..i] + [q[i]], q[i + 1..], t);
    OlderConcat(q[..i], [q[i]], t);
    OlderConcat(q[..i], q[i + 1..], t);
    OlderOne(q[i], t);
  }

  /** No step puts a message of the agent ahead of one that waits. */
  lemma OlderFalls(s: State, e: Event, t: Trigger)
    requires Good(s) && Enabled(s, e) && t in s.queue
    ensures Older(Apply(s, e).queue, t) <= Older(s.queue, t)
  {
    if e.Enqueue? {
      OlderConcat(s.queue, [e.t], t);
      OlderOne(e.t, t);
    } else if e.Main? && s.pc.Spawn? && s.pc.owner {
      OlderWithout(s.queue, s.pc.i, t);
    }
  }

  lemma TakenIsGone(q: seq<Trigger>, i: nat)
    requires Rising(q) && i < |q|
    ensures q[i] !in Without(q, i)
  {
    var r := Without(q, i);
    forall g | 0 <= g < |r|
      ensures r[g] != q[i]
    {
      assert r[g] == q[if g < i then g else g + 1];
    }
  }

  /** The loop starts the first message of the agent in the queue. */
  lemma StartsFirst(s: State, f: nat)
    requires Good(s) && f < |s.queue| && s.pc.Spawn? && Looked(s) == s.queue[f].agent
    requires s.queue[f].agent !in s.overtaken
    ensures s.pc.owner && s.pc.i <= f && s.queue[s.pc.i].agent == s.queue[f].agent
  {
    assert Queued(s.queue, s.queue[f].agent);
    assert s.queue[s.pc.i].agent == Looked(s);
  }

  /** Starting the agent takes the message itself or an older one. */
  lemma StartTakes(s: State, created: bool, t: Trigger)
    requires Good(s) && t in s.queue && t.agent !in s.overtaken && s.pc.Spawn? && Looked(s) == t.agent
    ensures t !in MainSpawn(s, created).queue || Older(MainSpawn(s, created).queue, t) < Older(s.queue, t)
  {
    var f :| 0 <= f < |s.queue| && s.queue[f] == t;
    StartsFirst(s, f);
    if f == s.pc.i {
      TakenIsGone(s.queue, f);
    } else {
      assert IsOlder(s.queue[s.pc.i], t);
      OlderWithout(s.queue, s.pc.i, t);
    }
  }

  //
  // A message that never moved on.
  //

  /** The message waits, with `c` older ones of its agent or more. */
  predicate Waits(s: State, t: Trigger, c: nat) {
    t in s.queue && Older(s.queue, t) >= c
  }

  ghost predicate Never(run: nat -> State, a: nat) {
    forall k: nat :: a !in run(k).overtaken
  }

  /** From `n` until a pass begins at `h` nothing changes for message `t`. */
  ghost predicate Stays(run: nat -> State, events: nat -> Event, n: nat, h: nat, t: Trigger) {
    && Forever(run, events) && Never(run, t.agent) && events(h).Begin?
    && forall m: nat | n <= m <= h :: Waits(run(m), t, Older(run(n).queue, t))
  }

  lemma OlderNext(run: nat -> State, events: nat -> Event, m: nat, t: Trigger)
    requires Forever(run, events) && t in run(m).queue
    ensures Older(run(m + 1).queue, t) <= Older(run(m).queue, t)
  {
    AllGood(run, events, m);
    assert Steps(run(m), events(m), run(m + 1));
    OlderFalls(run(m), events(m), t);
  }

  lemma {:induction false} SameOlder(run: nat -> State, events: nat -> Event, n: nat, h: nat, m: nat, t: Trigger)
    requires Stays(run, events, n, h, t) && n <= m <= h
    ensures Older(run(m).queue, t) == Older(run(n).queue, t)
    decreases m
  {
    assert Waits(run(m), t, Older(run(n).queue, t));
    if m > n {
      SameOlder(run, events, n, h, m - 1, t);
      assert Waits(run(m - 1), t, Older(run(n).queue, t));
      OlderNext(run, events, m - 1, t);
    }
  }

  predicate Starting(s: State, a: nat) {
    s.pc.Spawn? && Looked(s) == a
  }

  /** The step that would start the agent does not come. */
  lemma NoStartStep(run: nat -> State, events: nat -> Event, n: nat, h: nat, m: nat, t: Trigger)
    requires Stays(run, events, n, h, t) && n <= m < h
    ensures !(Starting(run(m), t.agent) && events(m).Main?)
  {
    AllGood(run, events, m);
    SameOlder(run, events, n, h, m, t);
    SameOlder(run, events, n, h, m + 1, t);
    assert Steps(run(m), events(m), run(m + 1));
    assert Waits(run(m), t, Older(run(n).queue, t)) && Waits(run(m + 1), t, Older(run(n).queue, t));
    assert t.agent !in run(m).overtaken;
    if Starting(run(m), t.agent) && events(m).Main? {
      StartTakes(run(m), events(m).created, t);
    }
  }

  lemma StartingStep(s: State, e: Event, a: nat)
    requires Inv(s) && Enabled(s, e) && Starting(s, a) && !e.Main?
    ensures Starting(Apply(s, e), a)
  {
  }

  lemma {:induction false} StartingStays(
    run: nat -> State, events: nat -> Event, n: nat, h: nat, m: nat, k: nat, t: Trigger)
    requires Stays(run, events, n, h, t) && n <= m <= k <= h && Starting(run(m), t.agent)
    ensures Starting(run(k), t.agent)
    decreases k
  {
    if m < k {
      StartingStays(run, events, n, h, m, k - 1, t);
      NoStartStep(run, events, n, h, k - 1, t);
      AllGood(run, events, k - 1);
      assert Steps(run(k - 1), events(k - 1), run(k - 1 + 1));
      StartingStep(run(k - 1), events(k - 1), t.agent);
    }
  }

  /** So the main thread is never about to do it: the pass at `h` would not begin. */
  lemma NotStarting(run: nat -> State, events: nat -> Event, n: nat, h: nat, m: nat, t: Trigger)
    requires Stays(run, events, n, h, t) && n <= m <= h
    ensures !Starting(run(m), t.agent)
  {
    assert Steps(run(h), events(h), run(h + 1));
    if Starting(run(m), t.agent) {
      StartingStays(run, events, n, h, m, h, t);
    }
  }

  lemma NeverStarting(run: nat -> State, events: nat -> Event, n: nat, h: nat, t: Trigger)
    requires Stays(run, events, n, h, t)
    ensures Unstarted(run, n, h, t.agent)
  {
    forall m: nat | n <= m <= h
      ensures !Starting(run(m), t.agent)
    {
      NotStarting(run, events, n, h, m, t);
    }
  }

  /** The agent has no worker, it is not busy, and last ended a session at `l`. */
  predicate Calm(s: State, a: nat, l: int) {
    NoWorker(s, a) && a < |s.busy| == |s.last| && !s.busy[a] && s.last[a] == l
  }

  lemma CalmStep(s: State, e: Event, a: nat, l: int)
    requires Good(s) && Enabled(s, e) && Calm(s, a, l) && !Starting(s, a) && !Starting(Apply(s, e), a)
    ensures Calm(Apply(s, e), a, l)
  {
  }

  /** From `n` to `h` the main thread is not about to start the agent. */
  ghost predicate Unstarted(run: nat -> State, n: nat, h: nat, a: nat) {
    forall m: nat | n <= m <= h :: !Starting(run(m), a)
  }

  lemma {:induction false} CalmStays(
    run: nat -> State, events: nat -> Event, m: nat, k: nat, a: nat, l: int)
    requires Forever(run, events) && m <= k && Unstarted(run, m, k, a) && Calm(run(m), a, l)
    ensures Calm(run(k), a, l)
    decreases k
  {
    if m < k {
      CalmStays(run, events, m, k - 1, a, l);
      AllGood(run, events, k - 1);
      assert Steps(run(k - 1), events(k - 1), run(k - 1 + 1));
      CalmStep(run(k - 1), events(k - 1), a, l);
    }
  }

  /** The agent has no worker but `w`. */
  predicate Only(s: State, a: nat, w: nat) {
    forall v | v in s.workers && s.workers[v].agent == a :: v == w
  }

  /** While a worker of the agent lives, it stays the same one. */
  lemma OnlyWorker(s: State, e: Event, a: nat, w: nat)
    requires Good(s) && Enabled(s, e) && !Starting(s, a) && Only(s, a, w)
    ensures Only(Apply(s, e), a, w)
  {
  }

  lemma {:induction false} OnlyWorkerStays(
    run: nat -> State, events: nat -> Event, m: nat, k: nat, a: nat, w: nat)
    requires Forever(run, events) && m <= k && Unstarted(run, m, k, a) && Only(run(m), a, w)
    ensures Only(run(k), a, w)
    decreases k
  {
    if m < k {
      OnlyWorkerStays(run, events, m, k - 1, a, w);
      AllGood(run, events, k - 1);
      assert Steps(run(k - 1), events(k - 1), run(k - 1 + 1));
      OnlyWorker(run(k - 1), events(k - 1), a, w);
    }
  }

  /** The worker of the agent at `n`, or any number if there is none. */
  lemma SomeWorker(s: State, a: nat) returns (w: nat)
    requires Good(s)
    ensures Only(s, a, w)
  {
    w := 0;
    if !NoWorker(s, a) {
      w :| w in s.workers && s.workers[w].agent == a;
    }
  }

  /** When it has finished the agent is calm. */
  lemma BecomesCalm(run: nat -> State, events: nat -> Event, n: nat, m: nat, a: nat, w: nat)
    requires Forever(run, events) && n <= m && Unstarted(run, n, m, a)
    requires Only(run(n), a, w) && w !in run(m).workers && a < |run(m).busy|
    ensures |run(m).busy| == |run(m).last| && Calm(run(m), a, run(m).last[a])
  {
    OnlyWorkerStays(run, events, n, m, a, w);
    AllGood(run, events, m);
    assert BusyWhy(run(m), a);
  }

  /** The loop over the queue comes nearer to the message, at index `f`, and its agent is idle. */
  predicate Near(s: State, t: Trigger, f: nat) {
    && f < |s.queue| && s.queue[f] == t && !s.pc.Polling? && s.pc.owner && s.pc.i <= f
    && t.agent < |s.busy| == |s.last| && AgentIdle(s, t.agent)
  }

  lemma NearStep(s: State, e: Event, t: Trigger, f: nat, l: int) returns (f': nat)
    requires Good(s) && Enabled(s, e) && Near(s, t, f) && !Starting(s, t.agent) && !Starting(Apply(s, e), t.agent)
    requires Calm(Apply(s, e), t.agent, s.last[t.agent])
    ensures Near(Apply(s, e), t, f')
  {
    f' := f;
    if e.Main? && s.pc.Spawn? {
      f' := f - 1;
      assert Apply(s, e).queue[f'] == s.queue[f];
    }
  }

  lemma {:induction false} NearStays(
    run: nat -> State, events: nat -> Event, n: nat, h: nat, m: nat, k: nat, t: Trigger, l: int, f: nat)
    returns (g: nat)
    requires Stays(run, events, n, h, t) && n <= m <= k <= h && Calm(run(m), t.agent, l) && Near(run(m), t, f)
    ensures Near(run(k), t, g)
    decreases k
  {
    g := f;
    NeverStarting(run, events, n, h, t);
    if m < k {
      g := NearStays(run, events, n, h, m, k - 1, t, l, f);
      CalmStays(run, events, m, k - 1, t.agent, l);
      CalmStays(run, events, m, k, t.agent, l);
      assert !Starting(run(k - 1), t.agent) && !Starting(run(k), t.agent);
      AllGood(run, events, k - 1);
      assert Steps(run(k - 1), events(k - 1), run(k - 1 + 1));
      g := NearStep(run(k - 1), events(k - 1), t, g, l);
    }
  }

  /** A pass that began with the agent idle does not end with the message in the queue. */
  lemma PassTakes(
    run: nat -> State, events: nat -> Event, n: nat, h: nat, m: nat, b: nat, t: Trigger, l: int)
    requires Forever(run, events) && Never(run, t.agent) && n <= m <= b < h && events(b).Begin? && events(h).Begin?
    requires run(b).clock >= l + GAP
    requires Stays(run, events, n, h, t) ==> Calm(run(m), t.agent, l)
    ensures !Stays(run, events, n, h, t)
  {
    assert Steps(run(h), events(h), run(h + 1));
    if Stays(run, events, n, h, t) {
      var f := PassBegins(run, events, n, h, m, b, t, l);
      NeverStarting(run, events, n, h, t);
      CalmStays(run, events, m, b + 1, t.agent, l);
      var g := NearStays(run, events, n, h, b + 1, h, t, l, f);
    }
  }

  /** After the worker has finished and time has passed, such a pass begins and ends. */
  lemma CannotStay(run: nat -> State, events: nat -> Event, n: nat, t: Trigger) returns (h: nat)
    requires Forever(run, events) && Fair(run, events) && Never(run, t.agent)
    ensures n <= h && !Stays(run, events, n, h, t) && events(h).Begin?
  {
    AllGood(run, events, n);
    var w := SomeWorker(run(n), t.agent);
    assert GoneAfter(run, n, w);
    var m: nat :| n <= m && w !in run(m).workers;
    var l := if t.agent < |run(m).last| then run(m).last[t.agent] else 0;
    assert LaterThan(run, m, l + GAP);
    var c: nat :| m <= c && run(c).clock >= l + GAP;
    assert PassAfter(events, c);
    var b: nat :| c <= b && events(b).Begin?;
    assert PassAfter(events, b + 1);
    h :| b + 1 <= h && events(h).Begin?;
    ClockGrows(run, events, c, b);
    if Stays(run, events, n, h, t) {
      NeverStarting(run, events, n, h, t);
      assert Waits(run(m), t, Older(run(n).queue, t));
      var i :| 0 <= i < |run(m).queue| && run(m).queue[i] == t;
      AllGood(run, events, m);
      BecomesCalm(run, events, n, m, t.agent, w);
    }
    PassTakes(run, events, n, h, m, b, t, l);
  }

  lemma {:induction false} ClockGrows(run: nat -> State, events: nat -> Event, m: nat, k: nat)
    requires Forever(run, events) && m <= k
    ensures run(m).clock <= run(k).clock
    decreases k
  {
    if m < k {
      ClockGrows(run, events, m, k - 1);
      assert Steps(run(k - 1), events(k - 1), run(k - 1 + 1));
    }
  }

  lemma PassBegins(
    run: nat -> State, events: nat -> Event, n: nat, h: nat, m: nat, b: nat, t: Trigger, l: int) returns (f: nat)
    requires Stays(run, events, n, h, t) && n <= m <= b < h && Calm(run(m), t.agent, l)
    requires run(b).clock >= l + GAP && events(b).Begin?
    ensures Near(run(b + 1), t, f)
  {
    NeverStarting(run, events, n, h, t);
    CalmStays(run, events, m, b, t.agent, l);
    assert Steps(run(b), events(b), run(b + 1));
    assert Waits(run(b), t, Older(run(n).queue, t));
    f :| 0 <= f < |run(b).queue| && run(b).queue[f] == t;
  }

  //
  // The result.
  //

  ghost predicate LeavesAfter(run: nat -> State, n: nat, t: Trigger) {
    exists m: nat :: n <= m && t !in run(m).queue
  }

  lemma {:induction false} LeavesWithin(run: nat -> State, events: nat -> Event, n: nat, t: Trigger)
    requires Forever(run, events) && Fair(run, events) && Never(run, t.agent)
    ensures LeavesAfter(run, n, t)
    decreases Older(run(n).queue, t)
  {
    var h := CannotStay(run, events, n, t);
    var m: nat :| n <= m <= h && !Waits(run(m), t, Older(run(n).queue, t));
    if t in run(m).queue {
      LeavesWithin(run, events, m, t);
      var k: nat :| m <= k && t !in run(k).queue;
    }
  }

  /** Every queued owner message leaves in every fair run in which its agent is not overtaken. */
  lemma QueuedLeaves(run: nat -> State, events: nat -> Event, n: nat, t: Trigger)
    requires Forever(run, events) && Fair(run, events)
    requires forall k: nat :: !LateClear(run(k), events(k), t.agent)
    ensures LeavesAfter(run, n, t)
  {
    forall k: nat
      ensures t.agent !in run(k).overtaken
    {
      NeverOvertaken(run, events, k, t.agent);
    }
    LeavesWithin(run, events, n, t);
  }

  lemma {:induction false} NeverOvertaken(run: nat -> State, events: nat -> Event, n: nat, a: nat)
    requires Forever(run, events) && forall k: nat :: !LateClear(run(k), events(k), a)
    ensures a !in run(n).overtaken
  {
    if n > 0 {
      NeverOvertaken(run, events, n - 1, a);
      AllGood(run, events, n - 1);
      assert Steps(run(n - 1), events(n - 1), run(n - 1 + 1));
      StepMarks(run(n - 1), events(n - 1), a);
    }
  }
}
