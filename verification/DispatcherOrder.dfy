/**
 * Exactly when the owner messages of an agent start in the order they came: unless its busy flag is cleared too
 * late, between two of its messages in a loop over the queue.
 */
module DispatcherOrder {
  import opened Dispatcher

  //
  // Arrival numbers.
  //

  predicate Rising(q: seq<Trigger>) {
    forall i, j | 0 <= i < j < |q| :: q[i].num < q[j].num
  }

  /** Messages are numbered as they are accepted, and wait in that order. */
  predicate Numbered(s: State) {
    && Rising(s.accepted) && Rising(s.queue)
    && (forall i | 0 <= i < |s.accepted| :: s.accepted[i].num < |s.accepted|)
    && (forall i | 0 <= i < |s.queue| :: s.queue[i].num < |s.accepted|)
  }

  lemma SpawnNumbered(s: State, created: bool)
    requires Inv(s) && Numbered(s) && s.pc.Spawn? && s.pc.owner
    ensures Numbered(MainSpawn(s, created))
  {
    var q', i := MainSpawn(s, created).queue, s.pc.i;
    assert forall j | 0 <= j < |q'| :: q'[j] == s.queue[if j < i then j else j + 1];
  }

  lemma StepNumbered(s: State, e: Event)
    requires Inv(s) && Numbered(s) && Enabled(s, e)
    ensures Numbered(Apply(s, e))
  {
    if e.Main? && s.pc.Spawn? && s.pc.owner {
      SpawnNumbered(s, e.created);
    } else if !e.Enqueue? {
      assert Apply(s, e).queue == s.queue && Apply(s, e).accepted == s.accepted;
    }
  }

  //
  // Overtaken agents.
  //

  /** In `q`, message `x` of the agent comes before message `y`, which is older. */
  predicate Inversion(q: seq<Trigger>, a: nat, x: nat, y: nat) {
    x < y < |q| && q[x].agent == a && q[y].agent == a && q[y].num < q[x].num
  }

  /** A message of the agent left before an older one. */
  predicate Violated(s: State, a: nat) {
    exists x, y | 0 <= x < |s.taken| && 0 <= y < |s.taken + s.queue| :: Inversion(s.taken + s.queue, a, x, y)
  }

  /** The loop is going to start a message of the agent with an older one behind it. */
  predicate DoomedAt(s: State, a: nat, j: nat, k: nat) {
    && Straddle(s, a, j, k) && a < |s.busy| == |s.last|
    && (AgentIdle(s, a) || (s.pc.Spawn? && Looked(s) == a))
  }

  predicate Doomed(s: State, a: nat) {
    exists j, k | 0 <= j < |s.queue| && 0 <= k < |s.queue| :: DoomedAt(s, a, j, k)
  }

  ghost predicate OvertakenInv(s: State) {
    Numbered(s) && forall a | a in s.overtaken :: Violated(s, a) || Doomed(s, a)
  }

  lemma ViolationStays(s: State, e: Event, a: nat)
    requires Shape(s) && Enabled(s, e) && Violated(s, a)
    ensures Violated(Apply(s, e), a)
  {
    var s' := Apply(s, e);
    var all, all' := s.taken + s.queue, s'.taken + s'.queue;
    var x, y :| 0 <= x < |s.taken| && 0 <= y < |all| && Inversion(all, a, x, y);
    var y' := y;
    if e.Main? && s.pc.Spawn? && s.pc.owner {
      var n := |s.taken|;
      if y == n + s.pc.i {
        y' := n;
      } else if n <= y < n + s.pc.i {
        y' := y + 1;
      }
    }
    assert all'[x] == all[x] && all'[y'] == all[y];
    assert Inversion(all', a, x, y');
  }

  /** The message that is taken leaves an older one behind. */
  lemma DoomTakes(s: State, created: bool, a: nat)
    requires Inv(s) && Numbered(s) && s.pc.Spawn? && s.pc.owner && Looked(s) == a && Doomed(s, a)
    ensures Violated(MainSpawn(s, created), a)
  {
    var j, k :| 0 <= j < |s.queue| && 0 <= k < |s.queue| && DoomedAt(s, a, j, k);
    var s', n := MainSpawn(s, created), |s.taken|;
    var all := s'.taken + s'.queue;
    assert all[n] == s.queue[s.pc.i] && all[n + 1 + j] == s.queue[j];
    assert Inversion(all, a, n, n + 1 + j);
  }

  /** Until then nothing gets in the way: the agent stays idle, and the loop reaches its next message. */
  lemma DoomStays(s: State, e: Event, a: nat, j: nat, k: nat)
    requires Inv(s) && Enabled(s, e) && DoomedAt(s, a, j, k) && k < |s.queue|
    requires !(e.Main? && s.pc.Spawn? && Looked(s) == a)
    ensures Doomed(Apply(s, e), a)
  {
    var s' := Apply(s, e);
    if e.Main? && s.pc.Spawn? {
      assert s'.queue[j] == s.queue[j] && s'.queue[k - 1] == s.queue[k];
      assert DoomedAt(s', a, j, k - 1);
    } else {
      assert DoomedAt(s', a, j, k);
    }
  }

  lemma NewlyOvertaken(s: State, e: Event, a: nat)
    requires Inv(s) && Enabled(s, e) && a in Apply(s, e).overtaken && a !in s.overtaken
    ensures Doomed(Apply(s, e), a)
  {
    var s' := Apply(s, e);
    var j, k :| 0 <= j < |s.queue| && 0 <= k < |s.queue| && Straddle(s, a, j, k);
    assert DoomedAt(s', a, j, k);
  }

  lemma StepOvertaken(s: State, e: Event)
    requires Inv(s) && OvertakenInv(s) && Enabled(s, e)
    ensures OvertakenInv(Apply(s, e))
  {
    var s' := Apply(s, e);
    StepNumbered(s, e);
    forall a | a in s'.overtaken
      ensures Violated(s', a) || Doomed(s', a)
    {
      if a !in s.overtaken {
        NewlyOvertaken(s, e, a);
      } else if Violated(s, a) {
        ViolationStays(s, e, a);
      } else if e.Main? && s.pc.Spawn? && Looked(s) == a {
        DoomTakes(s, e.created, a);
      } else {
        var j, k :| 0 <= j < |s.queue| && 0 <= k < |s.queue| && DoomedAt(s, a, j, k);
        DoomStays(s, e, a, j, k);
      }
    }
  }

  //
  // A violation is a violation of the order.
  //

  lemma {:induction false} ForRising(a: nat, q: seq<Trigger>)
    requires Rising(q)
    ensures Rising(For(a, q)) && forall i | 0 <= i < |For(a, q)| :: For(a, q)[i] in q
  {
    if q != [] {
      ForRising(a, q[..|q| - 1]);
    }
  }

  lemma ForInverted(a: nat, q: seq<Trigger>, x: nat, y: nat)
    requires Inversion(q, a, x, y)
    ensures !Rising(For(a, q))
  {
    var p, m, r := q[..x], q[x + 1..y], q[y + 1..];
    assert q == p + [q[x]] + m + [q[y]] + r;
    ForConcat(a, p + [q[x]] + m + [q[y]], r);
    ForConcat(a, p + [q[x]] + m, [q[y]]);
    ForConcat(a, p + [q[x]], m);
    ForConcat(a, p, [q[x]]);
    ForOne(a, q[x]);
    ForOne(a, q[y]);
    var f := For(a, q);
    var i, j := |For(a, p)|, |For(a, p)| + 1 + |For(a, m)|;
    assert f == For(a, p) + [q[x]] + For(a, m) + [q[y]] + For(a, r);
    assert f[i] == q[x] && f[j] == q[y];
  }

  lemma ForOne(a: nat, t: Trigger)
    requires t.agent == a
    ensures For(a, [t]) == [t]
  {
    assert [t][..0] == [];
  }

  lemma ViolatedIsNotInOrder(s: State, a: nat)
    requires Numbered(s) && Violated(s, a)
    ensures !InOrder(s, a)
  {
    var all := s.taken + s.queue;
    var x, y :| 0 <= x < |s.taken| && 0 <= y < |all| && Inversion(all, a, x, y);
    ForInverted(a, all, x, y);
    ForRising(a, s.accepted);
    ForConcat(a, s.taken, s.queue);
  }

  //
  // Runs.
  //

  lemma {:induction false} RunOvertaken(run: seq<State>, events: seq<Event>, n: nat)
    requires IsRun(run, events) && n < |run|
    ensures OvertakenInv(run[n])
  {
    if n > 0 {
      RunOvertaken(run, events, n - 1);
      RunInv(run, events, n - 1);
      StepOvertaken(run[n - 1], events[n - 1]);
    }
  }

  /**
   * A worker clears the busy flag of the agent when the loop over the queue is between two of the agent's messages,
   * and the time it recorded is at least GAP seconds before the pass began.
   */
  predicate LateClear(s: State, e: Event, a: nat) {
    && e.ClearBusy? && e.w in s.workers && s.workers[e.w].agent == a < |s.last|
    && s.nowS - s.last[a] >= GAP && Between(s, a)
  }

  lemma StepMarks(s: State, e: Event, a: nat)
    requires Inv(s) && Enabled(s, e)
    ensures a in Apply(s, e).overtaken <==> a in s.overtaken || LateClear(s, e, a)
  {
  }

  /** One of the first `n` events was late. */
  ghost predicate WasLate(late: nat -> bool, n: nat) {
    exists i: nat :: i < n && late(i)
  }

  lemma WasLateNext(late: nat -> bool, n: nat)
    ensures WasLate(late, n + 1) <==> WasLate(late, n) || late(n)
  {
  }

  function LateAt(run: seq<State>, events: seq<Event>, a: nat): nat -> bool {
    (i: nat) => i < |run| && i < |events| && LateClear(run[i], events[i], a)
  }

  /** The flag of the model says whether there ever was such an event. */
  lemma {:induction false} OvertakenMeans(run: seq<State>, events: seq<Event>, n: nat, a: nat)
    requires IsRun(run, events) && n < |run|
    ensures a in run[n].overtaken <==> WasLate(LateAt(run, events, a), n)
  {
    if n > 0 {
      OvertakenMeans(run, events, n - 1, a);
      RunInv(run, events, n - 1);
      StepMarks(run[n - 1], events[n - 1], a);
      WasLateNext(LateAt(run, events, a), n - 1);
    }
  }

  /** Between passes, the messages of an agent have kept their order exactly if there was no late clear for it. */
  lemma OrderExactly(run: seq<State>, events: seq<Event>, n: nat, a: nat)
    requires IsRun(run, events) && n < |run| && run[n].pc.Polling?
    ensures InOrder(run[n], a) <==> forall i: nat | i < n :: !LateClear(run[i], events[i], a)
  {
    RunInv(run, events, n);
    RunOvertaken(run, events, n);
    OvertakenMeans(run, events, n, a);
    assert forall i: nat | i < n :: LateAt(run, events, a)(i) == LateClear(run[i], events[i], a);
    if a in run[n].overtaken {
      ViolatedIsNotInOrder(run[n], a);
    }
  }

  /** The worker clears busy less than GAP seconds after the time it recorded. */
  predicate Prompt(s: State, e: Event) {
    e.ClearBusy? && e.w in s.workers && s.workers[e.w].agent < |s.last| ==> s.clock - s.last[s.workers[e.w].agent] < GAP
  }

  /** If every worker does, nobody is overtaken and the order holds for every agent, at every moment. */
  lemma {:induction false} PromptClearsKeepOrder(run: seq<State>, events: seq<Event>, n: nat)
    requires IsRun(run, events) && n < |run|
    requires forall i | 0 <= i < n :: Prompt(run[i], events[i])
    ensures run[n].overtaken == {} && forall a: nat :: InOrder(run[n], a)
  {
    RunInv(run, events, n);
    if n > 0 {
      PromptClearsKeepOrder(run, events, n - 1);
      RunInv(run, events, n - 1);
      assert Prompt(run[n - 1], events[n - 1]);
      NobodyOvertaken(run[n - 1], events[n - 1]);
    }
  }

  lemma NobodyOvertaken(s: State, e: Event)
    requires Inv(s) && Enabled(s, e) && Prompt(s, e) && s.overtaken == {}
    ensures Apply(s, e).overtaken == {}
  {
  }
}
