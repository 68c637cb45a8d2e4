/** Mail and due tasks: what the loop over the agents starts, and that it comes to start them. */
module DispatcherMail {
  import opened Dispatcher
  import opened DispatcherFair

  //
  // Single starts and ends.
  //

  /** `s'` is `s` after the session of worker `w` has ended at second `t`: it is on record, and its agent is free. */
  predicate EndedAt(s: State, s': State, w: nat, t: int)
    requires w in s.workers && s.workers[w].agent < |s.busy| == |s.last|
  {
    var a := s.workers[w].agent;
    && s'.log == s.log + [Ended(a, t)] && s'.last == s.last[a := t] && s'.busy == s.busy[a := false]
    && s'.workers == s.workers - {w} && s'.queue == s.queue && s'.pc == s.pc
  }

  /** All at once. */
  lemma FinishIsRecorded(s: State, w: nat)
    requires Inv(s) && Enabled(s, Finish(w))
    ensures EndedAt(s, Apply(s, Finish(w)), w, s.clock)
  {
    var a := s.workers[w].agent;
    assert s.workers[w := Worker(a, Recorded)] - {w} == s.workers - {w};
  }

  /** A worker that is done reads the clock. */
  lemma ClockIsRead(s: State, w: nat)
    requires Inv(s) && Enabled(s, ReadClock(w))
    ensures var s' := Apply(s, ReadClock(w));
            && Shape(s') && Enabled(s', StoreTime(w)) && s' == s.(workers := s'.workers)
            && s'.workers == s.workers[w := Worker(s.workers[w].agent, Timed(s.clock))]
  {
  }

  /** The time that the worker has read is recorded, and then its agent is free. */
  lemma EndIsRecorded(s: State, w: nat)
    requires Inv(s) && Enabled(s, StoreTime(w))
    ensures var s' := Apply(s, StoreTime(w));
            && Shape(s') && Enabled(s', ClearBusy(w)) && EndedAt(s, Apply(s', ClearBusy(w)), w, s.workers[w].phase.t)
  {
    var a := s.workers[w].agent;
    assert s.workers[w := Worker(a, Recorded)] - {w} == s.workers - {w};
  }

  /** An owner message whose agent is idle is taken, and its session starts now. */
  lemma OwnerIsStarted(s: State, i: nat, source: Source, c: bool, next: Source)
    requires Inv(s) && s.pc == Start(true, i)
    ensures i < |s.queue| && Enabled(s, Main(source, c))
    ensures var s1 := Apply(s, Main(source, c));
            && Shape(s1) && Enabled(s1, Main(next, true))
            && var s2 := Apply(s1, Main(next, true));
               && s2.log == s.log + [Started(s.queue[i].agent, Owner, s.clock)]
               && s2.taken == s.taken + [s.queue[i]] && s2.queue == s.queue[..i] + s.queue[i + 1..]
               && s2.busy == s.busy[s.queue[i].agent := true]
  {
    StepKeeps(s, Main(source, c));
  }

  /** An idle agent without a queued message gets a session for what is found, now. */
  lemma FoundIsStarted(s: State, i: nat, source: Source, c: bool, next: Source)
    requires Inv(s) && s.pc == Start(false, i) && !Queued(s.queue, i) && (source == Mail || source == Task)
    ensures Enabled(s, Main(source, c))
    ensures var s1 := Apply(s, Main(source, c));
            && Shape(s1) && Enabled(s1, Main(next, true)) && s1.log == s.log && s1.clock == s.clock
            && var s2 := Apply(s1, Main(next, true));
               && s2.log == s.log + [Started(i, source, s.clock)] && s2.busy == s.busy[i := true]
               && (exists w :: w in s2.workers && w !in s.workers && s2.workers[w] == Worker(i, Running))
               && s2.queue == s.queue && s2.pc == Check(false, i + 1)
  {
    var s1 := Apply(s, Main(source, c));
    StepKeeps(s, Main(source, c));
    var s2 := Apply(s1, Main(next, true));
    assert s2.workers[s.nextId] == Worker(i, Running);
  }

  /** With a queued message, or when nothing is found, the loop goes on to the next agent and nothing changes. */
  lemma OthersAreSkipped(s: State, i: nat, source: Source, c: bool)
    requires Inv(s) && s.pc == Start(false, i) && (Queued(s.queue, i) || source == Nothing)
    ensures Enabled(s, Main(source, c)) && Apply(s, Main(source, c)) == s.(pc := Check(false, i + 1))
  {
  }

  /** A thread that cannot be created leaves the agent as it was, and no trace in the log. */
  lemma FailedStart(s: State, i: nat, source: Source, c: bool, next: Source)
    requires Inv(s) && s.pc == Start(false, i) && !Queued(s.queue, i) && (source == Mail || source == Task)
    ensures Enabled(s, Main(source, c))
    ensures var s1 := Apply(s, Main(source, c));
            && Shape(s1) && Enabled(s1, Main(next, false))
            && Apply(s1, Main(next, false)) == s.(pc := Check(false, i + 1))
  {
    StepKeeps(s, Main(source, c));
    assert s.busy[i := true][i := false] == s.busy;
  }

  //
  // Runs.
  //

  /** Whenever the main thread looks for a trigger for the agent it finds `source`, and its threads can be created. */
  predicate Finds(s: State, e: Event, a: nat, source: Source) {
    && (s.pc == Start(false, a) && e.Main? ==> e.source == source)
    && (Starting(s, a) && e.Main? ==> e.created)
    && !Queued(s.queue, a)
  }

  ghost predicate Offered(run: nat -> State, events: nat -> Event, n: nat, a: nat, source: Source) {
    && Forever(run, events) && (source == Mail || source == Task) && a < |run(n).busy|
    && forall k: nat | n <= k :: Finds(run(k), events(k), a, source)
  }

  /** The step after `k` logs a session of the agent for `source`. */
  predicate StartsAt(run: nat -> State, k: nat, a: nat, source: Source) {
    run(k + 1).log == run(k).log + [Started(a, source, run(k).clock)]
  }

  ghost predicate NoneStarts(run: nat -> State, n: nat, h: nat, a: nat, source: Source) {
    forall k: nat | n <= k < h :: !StartsAt(run, k, a, source)
  }

  predicate StartingFor(s: State, a: nat, source: Source) {
    Starting(s, a) ==> s.pc == Spawn(false, a, source)
  }

  lemma StartingForStep(s: State, e: Event, a: nat, source: Source)
    requires Good(s) && Enabled(s, e) && Finds(s, e, a, source) && (source == Mail || source == Task)
    requires StartingFor(s, a, source) && !(Starting(s, a) && e.Main?)
    ensures StartingFor(Apply(s, e), a, source) && (Starting(s, a) ==> Starting(Apply(s, e), a))
  {
    if Starting(s, a) {
      StartingStep(s, e, a);
    }
    assert s.pc.Start? && s.pc.owner && Looked(s) == a ==> s.queue[s.pc.i].agent == a;
  }

  lemma StartingLogs(s: State, e: Event, a: nat, source: Source)
    requires Good(s) && Enabled(s, e) && Finds(s, e, a, source)
    requires StartingFor(s, a, source) && Starting(s, a) && e.Main?
    ensures Apply(s, e).log == s.log + [Started(a, source, s.clock)]
  {
  }

  lemma {:induction false} StartsForSource(
    run: nat -> State, events: nat -> Event, n: nat, b: nat, k: nat, h: nat, a: nat, source: Source)
    requires Offered(run, events, n, a, source) && n <= b <= k <= h && events(b).Begin?
    requires NoneStarts(run, b, h, a, source)
    ensures StartingFor(run(k), a, source)
    ensures forall j: nat | b <= j <= k && Starting(run(j), a) :: Starting(run(k), a)
    decreases k
  {
    assert Steps(run(b), events(b), run(b + 1));
    if b < k {
      var m := k - 1;
      StartsForSource(run, events, n, b, m, h, a, source);
      AllGood(run, events, m);
      assert Steps(run(m), events(m), run(m + 1));
      assert Finds(run(m), events(m), a, source) && !StartsAt(run, m, a, source);
      if Starting(run(m), a) && events(m).Main? {
        StartingLogs(run(m), events(m), a, source);
      }
      StartingForStep(run(m), events(m), a, source);
    }
  }

  lemma NoStartMeansUnstarted(
    run: nat -> State, events: nat -> Event, n: nat, b: nat, h: nat, a: nat, source: Source)
    requires Offered(run, events, n, a, source) && n <= b <= h && events(b).Begin? && events(h).Begin?
    requires NoneStarts(run, b, h, a, source)
    ensures Unstarted(run, b, h, a)
  {
    assert Steps(run(h), events(h), run(h + 1));
    StartsForSource(run, events, n, b, h, h, a, source);
  }

  /** The pass has not gone by the agent, which is idle. */
  predicate Ahead(s: State, a: nat) {
    && !s.pc.Polling? && (s.pc.owner || s.pc.i <= a)
    && a < |s.busy| == |s.last| && AgentIdle(s, a)
  }

  lemma AheadStep(s: State, e: Event, a: nat, source: Source)
    requires Good(s) && Enabled(s, e) && Ahead(s, a) && Finds(s, e, a, source) && (source == Mail || source == Task)
    requires !Starting(s, a) && !Starting(Apply(s, e), a) && Calm(Apply(s, e), a, s.last[a])
    ensures Ahead(Apply(s, e), a)
  {
  }

  lemma AheadNext(
    run: nat -> State, events: nat -> Event, n: nat, k: nat, a: nat, source: Source, l: int)
    requires Offered(run, events, n, a, source) && n <= k && Ahead(run(k), a)
    requires Calm(run(k), a, l) && Calm(run(k + 1), a, l) && !Starting(run(k), a) && !Starting(run(k + 1), a)
    ensures Ahead(run(k + 1), a)
  {
    AllGood(run, events, k);
    assert Steps(run(k), events(k), run(k + 1));
    assert Finds(run(k), events(k), a, source);
    AheadStep(run(k), events(k), a, source);
  }

  lemma {:induction false} AheadStays(
    run: nat -> State, events: nat -> Event, n: nat, m: nat, k: nat, a: nat, source: Source, l: int)
    requires Offered(run, events, n, a, source) && n <= m <= k && Unstarted(run, m, k, a)
    requires Calm(run(m), a, l) && Ahead(run(m), a)
    ensures Ahead(run(k), a)
    decreases k
  {
    if m < k {
      var j := k - 1;
      AheadStays(run, events, n, m, j, a, source, l);
      CalmStays(run, events, m, j, a, l);
      CalmStays(run, events, m, k, a, l);
      assert !Starting(run(j), a) && !Starting(run(k), a);
      AheadNext(run, events, n, j, a, source, l);
    }
  }

  lemma {:induction false} SameAgents(run: nat -> State, events: nat -> Event, n: nat, k: nat)
    requires Forever(run, events) && n <= k
    ensures |run(k).busy| == |run(n).busy|
    decreases k
  {
    if n < k {
      SameAgents(run, events, n, k - 1);
      AllGood(run, events, k - 1);
      assert Steps(run(k - 1), events(k - 1), run(k - 1 + 1));
    }
  }

  /** A pass that begins with the agent idle starts it. */
  lemma PassStarts(
    run: nat -> State, events: nat -> Event, n: nat, b0: nat, m: nat, b: nat, h: nat, a: nat, source: Source, w: nat,
    c: nat)
    requires Offered(run, events, n, a, source) && n <= b0 <= m <= c <= b < h
    requires events(b0).Begin? && events(b).Begin? && events(h).Begin?
    requires Only(run(b0), a, w) && w !in run(m).workers
    requires a < |run(m).last| ==> run(c).clock >= run(m).last[a] + GAP
    ensures !NoneStarts(run, b0, h, a, source)
  {
    assert Steps(run(h), events(h), run(h + 1)) && Steps(run(b), events(b), run(b + 1));
    if NoneStarts(run, b0, h, a, source) {
      NoStartMeansUnstarted(run, events, n, b0, h, a, source);
      SameAgents(run, events, n, m);
      BecomesCalm(run, events, b0, m, a, w);
      var l := run(m).last[a];
      CalmStays(run, events, m, b, a, l);
      CalmStays(run, events, m, b + 1, a, l);
      ClockGrows(run, events, c, b);
      AheadStays(run, events, n, b + 1, h, a, source, l);
    }
  }

  ghost predicate StartsAfter(run: nat -> State, n: nat, a: nat, source: Source) {
    exists k: nat :: n <= k && StartsAt(run, k, a, source)
  }

  /**
   * In every fair run: an agent for which mail, or a due task, is found from some point on, and no owner message
   * waits, gets a session for it.
   */
  lemma FoundStarts(run: nat -> State, events: nat -> Event, n: nat, a: nat, source: Source)
    requires Offered(run, events, n, a, source) && Fair(run, events)
    ensures StartsAfter(run, n, a, source)
  {
    assert PassAfter(events, n);
    var b0: nat :| n <= b0 && events(b0).Begin?;
    AllGood(run, events, b0);
    var w := SomeWorker(run(b0), a);
    assert GoneAfter(run, b0, w);
    var m: nat :| b0 <= m && w !in run(m).workers;
    var l := if a < |run(m).last| then run(m).last[a] else 0;
    assert LaterThan(run, m, l + GAP);
    var c: nat :| m <= c && run(c).clock >= l + GAP;
    assert PassAfter(events, c);
    var b: nat :| c <= b && events(b).Begin?;
    assert PassAfter(events, b + 1);
    var h: nat :| b + 1 <= h && events(h).Begin?;
    PassStarts(run, events, n, b0, m, b, h, a, source, w, c);
    var k: nat :| b0 <= k < h && StartsAt(run, k, a, source);
  }
}
