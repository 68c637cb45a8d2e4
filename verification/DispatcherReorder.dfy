/**
 * Why the order of owner messages needs whole finishes: in a run of the dispatcher where a worker stalls between
 * its two stores, a later message starts before an earlier one.
 */
module DispatcherReorder {
  import opened Dispatcher

  ghost predicate Leads(s: State, events: seq<Event>, s': State)
    decreases |events|
  {
    if events == [] then s == s'
    else Shape(s) && Enabled(s, events[0]) && Leads(Apply(s, events[0]), events[1..], s')
  }

  lemma {:induction false} LeadsConcat(s: State, e1: seq<Event>, m: State, e2: seq<Event>, s': State)
    requires Leads(s, e1, m) && Leads(m, e2, s')
    ensures Leads(s, e1 + e2, s')
    decreases |e1|
  {
    if e1 == [] {
      assert e1 + e2 == e2;
    } else {
      LeadsConcat(Apply(s, e1[0]), e1[1..], m, e2, s');
      assert (e1 + e2)[1..] == e1[1..] + e2;
    }
  }

  lemma Leads3(s: State, a: Event, b: Event, c: Event)
    requires Shape(s) && Enabled(s, a)
    requires Shape(Apply(s, a)) && Enabled(Apply(s, a), b)
    requires Shape(Apply(Apply(s, a), b)) && Enabled(Apply(Apply(s, a), b), c)
    ensures Leads(s, [a, b, c], Apply(Apply(Apply(s, a), b), c))
  {
    var s1 := Apply(s, a);
    var s2 := Apply(s1, b);
    var s3 := Apply(s2, c);
    assert [c][1..] == [] && Leads(s2, [c], s3);
    assert [b, c][1..] == [c] && Leads(s1, [b, c], s3);
    assert [a, b, c][1..] == [b, c];
  }

  const STEP := Main(Nothing, true)

  /** Agent 0 idle, then started, then with two more messages waiting when its worker has recorded second 10. */
  const FRESH := State(10, 10, Polling, [], [false], [-GAP], map[], 0, {}, [], [], [])
  const ONE := Trigger(0, "one", 0)
  const TWO := Trigger(0, "two", 1)
  const THREE := Trigger(0, "three", 2)
  const STARTED := State(
    10, 10, Check(true, 0), [], [true], [-GAP], map[0 := Worker(0, Running)], 1, {},
    [ONE], [ONE], [Started(0, Owner, 10)])
  const STALLED := State(
    10, 10, Polling, [TWO, THREE], [true], [10], map[0 := Worker(0, Recorded)], 1, {},
    [ONE, TWO, THREE], [ONE], [Started(0, Owner, 10), Ended(0, 10)])

  lemma FreshToStarted()
    ensures Leads(FRESH, [Enqueue(ONE), Begin, STEP] + [STEP, STEP, STEP], STARTED)
  {
    var m := FRESH.(queue := [ONE], accepted := [ONE], pc := Read(true, 0));
    assert FRESH.queue + [ONE] == [ONE];
    Leads3(FRESH, Enqueue(ONE), Begin, STEP);
    ReadToStarted(m);
    LeadsConcat(FRESH, [Enqueue(ONE), Begin, STEP], m, [STEP, STEP, STEP], STARTED);
  }

  lemma ReadToStarted(m: State)
    requires m == FRESH.(queue := [ONE], accepted := [ONE], pc := Read(true, 0))
    ensures Leads(m, [STEP, STEP, STEP], STARTED)
  {
    Leads3(m, STEP, STEP, STEP);
    assert [false][0 := true] == [true];
    var s := Apply(Apply(m, STEP), STEP);
    assert s == m.(busy := [true], pc := Spawn(true, 0, Owner));
    assert Without([ONE], 0) == [] && m.taken + [ONE] == [ONE];
    assert m.log + [Started(0, Owner, 10)] == [Started(0, Owner, 10)];
  }

  const WAITING := STARTED.(pc := Polling)
  const CLOCKED := WAITING.(
    queue := [TWO, THREE], accepted := [ONE, TWO, THREE], workers := map[0 := Worker(0, Timed(10))])

  lemma StartedToWaiting()
    ensures Leads(STARTED, [STEP, STEP, STEP], WAITING)
  {
    Leads3(STARTED, STEP, STEP, STEP);
  }

  lemma WaitingToClocked()
    ensures Leads(WAITING, [Enqueue(TWO), Enqueue(THREE), ReadClock(0)], CLOCKED)
  {
    assert [] + [TWO] + [THREE] == [TWO, THREE] && [ONE] + [TWO] + [THREE] == [ONE, TWO, THREE];
    assert map[0 := Worker(0, Running)][0 := Worker(0, Timed(10))] == map[0 := Worker(0, Timed(10))];
    Leads3(WAITING, Enqueue(TWO), Enqueue(THREE), ReadClock(0));
  }

  lemma ClockedToStalled()
    ensures Leads(CLOCKED, [StoreTime(0)], STALLED)
  {
    assert [StoreTime(0)][1..] == [] && [-GAP][0 := 10] == [10];
    assert map[0 := Worker(0, Timed(10))][0 := Worker(0, Recorded)] == map[0 := Worker(0, Recorded)];
    assert [Started(0, Owner, 10)] + [Ended(0, 10)] == [Started(0, Owner, 10), Ended(0, 10)];
  }

  lemma StartedToStalled()
    ensures Leads(
              STARTED, [STEP, STEP, STEP] + ([Enqueue(TWO), Enqueue(THREE), ReadClock(0)] + [StoreTime(0)]), STALLED)
  {
    StartedToWaiting();
    WaitingToClocked();
    ClockedToStalled();
    LeadsConcat(WAITING, [Enqueue(TWO), Enqueue(THREE), ReadClock(0)], CLOCKED, [StoreTime(0)], STALLED);
    LeadsConcat(
      STARTED, [STEP, STEP, STEP], WAITING, [Enqueue(TWO), Enqueue(THREE), ReadClock(0)] + [StoreTime(0)], STALLED);
  }

  /** A pass at second 20 goes by "two"; then the worker clears busy. */
  const PASSED := STALLED.(clock := 20, nowS := 20, pc := Check(true, 1))
  const LATE := PASSED.(busy := [false], workers := map[], overtaken := {0}, pc := Start(true, 1))

  lemma StalledToPassed()
    ensures Leads(STALLED, [Tick(20), Begin, STEP], PASSED)
  {
    Leads3(STALLED, Tick(20), Begin, STEP);
  }

  lemma PassedToLate()
    ensures Leads(PASSED, [ClearBusy(0), STEP, STEP], LATE)
  {
    assert [true][0 := false] == [false] && map[0 := Worker(0, Recorded)] - {0} == map[] && {} + {0} == {0};
    assert Straddle(PASSED, 0, 0, 1);
    Leads3(PASSED, ClearBusy(0), STEP, STEP);
  }

  lemma LateToReordered() returns (s: State)
    ensures Leads(LATE, [STEP, STEP], s)
    ensures s.accepted == [ONE, TWO, THREE] && s.taken == [ONE, THREE] && s.queue == [TWO]
  {
    s := Apply(Apply(LATE, STEP), STEP);
    assert [STEP, STEP][1..] == [STEP] && [STEP][1..] == [];
    assert Without([TWO, THREE], 1) == [TWO] && [ONE] + [THREE] == [ONE, THREE];
  }

  /** "three" starts before "two". */
  lemma StalledToReordered() returns (s: State)
    ensures Leads(STALLED, [Tick(20), Begin, STEP] + ([ClearBusy(0), STEP, STEP] + [STEP, STEP]), s)
    ensures s.accepted == [ONE, TWO, THREE] && s.taken == [ONE, THREE] && s.queue == [TWO]
  {
    StalledToPassed();
    PassedToLate();
    s := LateToReordered();
    LeadsConcat(PASSED, [ClearBusy(0), STEP, STEP], LATE, [STEP, STEP], s);
    LeadsConcat(STALLED, [Tick(20), Begin, STEP], PASSED, [ClearBusy(0), STEP, STEP] + [STEP, STEP], s);
  }

  /** With the two stores apart, a later message of an agent can start before an earlier one. */
  lemma SplitStoresReorder() returns (s: State, events: seq<Event>)
    ensures Init(FRESH) && Leads(FRESH, events, s) && !InOrder(s, 0)
  {
    FreshToStarted();
    StartedToStalled();
    s := StalledToReordered();
    var e1 := [Enqueue(ONE), Begin, STEP] + [STEP, STEP, STEP];
    var e2 := [STEP, STEP, STEP] + ([Enqueue(TWO), Enqueue(THREE), ReadClock(0)] + [StoreTime(0)]);
    var e3 := [Tick(20), Begin, STEP] + ([ClearBusy(0), STEP, STEP] + [STEP, STEP]);
    LeadsConcat(FRESH, e1, STARTED, e2, STALLED);
    LeadsConcat(FRESH, e1 + e2, STALLED, e3, s);
    events := e1 + e2 + e3;
    AllForZero(s.accepted);
    AllForZero(s.taken);
    AllForZero(s.queue);
    assert (s.taken + s.queue)[1] == THREE != s.accepted[1];
  }

  lemma {:induction false} AllForZero(q: seq<Trigger>)
    requires forall i | 0 <= i < |q| :: q[i].agent == 0
    ensures For(0, q) == q
  {
    if q != [] {
      AllForZero(q[..|q| - 1]);
    }
  }
}
