/**
 * The answer protocol between the sessions of src/agent.c and the inboxes of src/messenger.c: once sessions
 * only answer those who asked, all inboxes drain.
 */
module Answers {
  import opened Options
  import opened Bytes
  import opened Messenger

  /** One agent: its inbox, and the answers that its running session is going to send. */
  datatype Seat = Seat(box: seq<Mail>, live: Option<seq<nat>>)

  type State = seq<Seat>

  datatype Event =
    | Receive(a: nat, plan: seq<nat>)        // a mail session starts and empties the inbox
    | Answer(a: nat, text: Text, ok: bool)   // it sends its next answer, which may fail
    | End(a: nat)

  /** The session of agent `a` takes the mail `box`: it writes to nobody but the requesters. */
  predicate PlanOk(agents: seq<string>, box: seq<Mail>, plan: seq<nat>) {
    forall i | 0 <= i < |plan| :: plan[i] < |agents| && agents[plan[i]] in Requesters(box)
  }

  predicate Enabled(agents: seq<string>, s: State, e: Event) {
    && |s| == |agents| && e.a < |s|
    && match e
       case Receive(a, plan) => s[a].live.None? && s[a].box != [] && PlanOk(agents, s[a].box, plan)
       case Answer(a, _, _) => s[a].live.Some? && s[a].live.value != [] && s[a].live.value[0] < |s|
       case End(a) => s[a].live.Some? && s[a].live.value == []
  }

  function Put(s: State, to: nat, m: Mail): State
    requires to < |s|
  {
    s[to := s[to].(box := s[to].box + [m])]
  }

  function Next(agents: seq<string>, s: State, e: Event): State
    requires Enabled(agents, s, e)
  {
    match e
    case Receive(a, plan) => s[a := Seat([], Some(plan))]
    case Answer(a, text, ok) =>
      var plan := s[a].live.value;
      var s' := s[a := s[a].(live := Some(plan[1..]))];
      if ok then Put(s', plan[0], Mail(agents[a], true, text)) else s'
    case End(a) => s[a := s[a].(live := None)]
  }

  predicate Drained(s: State) {
    forall i | 0 <= i < |s| :: s[i] == Seat([], None)
  }

  //
  // The measure.
  //

  function RequestsIn(box: seq<Mail>): nat {
    if box == [] then 0
    else
      var n := |box| - 1;
      if box[n].reply then RequestsIn(box[..n]) else RequestsIn(box[..n]) + 1
  }

  function Requests(seat: Seat): nat {
    RequestsIn(seat.box)
  }

  function Work(seat: Seat): nat {
    2 * |seat.box| + if seat.live.Some? then 1 + 3 * |seat.live.value| else 0
  }

  function Sum(s: State, f: Seat -> nat): nat {
    if s == [] then 0 else Sum(s[..|s| - 1], f) + f(s[|s| - 1])
  }

  lemma {:induction false} SumUpdate(s: State, i: nat, x: Seat, f: Seat -> nat)
    requires i < |s|
    ensures Sum(s[i := x], f) == Sum(s, f) - f(s[i]) + f(x)
  {
    var n := |s| - 1;
    if i == n {
      assert s[i := x][..n] == s[..n];
    } else {
      assert s[i := x][..n] == s[..n][i := x];
      SumUpdate(s[..n], i, x, f);
    }
  }

  lemma {:induction false} NoRequests(box: seq<Mail>)
    requires RequestsIn(box) == 0
    ensures Requesters(box) == []
  {
    if box != [] {
      NoRequests(box[..|box| - 1]);
    }
  }

  lemma NothingToSend(agents: seq<string>, box: seq<Mail>, plan: seq<nat>)
    requires PlanOk(agents, box, plan) && RequestsIn(box) == 0
    ensures plan == []
  {
    if plan != [] {
      assert agents[plan[0]] in Requesters(box);
      NoRequests(box);
    }
  }

  lemma ReplyIsNoRequest(box: seq<Mail>, m: Mail)
    requires m.reply
    ensures RequestsIn(box + [m]) == RequestsIn(box)
  {
    assert (box + [m])[..|box|] == box;
  }

  /** Lexicographic: pending requests, then pending mail, answers to send and sessions to end. */
  predicate Less(s': State, s: State) {
    || Sum(s', Requests) < Sum(s, Requests)
    || (Sum(s', Requests) == Sum(s, Requests) && Sum(s', Work) < Sum(s, Work))
  }

  lemma ReceiveDecreases(agents: seq<string>, s: State, e: Event)
    requires Enabled(agents, s, e) && e.Receive?
    ensures Less(Next(agents, s, e), s)
  {
    var x := Seat([], Some(e.plan));
    SumUpdate(s, e.a, x, Requests);
    SumUpdate(s, e.a, x, Work);
    if RequestsIn(s[e.a].box) == 0 {
      NothingToSend(agents, s[e.a].box, e.plan);
    }
  }

  lemma AnswerDecreases(agents: seq<string>, s: State, e: Event)
    requires Enabled(agents, s, e) && e.Answer?
    ensures Less(Next(agents, s, e), s)
  {
    var plan := s[e.a].live.value;
    var x := s[e.a].(live := Some(plan[1..]));
    SumUpdate(s, e.a, x, Requests);
    SumUpdate(s, e.a, x, Work);
    if e.ok {
      var s', to, m := s[e.a := x], plan[0], Mail(agents[e.a], true, e.text);
      var y := s'[to].(box := s'[to].box + [m]);
      ReplyIsNoRequest(s'[to].box, m);
      SumUpdate(s', to, y, Requests);
      SumUpdate(s', to, y, Work);
    }
  }

  /** Every step of the protocol makes the measure smaller. */
  lemma StepDecreases(agents: seq<string>, s: State, e: Event)
    requires Enabled(agents, s, e)
    ensures Less(Next(agents, s, e), s)
  {
    match e
    case Receive(_, _) => ReceiveDecreases(agents, s, e);
    case Answer(_, _, _) => AnswerDecreases(agents, s, e);
    case End(a) =>
      SumUpdate(s, a, s[a].(live := None), Requests);
      SumUpdate(s, a, s[a].(live := None), Work);
  }

  //
  // Runs.
  //

  /** Answers stay within the agents that exist. */
  predicate Sound(agents: seq<string>, s: State) {
    && |s| == |agents|
    && forall a | 0 <= a < |s| && s[a].live.Some? ::
         forall i | 0 <= i < |s[a].live.value| :: s[a].live.value[i] < |s|
  }

  lemma SoundStep(agents: seq<string>, s: State, e: Event)
    requires Sound(agents, s) && Enabled(agents, s, e)
    ensures Sound(agents, Next(agents, s, e))
  {
  }

  /** The next thing that the first agent with mail or a session can do. */
  function SomeEvent(s: State, a: nat): Event
    requires a < |s|
  {
    if s[a].live.None? then Receive(a, [])
    else if s[a].live.value == [] then End(a)
    else Answer(a, [], true)
  }

  ghost predicate Stuck(agents: seq<string>, s: State) {
    forall e :: !Enabled(agents, s, e)
  }

  /** A state in which nothing can happen has no mail and no session: the protocol never gets stuck before. */
  lemma StuckIsDrained(agents: seq<string>, s: State)
    requires Sound(agents, s)
    ensures Stuck(agents, s) <==> Drained(s)
  {
    if Stuck(agents, s) {
      forall a | 0 <= a < |s|
        ensures s[a] == Seat([], None)
      {
        assert !Enabled(agents, s, SomeEvent(s, a));
      }
    }
  }

  /** The event happens, unless no event can. */
  ghost predicate Step(agents: seq<string>, s: State, e: Event, s': State) {
    if Enabled(agents, s, e) then s' == Next(agents, s, e) else Stuck(agents, s)
  }

  /** Steps follow each other as long as one is possible. */
  ghost predicate IsRun(agents: seq<string>, run: nat -> State, events: nat -> Event) {
    Sound(agents, run(0)) && forall k: nat :: Step(agents, run(k), events(k), run(k + 1))
  }

  lemma {:induction false} DrainsFrom(agents: seq<string>, run: nat -> State, events: nat -> Event, k: nat)
    requires IsRun(agents, run, events) && Sound(agents, run(k))
    ensures exists j: nat :: Drained(run(j))
    decreases Sum(run(k), Requests), Sum(run(k), Work)
  {
    assert Step(agents, run(k), events(k), run(k + 1));
    if Enabled(agents, run(k), events(k)) {
      SoundStep(agents, run(k), events(k));
      StepDecreases(agents, run(k), events(k));
      DrainsFrom(agents, run, events, k + 1);
    } else {
      StuckIsDrained(agents, run(k));
    }
  }

  /** In every run, whatever the order of the steps, all inboxes end up empty and all sessions finished. */
  lemma InboxesDrain(agents: seq<string>, run: nat -> State, events: nat -> Event)
    requires IsRun(agents, run, events)
    ensures exists j: nat :: Drained(run(j))
  {
    DrainsFrom(agents, run, events, 0);
  }

  //
  // What becomes of the mail.
  //

  /** The first `n` steps of a run all happen. */
  ghost predicate Happens(agents: seq<string>, run: nat -> State, events: nat -> Event, n: nat) {
    forall k: nat | k < n :: Enabled(agents, run(k), events(k)) && run(k + 1) == Next(agents, run(k), events(k))
  }

  /** What one step puts into the inbox of `b`. */
  function Arriving(agents: seq<string>, s: State, e: Event, b: nat): seq<Mail> {
    if Enabled(agents, s, e) && e.Answer? && e.ok && s[e.a].live.value[0] == b then [Mail(agents[e.a], true, e.text)]
    else []
  }

  /** What one step takes out of it. */
  function Leaving(agents: seq<string>, s: State, e: Event, b: nat): seq<Mail> {
    if Enabled(agents, s, e) && e.Receive? && e.a == b then s[b].box else []
  }

  function Arrived(agents: seq<string>, run: nat -> State, events: nat -> Event, b: nat, n: nat): seq<Mail> {
    if n == 0 then []
    else Arrived(agents, run, events, b, n - 1) + Arriving(agents, run(n - 1), events(n - 1), b)
  }

  function Taken(agents: seq<string>, run: nat -> State, events: nat -> Event, b: nat, n: nat): seq<Mail> {
    if n == 0 then []
    else Taken(agents, run, events, b, n - 1) + Leaving(agents, run(n - 1), events(n - 1), b)
  }

  lemma MailMoves(agents: seq<string>, s: State, e: Event, b: nat)
    requires Enabled(agents, s, e) && b < |s|
    ensures var s' := Next(agents, s, e);
            |s'| == |s| && Leaving(agents, s, e, b) + s'[b].box == s[b].box + Arriving(agents, s, e, b)
  {
  }

  lemma Swap(taken: seq<Mail>, leaving: seq<Mail>, box: seq<Mail>, was: seq<Mail>, more: seq<Mail>)
    requires leaving + box == was + more
    ensures (taken + leaving) + box == (taken + was) + more
  {
    assert (taken + leaving) + box == taken + (leaving + box);
    assert (taken + was) + more == taken + (was + more);
  }

  /** No mail is lost, doubled or moved: what was taken and what waits is what was there and the answers since. */
  lemma {:induction false} MailIsConserved(
    agents: seq<string>, run: nat -> State, events: nat -> Event, b: nat, n: nat)
    requires Happens(agents, run, events, n) && b < |run(0)|
    ensures |run(n)| == |run(0)|
    ensures Taken(agents, run, events, b, n) + run(n)[b].box == run(0)[b].box + Arrived(agents, run, events, b, n)
  {
    if n > 0 {
      var k := n - 1;
      MailIsConserved(agents, run, events, b, k);
      assert Enabled(agents, run(k), events(k)) && run(k + 1) == Next(agents, run(k), events(k));
      MailMoves(agents, run(k), events(k), b);
      Swap(
        Taken(agents, run, events, b, k), Leaving(agents, run(k), events(k), b), run(n)[b].box, run(k)[b].box,
        Arriving(agents, run(k), events(k), b));
      assert run(0)[b].box + Arrived(agents, run, events, b, n)
          == (run(0)[b].box + Arrived(agents, run, events, b, k)) + Arriving(agents, run(k), events(k), b);
    }
  }
}
