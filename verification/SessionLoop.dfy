/** The loop of a session, with the state that src/agent.c keeps in `session_state_t`. */
module SessionLoop {
  import opened Options
  import opened Bytes
  import opened History
  import opened Exchange
  import opened Messenger
  import opened Repeats
  import opened Session
  import opened SessionChain
  import opened SessionBounds
  import opened SessionLaws
  import Provider
  import Trim

  class Harness {
    const setup: Setup
    const trig: Trigger
    const world: World
    const conv: Conversation

    var builderRetryUsed: bool
    var hubRetryUsed: bool
    var emptyRetryUsed: bool
    var pluginDone: bool
    var pluginFailed: bool
    var sentMessage: bool
    var listedAgents: bool
    var blockedRepeats: nat
    var sentTo: seq<string>
    var notice: Text
    var table: seq<Entry>
    var answer: Option<Text>

    ghost var ran: multiset<Key>         // calls that passed the repeat check
    ghost var sends: seq<Outgoing>       // messages to inboxes
    ghost var requests: seq<Request>     // model calls

    constructor (s: Setup, t: Trigger, w: World, c: Conversation)
      ensures setup == s && trig == t && world == w && conv == c
      ensures Now() == Shot(c.messages, FRESH, None) && requests == []
    {
      setup, trig, world, conv := s, t, w, c;
      builderRetryUsed, hubRetryUsed, emptyRetryUsed := false, false, false;
      pluginDone, pluginFailed, sentMessage, listedAgents := false, false, false, false;
      blockedRepeats, sentTo, notice, table, answer := 0, [], [], [], None;
      ran, sends, requests := multiset{}, [], [];
    }

    ghost function Snapshot(): Flags
      reads this
    {
      Flags(builderRetryUsed, hubRetryUsed, emptyRetryUsed, pluginDone, pluginFailed, sentMessage, listedAgents)
    }

    ghost function State(): Core
      reads this
    {
      Core(Snapshot(), table, ran, blockedRepeats, sends, sentTo, notice)
    }

    ghost function Now(): Shot
      reads this, conv
    {
      Shot(conv.messages, State(), answer)
    }

    //
    // Tools.
    //

    /** The send_message branch of run_tool. */
    method SendTool(input: Text, written: string -> bool) returns (result: Result)
      modifies this`sends, this`sentTo, this`sentMessage
      ensures (State(), result) == AfterSend(setup, trig, world, old(State()), input, written)
    {
      if world.json.problem(input).Some? {
        return Result(world.json.problem(input).value, true);
      }
      var to := world.json.to(input);
      var name := Resolve(setup.agents, to);
      var content := world.json.content(input);
      var fails: bool;
      if name.Some? && name.value in trig.requesters {
        fails := SendFails(setup.agents, setup.name, name, written);
        sends := sends + Attempts(setup.agents, setup.name, name, true, content, written);
      } else {
        fails := SendFails(setup.agents, setup.name, to, written);
        sends := sends + Attempts(setup.agents, setup.name, to, false, content, written);
      }
      if !fails {
        sentMessage := true;
        if name.Some? && |sentTo| < SENT_MAX {
          sentTo := sentTo + [name.value];
        }
      }
      result := Result(setup.wording(if fails then NotSent else MessageSent), fails);
    }

    /** The repeat check of run_tool. */
    method CheckRepeat(call: Provider.ToolCall) returns (blocked: bool)
      modifies this`table, this`ran, this`blockedRepeats
      ensures blocked == !Allowed(setup, world, old(State()), call)
      ensures State() == Checked(setup, world, old(State()), call)
    {
      var key := KeyOf(world, call);
      table, blocked := RepeatedCall(table, key, if setup.builder && setup.kind(call.name) == ReadFile then 1 else 2);
      if blocked {
        blockedRepeats := blockedRepeats + 1;
      } else {
        ran := ran + multiset{key};
      }
    }

    /** run_tool; `outcome` is what the tool returns if it is executed. */
    method RunTool(call: Provider.ToolCall, outcome: Result, written: string -> bool) returns (result: Result)
      modifies this`table, this`ran, this`blockedRepeats, this`sends, this`sentTo, this`sentMessage
      ensures (State(), result) == Called(setup, trig, world, old(State()), call, outcome, written)
    {
      if call.name !in setup.offered {
        return Result(setup.wording(UnknownTool(call.name)), true);
      }
      if !world.json.isObject(call.input) {
        return Result(setup.wording(BadArguments(call.name)), true);
      }
      var blocked := CheckRepeat(call);
      if blocked {
        return Result(setup.wording(Repeated(call.name)), true);
      }
      if setup.kind(call.name) == SendMessage {
        result := SendTool(call.input, written);
      } else {
        result := outcome;
      }
    }

    /** What the loop notes about a call that has returned. */
    method NoteResult(call: Provider.ToolCall, result: Result)
      modifies this`pluginDone, this`pluginFailed, this`notice, this`listedAgents
      ensures State() == Noted(setup, old(State()), call, result)
    {
      if setup.kind(call.name) == CreatePlugin {
        pluginFailed := result.error;
        if !result.error {
          pluginDone := true;
          notice := result.text;
        }
      }
      if setup.kind(call.name) == ListAgents {
        listedAgents := true;
      }
    }

    /** The calls of one reply, in order: each gets its own result, or an error. */
    method RunTools(calls: seq<Provider.ToolCall>, turn: nat) returns (results: seq<Result>)
      modifies this`table, this`ran, this`blockedRepeats, this`sends, this`sentTo, this`sentMessage,
               this`pluginDone, this`pluginFailed, this`notice, this`listedAgents
      ensures (State(), results) == AllCalls(setup, trig, world, old(State()), calls, turn)
      ensures |results| == |calls| && CallsOk(setup, world, turn, old(State()), calls, State(), results)
    {
      ghost var c := State();
      ghost var step := CallsOf(setup, trig, world, turn);
      results := [];
      for i := 0 to |calls|
        invariant (State(), results) == Fold(step, c, calls[..i])
      {
        assert calls[..i + 1][..i] == calls[..i];
        ghost var before := State();
        var result := RunTool(calls[i], world.tool(turn, i), world.written(turn, i));
        NoteResult(calls[i], result);
        assert (State(), result) == step(before, calls[i], i);
        results := results + [result];
      }
      assert calls[..|calls|] == calls;
      AllCallsOk(setup, trig, world, c, calls, turn);
    }

    //
    // Replies without calls.
    //

    /** A plugin the reply is still to deliver. */
    predicate Building()
      reads this
    {
      setup.builder && !pluginDone
    }

    /** after_text_reply, on the path of a builder: 1 for another turn, 0 for the end, -1 for a failure. */
    method AfterBuilderText(ghost text: Text, compiled: Option<Result>) returns (next: int)
      requires Building()
      modifies this`builderRetryUsed, this`pluginDone, this`notice, conv
      ensures next == Verdict(setup, trig, old(Snapshot()), text, compiled)
      ensures Turned(Now(), next == 1, next < 0) == AfterText(setup, trig, old(Now()), text, compiled)
    {
      if compiled.Some? {
        if !compiled.value.error {
          pluginDone := true;
          notice := compiled.value.text;
          return 0;
        }
        if !builderRetryUsed {
          conv.messages := conv.messages + [UserText(setup.wording(BuilderFailed(compiled.value.text)))];
          builderRetryUsed := true;
          return 1;
        }
      } else {
        if !trig.mail && !pluginFailed {
          return 0;
        }
        if !builderRetryUsed {
          conv.messages := conv.messages + [UserText(setup.wording(BuilderNudge))];
          builderRetryUsed := true;
          return 1;
        }
      }
      notice := setup.wording(Stalled);
      return -1;
    }

    /** after_text_reply: another turn only for a nudge, and each nudge is given once. */
    method AfterTextReply(text: Text, compiled: Option<Result>) returns (next: int)
      modifies this`builderRetryUsed, this`hubRetryUsed, this`emptyRetryUsed, this`pluginDone, this`notice, conv
      ensures Turned(Now(), next == 1, next < 0) == AfterText(setup, trig, old(Now()), text, compiled)
      ensures next == Verdict(setup, trig, old(Snapshot()), text, compiled)
    {
      if setup.builder && !pluginDone {
        next := AfterBuilderText(text, compiled);
        return;
      }
      if setup.hub && listedAgents && !sentMessage && !hubRetryUsed {
        conv.messages := conv.messages + [UserText(setup.wording(HubNudge))];
        hubRetryUsed := true;
        return 1;
      }
      if text == [] && !emptyRetryUsed {
        conv.messages := conv.messages + [UserText(setup.wording(EmptyNudge))];
        emptyRetryUsed := true;
        return 1;
      }
      return 0;
    }

    //
    // Turns.
    //

    /** The turn of a reply with calls, its results, and a trim if the agent has a budget. */
    method AnswerCalls(reply: Reply, turn: nat) returns (ghost results: seq<Result>)
      requires reply == world.reply(turn) && reply.Reply? && reply.calls != []
      modifies this`table, this`ran, this`blockedRepeats, this`sends, this`sentTo, this`sentMessage,
               this`pluginDone, this`pluginFailed, this`notice, this`listedAgents, conv
      ensures (State(), results) == AllCalls(setup, trig, world, old(State()), reply.calls, turn)
      ensures conv.messages
           == Shortened(setup, old(conv.messages) + Said(reply.content) + [ResultTurn(reply.calls, results)])
      ensures conv.messages != [] && Shows(conv.messages[|conv.messages| - 1], reply.calls, results)
    {
      ghost var was := conv.messages;
      conv.messages := conv.messages + Said(reply.content);
      var shown := RunTools(reply.calls, turn);
      conv.messages := conv.messages + [ResultTurn(reply.calls, shown)];
      if Trims(setup) {
        Trim.TrimHistory(conv, setup.budget, setup.elided);
      }
      ToolTurnShows(setup, was, reply.content, reply.calls, shown, conv.messages);
      results := shown;
    }

    /** A reply with calls: the session goes on unless it is stuck. */
    method TakeTools(reply: Reply, turn: nat) returns (next: bool)
      requires reply == world.reply(turn) && reply.Reply? && reply.calls != []
      modifies this`table, this`ran, this`blockedRepeats, this`sends, this`sentTo, this`sentMessage,
               this`pluginDone, this`pluginFailed, this`notice, this`listedAgents, conv
      ensures Turned(Now(), next, !next) == ToolTurn(setup, trig, world, old(Now()), turn)
      ensures conv.messages != []
      ensures Shows(
                conv.messages[|conv.messages| - 1], reply.calls,
                AllCalls(setup, trig, world, old(State()), reply.calls, turn).1)
    {
      ghost var was := Now();
      ghost var results := AnswerCalls(reply, turn);
      ToolTurnIs(setup, trig, world, was, turn, State(), results, conv.messages);
      next := blockedRepeats < MAX_BLOCKED;
      if !next {
        notice := setup.wording(Stuck);
      }
    }

    /** A reply without calls. */
    method TakeText(reply: Reply, turn: nat, text: Text) returns (next: int)
      requires reply == world.reply(turn) && reply.Reply? && reply.calls == [] && text == TextOf(reply.content)
      modifies this`builderRetryUsed, this`hubRetryUsed, this`emptyRetryUsed, this`pluginDone, this`notice, conv
      ensures Turned(Now(), next == 1, next < 0) == TextTurn(setup, trig, world, old(Now()), turn)
    {
      conv.messages := conv.messages + Said(reply.content);
      if reply.refusal {
        notice := setup.wording(Refusal);
        return 0;
      }
      next := AfterTextReply(text, world.compiled(turn));
    }

    method NoteText(text: Text)
      modifies this`answer
      ensures Now() == Heard(old(Now()), text)
    {
      if text != [] {
        answer := Some(text);
      }
    }

    /** One turn of the loop: a model call, and what follows from it. */
    method Turn(turn: nat, ghost afterText: bool) returns (next: bool, failed: bool)
      modifies this, conv
      ensures requests == old(requests) + [Request(old(conv.messages), old(blockedRepeats), afterText)]
      ensures Turned(Now(), next, failed) == TurnStep(setup, trig, world, old(Now()), turn)
    {
      requests := requests + [Request(conv.messages, blockedRepeats, afterText)];
      var reply := world.reply(turn);
      if reply.NoReply? {
        notice := setup.wording(LlmError(reply.error));
        return false, true;
      }
      var text := TextOf(reply.content);
      NoteText(text);
      if reply.calls != [] {
        next := TakeTools(reply, turn);
        failed := !next;
      } else {
        var more := TakeText(reply, turn, text);
        next, failed := more == 1, more < 0;
      }
    }

    /** After `turn` turns from the history `first`; `next` and `failed` are about the last of them. */
    ghost predicate AtTurn(step: Step, first: seq<Message>, turn: nat, next: bool, failed: bool)
      reads this, conv
    {
      OnChain(step, world, first, turn, Turned(Now(), next, failed), requests)
    }

    /** The chain takes the turns of this session. */
    ghost predicate TakesTurns(step: Step) {
      forall a, turn {:trigger TurnStep(setup, trig, world, a, turn)} ::
        step(a, turn) == TurnStep(setup, trig, world, a, turn)
    }

    /** A turn of the loop, in the chain of turns. */
    method NextTurn(ghost step: Step, ghost first: seq<Message>, turn: nat, ghost was: bool)
      returns (next: bool, failed: bool)
      requires AtTurn(step, first, turn, true, was) && TakesTurns(step)
      modifies this, conv
      ensures AtTurn(step, first, turn + 1, next, failed)
    {
      ghost var now, rs := Turned(Now(), true, was), requests;
      next, failed := Turn(turn, turn > 0 && TextOnly(world.reply(turn - 1)));
      NextOnChain(step, world, first, turn, now, rs, requests[|rs|]);
    }

    /** The state and the model calls after the chain of turns up to the one that ends it, or to the last allowed. */
    ghost predicate LoopDone(step: Step, first: seq<Message>, failed: bool)
      reads this, conv
    {
      var n := TurnsTaken(setup, step, first);
      var last := TurnAt(step, first, n - 1);
      && requests == Requests(step, world, first, n)
      && Now() == LoopEnd(setup, last) && failed == last.failed
    }

    /** The notice of a session that has no turn left. */
    method EndLoop(ghost step: Step, ghost first: seq<Message>, ghost turn: nat, next: bool, failed: bool)
      requires AtTurn(step, first, turn, next, failed) && 1 <= turn <= Turns(setup) && (next ==> turn == Turns(setup))
      modifies this`notice
      ensures LoopDone(step, first, failed)
    {
      assert !next ==> !GoesOn(step, first)(turn - 1);
      TurnsAre(setup, step, first, turn);
      if next {
        notice := setup.wording(OutOfTurns(Turns(setup)));
      }
    }

    /** The turns, up to the one that ends the session or the last allowed. */
    method TakeTurns(ghost step: Step, ghost first: seq<Message>) returns (turn: nat, next: bool, failed: bool)
      requires AtTurn(step, first, 0, true, false) && TakesTurns(step)
      modifies this, conv
      ensures AtTurn(step, first, turn, next, failed) && 1 <= turn <= Turns(setup) && (next ==> turn == Turns(setup))
    {
      turn, next, failed := 0, true, false;
      while next && turn < Turns(setup)
        invariant turn <= Turns(setup) && AtTurn(step, first, turn, next, failed) && (turn == 0 ==> next)
        decreases Turns(setup) - turn
      {
        next, failed := NextTurn(step, first, turn, failed);
        turn := turn + 1;
      }
    }

    /** The loop of agent_run_session. */
    method Loop() returns (failed: bool)
      requires Now() == Shot(conv.messages, FRESH, None) && requests == []
      modifies this, conv
      ensures LoopDone(TurnsOf(setup, trig, world), old(conv.messages), failed)
    {
      ghost var step, first := TurnsOf(setup, trig, world), conv.messages;
      ChainStarts(step, world, first);
      var turn, next;
      turn, next, failed := TakeTurns(step, first);
      EndLoop(step, first, turn, next, failed);
    }

    //
    // The answer at the end.
    //

    /** One requester in deliver_answer. */
    method DeliverTo(r: string, text: Text)
      modifies this`sends
      ensures sends == if r in sentTo then old(sends) else old(sends) + LateAnswer(setup, world, text)(r)
    {
      var done := false;
      for j := 0 to |sentTo|
        invariant done == (r in sentTo[..j])
      {
        assert sentTo[..j + 1] == sentTo[..j] + [sentTo[j]];
        done := done || sentTo[j] == r;
      }
      assert sentTo[..|sentTo|] == sentTo;
      if !done {
        sends := sends + Attempts(setup.agents, setup.name, Some(r), true, text, world.delivered);
      }
    }

    /** deliver_answer: whoever asked and was not messaged by the model gets the text of the answer now. */
    method DeliverAnswer(failed: bool) returns (text: Text)
      modifies this`sends
      ensures text == AnswerText(notice, answer, setup.wording(if failed then FailedAnswer else NoAnswer))
      ensures sends == Delivered(LateAnswer(setup, world, text), old(State()), trig.requesters)
    {
      ghost var c := State();
      text := AnswerText(notice, answer, setup.wording(if failed then FailedAnswer else NoAnswer));
      for i := 0 to |trig.requesters|
        invariant sends == Delivered(LateAnswer(setup, world, text), c, trig.requesters[..i])
      {
        assert trig.requesters[..i + 1][..i] == trig.requesters[..i];
        DeliverTo(trig.requesters[i], text);
      }
      assert trig.requesters[..|trig.requesters|] == trig.requesters;
    }

    /** The end of a session: answers are delivered if there are requesters. */
    method Finish(failed: bool)
      modifies this`sends
      ensures State() == Finished(setup, trig, world, old(Now()), failed)
    {
      if trig.requesters != [] {
        var text := DeliverAnswer(failed);
      }
    }
  }

  /** The state, what it follows from, and the model calls after `turn` turns of the chain. */
  ghost predicate OnChain(
    step: Step, w: World, first: seq<Message>, turn: nat, now: Turned, requests: seq<Request>)
  {
    && now.shot == ShotAt(step, first, turn) && requests == Requests(step, w, first, turn)
    && WentOn(step, first, turn)
    && if turn == 0 then now.next else now == TurnAt(step, first, turn - 1)
  }

  lemma ChainStarts(step: Step, w: World, first: seq<Message>)
    ensures OnChain(step, w, first, 0, Turned(Shot(first, FRESH, None), true, false), [])
  {
  }

  lemma NextOnChain(
    step: Step, w: World, first: seq<Message>, turn: nat, now: Turned, requests: seq<Request>, r: Request)
    requires OnChain(step, w, first, turn, now, requests) && now.next
    requires r == RequestAt(step, w, first, turn)
    ensures OnChain(step, w, first, turn + 1, step(now.shot, turn), requests + [r])
  {
    assert turn > 0 ==> GoesOn(step, first)(turn - 1);
  }

  /** A turn with calls, from what the calls leave. */
  lemma ToolTurnIs(
    s: Setup, t: Trigger, w: World, a: Shot, turn: nat, c: Core, results: seq<Result>, history: seq<Message>)
    requires w.reply(turn).Reply? && (c, results) == AllCalls(s, t, w, a.core, w.reply(turn).calls, turn)
    requires history
          == Shortened(s, a.history + Said(w.reply(turn).content) + [ResultTurn(w.reply(turn).calls, results)])
    ensures var next := c.blocked < MAX_BLOCKED;
            var end := if next then c else c.(notice := s.wording(Stuck));
            Turned(a.(history := history, core := end), next, !next) == ToolTurn(s, t, w, a, turn)
  {
  }

  lemma LengthIs(max: nat, next: nat -> bool, i: nat, n: nat)
    requires i < n <= max && (forall k: nat | i <= k < n - 1 :: next(k)) && (n == max || !next(n - 1))
    ensures Length(max, next, i) == n
    decreases n - i
  {
    if i + 1 < n {
      LengthIs(max, next, i + 1, n);
    }
  }

  lemma TurnsAre(s: Setup, step: Step, first: seq<Message>, n: nat)
    requires 1 <= n <= Turns(s) && WentOn(step, first, n) && (n == Turns(s) || !GoesOn(step, first)(n - 1))
    ensures TurnsTaken(s, step, first) == n
  {
    var next := GoesOn(step, first);
    assert forall k: nat | 0 <= k < n - 1 :: next(k);
    LengthIs(Turns(s), next, 0, n);
  }
}
