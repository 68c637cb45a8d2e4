/** What every session keeps: the bounds, the pairing and the answers, as conclusions about its chain of turns. */
module SessionBounds {
  import opened Options
  import opened Bytes
  import opened History
  import opened Exchange
  import opened Messenger
  import opened Repeats
  import opened Session
  import opened SessionChain
  import Provider
  import Trim

  //
  // Tool calls.
  //

  /** The table and the messages agree with what the session did. */
  ghost predicate CoreOk(s: Setup, t: Trigger, c: Core) {
    && |c.sentTo| <= SENT_MAX
    && TableOk(c.table, c.ran, RunLimit(s))
    && SendsOk(s.agents, t.requesters, c.sends, c.sentTo)
  }

  lemma OwnerAttempt(agents: seq<string>, from: string, reply: bool, text: Text, written: string -> bool)
    requires GoodRegistry(agents) && OWNER in agents
    ensures Attempts(agents, from, Some(OWNER), reply, text, written) == []
  {
    var k :| 0 <= k < |agents| && agents[k] == OWNER;
    MatchSelf(agents, k, OWNER);
  }

  /** An answer to a registered requester keeps the books, and if it does not fail the requester may be noted. */
  lemma AnswerOk(s: Setup, t: Trigger, c: Core, r: string, text: Text, written: string -> bool)
    requires GoodRegistry(s.agents) && CoreOk(s, t, c) && r in s.agents && r in t.requesters
    ensures var more := Attempts(s.agents, s.name, Some(r), true, text, written);
            && SendsOk(s.agents, t.requesters, c.sends + more, c.sentTo)
            && (r != OWNER && !SendFails(s.agents, s.name, Some(r), written) ==> Reached(c.sends + more, r))
            && (Due(s, r) ==> Answered(c.sends + more, r))
  {
    var more := Attempts(s.agents, s.name, Some(r), true, text, written);
    if r == OWNER {
      OwnerAttempt(s.agents, s.name, true, text, written);
    } else {
      KnownAttempt(s.agents, s.name, r, true, text, written);
      if r != s.name {
        assert more[0] == Outgoing(r, true, text, false, written(r));
        ReachedMore(c.sends, more, r);
      }
    }
    SendsMore(s.agents, t.requesters, c.sends, c.sentTo, more);
  }

  lemma SentKeeps(s: Setup, t: Trigger, w: World, c: Core, input: Text, written: string -> bool)
    requires GoodRegistry(s.agents) && CoreOk(s, t, c)
    ensures CoreOk(s, t, AfterSend(s, t, w, c, input, written).0)
  {
    var (to, reply) := Target(s, t, w, input);
    if reply {
      AnswerOk(s, t, c, to.value, w.json.content(input), written);
    } else {
      OtherAttempt(s.agents, t.requesters, s.name, to, w.json.content(input), written);
      SendsMore(
        s.agents, t.requesters, c.sends, c.sentTo,
        Attempts(s.agents, s.name, to, false, w.json.content(input), written));
    }
  }

  /**
   * What send_message writes is marked as an answer exactly if it goes to a requester, and carries the content.
   * Only a message that went out is noted.
   */
  lemma SendMarked(s: Setup, t: Trigger, w: World, c: Core, input: Text, written: string -> bool)
    ensures var (c', result) := AfterSend(s, t, w, c, input, written);
            var name := Resolve(s.agents, w.json.to(input));
            && (forall i | |c.sends| <= i < |c'.sends| ::
                  c'.sends[i].reply == (name.Some? && name.value in t.requesters)
                  && c'.sends[i].text == w.json.content(input))
            && (result.error ==> c'.sentTo == c.sentTo && c'.flags == c.flags)
            && (!result.error ==>
                  c'.flags.sentMessage && (name.Some? && |c.sentTo| < SENT_MAX ==> name.value in c'.sentTo))
  {
  }

  lemma CheckedKeeps(s: Setup, t: Trigger, w: World, c: Core, call: Provider.ToolCall)
    requires CoreOk(s, t, c)
    ensures CoreOk(s, t, Checked(s, w, c, call))
  {
    AttemptKeeps(c.table, c.ran, RunLimit(s), KeyOf(w, call));
  }

  lemma OneCallKeeps(s: Setup, t: Trigger, w: World, c: Core, call: Provider.ToolCall, turn: nat, i: nat)
    requires GoodRegistry(s.agents) && CoreOk(s, t, c)
    ensures CoreOk(s, t, OneCall(s, t, w, c, call, turn, i).0)
  {
    CheckedKeeps(s, t, w, c, call);
    if Runnable(s, w, call) && Allowed(s, w, c, call) && s.kind(call.name) == SendMessage {
      SentKeeps(s, t, w, Checked(s, w, c, call), call.input, w.written(turn, i));
    }
  }

  lemma {:induction false} FoldKeeps(s: Setup, t: Trigger, step: Caller, c: Core, calls: seq<Provider.ToolCall>)
    requires CoreOk(s, t, c) && forall c, call, i | CoreOk(s, t, c) :: CoreOk(s, t, step(c, call, i).0)
    ensures CoreOk(s, t, Fold(step, c, calls).0)
  {
    if calls != [] {
      FoldKeeps(s, t, step, c, calls[..|calls| - 1]);
    }
  }

  lemma AllCallsKeep(s: Setup, t: Trigger, w: World, c: Core, calls: seq<Provider.ToolCall>, turn: nat)
    requires GoodRegistry(s.agents) && CoreOk(s, t, c)
    ensures CoreOk(s, t, AllCalls(s, t, w, c, calls, turn).0)
  {
    forall c, call, i | CoreOk(s, t, c)
      ensures CoreOk(s, t, CallsOf(s, t, w, turn)(c, call, i).0)
    {
      OneCallKeeps(s, t, w, c, call, turn, i);
    }
    FoldKeeps(s, t, CallsOf(s, t, w, turn), c, calls);
  }

  /** The result of call `i` is an error, or it is what this call returned. */
  predicate OwnResult(s: Setup, w: World, call: Provider.ToolCall, result: Result, turn: nat, i: nat) {
    result.error || (Runnable(s, w, call) && (s.kind(call.name) != SendMessage ==> result == w.tool(turn, i)))
  }

  predicate Listed(s: Setup, calls: seq<Provider.ToolCall>) {
    exists i :: 0 <= i < |calls| && s.kind(calls[i].name) == ListAgents
  }

  predicate Built(s: Setup, calls: seq<Provider.ToolCall>, results: seq<Result>)
    requires |calls| == |results|
  {
    exists i :: 0 <= i < |calls| && s.kind(calls[i].name) == CreatePlugin && !results[i].error
  }

  lemma NotedMore(
    s: Setup, calls: seq<Provider.ToolCall>, results: seq<Result>, c: Provider.ToolCall, r: Result)
    requires |calls| == |results|
    ensures Listed(s, calls + [c]) <==> Listed(s, calls) || s.kind(c.name) == ListAgents
    ensures Built(s, calls + [c], results + [r])
       <==> Built(s, calls, results) || (s.kind(c.name) == CreatePlugin && !r.error)
  {
    var n, cs, rs := |calls|, calls + [c], results + [r];
    assert cs[n] == c && rs[n] == r;
    assert forall i | 0 <= i < n :: cs[i] == calls[i] && rs[i] == results[i];
  }

  /** One call: no nudge is used up, messages and runs only grow, and the call runs or is blocked at most once. */
  predicate CallOk(s: Setup, w: World, turn: nat, c: Core, call: Provider.ToolCall, i: nat, r: (Core, Result)) {
    && Nudges(r.0.flags) == Nudges(c.flags) && Grows(c, r.0) && OwnResult(s, w, call, r.1, turn, i)
    && |r.0.ran| + r.0.blocked <= |c.ran| + c.blocked + 1
    && r.0.flags.listedAgents == (c.flags.listedAgents || s.kind(call.name) == ListAgents)
    && r.0.flags.pluginDone == (c.flags.pluginDone || (s.kind(call.name) == CreatePlugin && !r.1.error))
  }

  lemma OneCallOk(s: Setup, t: Trigger, w: World, c: Core, call: Provider.ToolCall, turn: nat, i: nat)
    ensures CallOk(s, w, turn, c, call, i, OneCall(s, t, w, c, call, turn, i))
  {
  }

  /** All calls: besides, agents were listed or a plugin built exactly if a call did so. */
  predicate CallsOk(
    s: Setup, w: World, turn: nat, c: Core, calls: seq<Provider.ToolCall>, c': Core, results: seq<Result>)
    requires |results| == |calls|
  {
    && Nudges(c'.flags) == Nudges(c.flags) && Grows(c, c')
    && |c'.ran| + c'.blocked <= |c.ran| + c.blocked + |calls|
    && (forall i | 0 <= i < |calls| :: OwnResult(s, w, calls[i], results[i], turn, i))
    && c'.flags.listedAgents == (c.flags.listedAgents || Listed(s, calls))
    && c'.flags.pluginDone == (c.flags.pluginDone || Built(s, calls, results))
  }

  lemma {:induction false} FoldOk(s: Setup, w: World, step: Caller, c: Core, calls: seq<Provider.ToolCall>, turn: nat)
    requires forall c, call, i :: CallOk(s, w, turn, c, call, i, step(c, call, i))
    ensures CallsOk(s, w, turn, c, calls, Fold(step, c, calls).0, Fold(step, c, calls).1)
  {
    if calls != [] {
      var n := |calls| - 1;
      FoldOk(s, w, step, c, calls[..n], turn);
      var (c', results) := Fold(step, c, calls[..n]);
      NotedMore(s, calls[..n], results, calls[n], step(c', calls[n], n).1);
      assert calls == calls[..n] + [calls[n]];
      assert CallOk(s, w, turn, c', calls[n], n, step(c', calls[n], n));
    }
  }

  lemma AllCallsOk(s: Setup, t: Trigger, w: World, c: Core, calls: seq<Provider.ToolCall>, turn: nat)
    ensures var (c', results) := AllCalls(s, t, w, c, calls, turn);
            CallsOk(s, w, turn, c, calls, c', results)
  {
    forall c, call, i
      ensures CallOk(s, w, turn, c, call, i, CallsOf(s, t, w, turn)(c, call, i))
    {
      OneCallOk(s, t, w, c, call, turn, i);
    }
    FoldOk(s, w, CallsOf(s, t, w, turn), c, calls, turn);
  }

  //
  // Turns.
  //

  ghost predicate ShotOk(s: Setup, t: Trigger, good: bool, a: Shot) {
    CoreOk(s, t, a.core) && a.history != [] && (good ==> Started(a.history))
  }

  lemma ToolTurnStarted(ms: seq<Message>, reply: Reply, results: seq<Result>)
    requires Started(ms) && reply.Reply? && GoodReply(reply) && reply.calls != [] && |results| == |reply.calls|
    ensures reply.content != []
    ensures Started(ms + Said(reply.content) + [ResultTurn(reply.calls, results)])
  {
    ToolTurnPaired(ms, reply.content, reply.calls, results);
    var a, r := AssistantTurn(reply.content), ResultTurn(reply.calls, results);
    assert ms + [a] + [r] == ms + [a, r];
  }

  lemma TextTurnStarted(ms: seq<Message>, reply: Reply)
    requires Started(ms) && reply.Reply? && GoodReply(reply) && reply.calls == []
    ensures Started(ms + Said(reply.content))
  {
    TextTurnPaired(ms, reply.content);
    assert ms + [] == ms;
  }

  lemma TrimStarted(s: Setup, ms: seq<Message>)
    requires ms != []
    ensures Shortened(s, ms) != [] && (Started(ms) ==> Started(Shortened(s, ms)))
  {
    if Trims(s) {
      Trim.TrimmedKeeps(ms, s.budget, s.elided);
      var r := Trim.Trimmed(ms, s.budget, s.elided);
      assert Trim.SameMessage(ms[0], r[0]);
    }
  }

  lemma ToolTurnKeeps(s: Setup, t: Trigger, w: World, good: bool, a: Shot, turn: nat)
    requires GoodRegistry(s.agents) && ShotOk(s, t, good, a)
    requires w.reply(turn).Reply? && w.reply(turn).calls != [] && (good ==> GoodReply(w.reply(turn)))
    ensures ShotOk(s, t, good, ToolTurn(s, t, w, a, turn).shot)
  {
    var reply := w.reply(turn);
    AllCallsKeep(s, t, w, a.core, reply.calls, turn);
    var results := AllCalls(s, t, w, a.core, reply.calls, turn).1;
    if good {
      ToolTurnStarted(a.history, reply, results);
    }
    TrimStarted(s, a.history + Said(reply.content) + [ResultTurn(reply.calls, results)]);
  }

  lemma TextTurnKeeps(s: Setup, t: Trigger, w: World, good: bool, a: Shot, turn: nat)
    requires ShotOk(s, t, good, a)
    requires w.reply(turn).Reply? && w.reply(turn).calls == [] && (good ==> GoodReply(w.reply(turn)))
    ensures ShotOk(s, t, good, TextTurn(s, t, w, a, turn).shot)
  {
    var reply := w.reply(turn);
    if good {
      TextTurnStarted(a.history, reply);
      var (note, _) := NudgeOf(s, a.core.flags, w.compiled(turn));
      AppendText(a.history + Said(reply.content), s.wording(note));
    }
  }

  lemma TurnKeeps(s: Setup, t: Trigger, w: World, good: bool, a: Shot, turn: nat)
    requires GoodRegistry(s.agents) && ShotOk(s, t, good, a) && (good ==> GoodReply(w.reply(turn)))
    ensures ShotOk(s, t, good, TurnStep(s, t, w, a, turn).shot)
  {
    var reply := w.reply(turn);
    if reply.Reply? {
      if reply.calls != [] {
        ToolTurnKeeps(s, t, w, good, Heard(a, TextOf(reply.content)), turn);
      } else {
        TextTurnKeeps(s, t, w, good, Heard(a, TextOf(reply.content)), turn);
      }
    }
  }

  lemma ToolTurnFacts(s: Setup, t: Trigger, w: World, a: Shot, turn: nat)
    requires w.reply(turn).Reply?
    ensures var b := ToolTurn(s, t, w, a, turn);
            && (!Trims(s) ==> a.history <= b.shot.history)
            && Nudges(b.shot.core.flags) == Nudges(a.core.flags)
            && (b.next <==> b.shot.core.blocked < MAX_BLOCKED)
  {
    AllCallsOk(s, t, w, a.core, w.reply(turn).calls, turn);
  }

  lemma TextTurnFacts(s: Setup, t: Trigger, w: World, a: Shot, turn: nat)
    requires w.reply(turn).Reply?
    ensures var b := TextTurn(s, t, w, a, turn);
            && a.history <= b.shot.history && b.shot.core.blocked == a.core.blocked && (b.next ==> !b.failed)
            && Nudges(b.shot.core.flags) == Nudges(a.core.flags) + (if b.next then 1 else 0)
  {
  }

  /** A turn only extends the history if nothing is trimmed; going on after a text reply uses up a nudge. */
  lemma TurnFacts(s: Setup, t: Trigger, w: World, a: Shot, turn: nat)
    ensures var b := TurnStep(s, t, w, a, turn);
            && (!Trims(s) ==> a.history <= b.shot.history)
            && Nudges(b.shot.core.flags) == Nudges(a.core.flags) + (if b.next && TextOnly(w.reply(turn)) then 1 else 0)
            && (b.next ==> !b.failed && (b.shot.core.blocked < MAX_BLOCKED || b.shot.core.blocked == a.core.blocked))
  {
    var reply := w.reply(turn);
    if reply.Reply? {
      if reply.calls != [] {
        ToolTurnFacts(s, t, w, Heard(a, TextOf(reply.content)), turn);
      } else {
        TextTurnFacts(s, t, w, Heard(a, TextOf(reply.content)), turn);
      }
    }
  }

  //
  // The chain.
  //

  lemma AppendOnlyMore(rs: seq<Request>, r: Request, was: seq<Message>, now: seq<Message>)
    requires AppendOnly(rs, was) && r.history == was <= now
    ensures AppendOnly(rs + [r], now)
  {
    var n, all := |rs|, rs + [r];
    forall i, j | 0 <= i < j < |all|
      ensures all[i].history <= all[j].history
    {
      assert all[i] == rs[i];
    }
    forall i | 0 <= i < |all|
      ensures all[i].history <= now
    {
      assert i < n ==> all[i] == rs[i];
    }
  }

  /** One more model call in the log. */
  lemma LogMore(s: Setup, good: bool, rs: seq<Request>, r: Request, was: seq<Message>, now: seq<Message>)
    requires LogOk(s, good, rs, was) && r.history == was && r.blocked < MAX_BLOCKED
    requires (good ==> Started(was)) && (!Trims(s) ==> was <= now)
    ensures LogOk(s, good, rs + [r], now)
    ensures AfterTexts(rs + [r]) == AfterTexts(rs) + if r.afterText then 1 else 0
  {
    assert (rs + [r])[..|rs|] == rs;
    if !Trims(s) {
      AppendOnlyMore(rs, r, was, now);
    }
  }

  /** What the chain needs to know of a turn. */
  ghost predicate TurnOk(s: Setup, t: Trigger, w: World, good: bool, a: Shot, turn: nat, b: Turned) {
    && (ShotOk(s, t, good, a) ==> ShotOk(s, t, good, b.shot))
    && (!Trims(s) ==> a.history <= b.shot.history)
    && Nudges(b.shot.core.flags) == Nudges(a.core.flags) + (if b.next && TextOnly(w.reply(turn)) then 1 else 0)
    && (b.next ==> b.shot.core.blocked < MAX_BLOCKED || b.shot.core.blocked == a.core.blocked)
  }

  ghost predicate StepOk(s: Setup, t: Trigger, w: World, good: bool, step: Step) {
    forall a, k :: TurnOk(s, t, w, good, a, k, step(a, k))
  }

  lemma EveryTurnOk(s: Setup, t: Trigger, w: World, good: bool, a: Shot, turn: nat)
    requires GoodRegistry(s.agents) && (good ==> GoodReplies(w))
    ensures TurnOk(s, t, w, good, a, turn, TurnStep(s, t, w, a, turn))
  {
    TurnFacts(s, t, w, a, turn);
    if ShotOk(s, t, good, a) {
      assert good ==> GoodReply(w.reply(turn));
      TurnKeeps(s, t, w, good, a, turn);
    }
  }

  lemma TurnsOk(s: Setup, t: Trigger, w: World, good: bool)
    requires GoodRegistry(s.agents) && (good ==> GoodReplies(w))
    ensures StepOk(s, t, w, good, TurnsOf(s, t, w))
  {
    forall a, k
      ensures TurnOk(s, t, w, good, a, k, TurnsOf(s, t, w)(a, k))
    {
      EveryTurnOk(s, t, w, good, a, k);
    }
  }

  /** After `n` turns; `next` is whether the last of them went on. */
  ghost predicate After(
    s: Setup, t: Trigger, w: World, good: bool, n: nat, next: bool, a: Shot, rs: seq<Request>)
  {
    && ShotOk(s, t, good, a) && LogOk(s, good, rs, a.history)
    && (next ==> a.core.blocked < MAX_BLOCKED)
    && AfterTexts(rs) + (if next && n > 0 && TextOnly(w.reply(n - 1)) then 1 else 0) <= Nudges(a.core.flags)
  }

  lemma AfterNext(
    s: Setup, t: Trigger, w: World, good: bool, n: nat, a: Shot, rs: seq<Request>, b: Turned, r: Request)
    requires After(s, t, w, good, n, true, a, rs) && TurnOk(s, t, w, good, a, n, b)
    requires r == Request(a.history, a.core.blocked, n > 0 && TextOnly(w.reply(n - 1)))
    ensures After(s, t, w, good, n + 1, b.next, b.shot, rs + [r])
  {
    LogMore(s, good, rs, r, a.history, b.shot.history);
  }

  predicate NextAfter(step: Step, first: seq<Message>, n: nat) {
    n == 0 || GoesOn(step, first)(n - 1)
  }

  lemma ChainNext(s: Setup, t: Trigger, w: World, step: Step, first: seq<Message>, good: bool, n: nat)
    requires StepOk(s, t, w, good, step) && WentOn(step, first, n + 1)
    requires After(s, t, w, good, n, NextAfter(step, first, n), ShotAt(step, first, n), Requests(step, w, first, n))
    ensures After(
              s, t, w, good, n + 1, NextAfter(step, first, n + 1), ShotAt(step, first, n + 1),
              Requests(step, w, first, n + 1))
  {
    assert NextAfter(step, first, n);
    var a, b, rs := ShotAt(step, first, n), TurnAt(step, first, n), Requests(step, w, first, n);
    assert TurnOk(s, t, w, good, a, n, step(a, n));
    AfterNext(s, t, w, good, n, a, rs, b, RequestAt(step, w, first, n));
  }

  lemma {:induction false} ChainHolds(
    s: Setup, t: Trigger, w: World, step: Step, first: seq<Message>, good: bool, n: nat)
    requires first != [] && (good ==> Started(first)) && StepOk(s, t, w, good, step) && WentOn(step, first, n)
    ensures After(s, t, w, good, n, NextAfter(step, first, n), ShotAt(step, first, n), Requests(step, w, first, n))
  {
    if n > 0 {
      ChainHolds(s, t, w, step, first, good, n - 1);
      ChainNext(s, t, w, step, first, good, n - 1);
    }
  }

  //
  // The answer at the end.
  //

  /** The late answer to `r`: marked as one, with the text, and one message if `r` can be answered. */
  predicate LateOk(s: Setup, t: Trigger, r: string, text: Text, late: seq<Outgoing>) {
    && (forall i | 0 <= i < |late| :: late[i].text == text && late[i].reply && SendOk(s.agents, t.requesters, late[i]))
    && (Due(s, r) ==> Answered(late, r))
  }

  lemma LateAnswerOk(s: Setup, t: Trigger, w: World, r: string, text: Text)
    requires GoodRegistry(s.agents) && r in t.requesters
    ensures LateOk(s, t, r, text, LateAnswer(s, w, text)(r))
  {
    var late := LateAnswer(s, w, text)(r);
    if r !in s.agents {
      var k :| 0 <= k < |t.requesters| && t.requesters[k] == r;
      assert !Known(s.agents, t.requesters);
    } else if r == OWNER {
      OwnerAttempt(s.agents, s.name, true, text, w.delivered);
    } else {
      KnownAttempt(s.agents, s.name, r, true, text, w.delivered);
      if r != s.name {
        assert late[0].to == r && late[0].reply;
      }
    }
  }

  /** After the answers to the requesters `rs`. */
  predicate DeliveredOk(s: Setup, t: Trigger, c: Core, rs: seq<string>, text: Text, sends: seq<Outgoing>) {
    && c.sends <= sends && SendsOk(s.agents, t.requesters, sends, c.sentTo)
    && (forall i | |c.sends| <= i < |sends| :: sends[i].text == text && sends[i].reply)
    && forall k | 0 <= k < |rs| :: Due(s, rs[k]) ==> Answered(sends, rs[k])
  }

  lemma DeliverOne(
    s: Setup, t: Trigger, c: Core, rs: seq<string>, r: string, text: Text, sends: seq<Outgoing>, late: seq<Outgoing>)
    requires DeliveredOk(s, t, c, rs, text, sends) && LateOk(s, t, r, text, late)
    ensures DeliveredOk(s, t, c, rs + [r], text, sends + late)
  {
    SendsMore(s.agents, t.requesters, sends, c.sentTo, late);
    var rs' := rs + [r];
    forall k | 0 <= k < |rs'| && Due(s, rs'[k])
      ensures Answered(sends + late, rs'[k])
    {
      assert k < |rs| ==> rs'[k] == rs[k];
      ReachedMore(sends, late, rs'[k]);
    }
  }

  lemma DeliverNone(s: Setup, t: Trigger, c: Core, rs: seq<string>, r: string, text: Text, sends: seq<Outgoing>)
    requires DeliveredOk(s, t, c, rs, text, sends) && r in c.sentTo && r in t.requesters
    ensures DeliveredOk(s, t, c, rs + [r], text, sends)
  {
    var j :| 0 <= j < |c.sentTo| && c.sentTo[j] == r;
    assert r != OWNER ==> Reached(sends, r);
    var rs' := rs + [r];
    forall k | 0 <= k < |rs'| && Due(s, rs'[k])
      ensures Answered(sends, rs'[k])
    {
      assert k < |rs| ==> rs'[k] == rs[k];
    }
  }

  lemma {:induction false} DeliverAll(
    s: Setup, t: Trigger, c: Core, rs: seq<string>, text: Text, late: string -> seq<Outgoing>)
    requires SendsOk(s.agents, t.requesters, c.sends, c.sentTo)
    requires forall k | 0 <= k < |rs| :: rs[k] in t.requesters && LateOk(s, t, rs[k], text, late(rs[k]))
    ensures DeliveredOk(s, t, c, rs, text, Delivered(late, c, rs))
  {
    if rs != [] {
      var n := |rs| - 1;
      DeliverAll(s, t, c, rs[..n], text, late);
      assert rs == rs[..n] + [rs[n]];
      if rs[n] in c.sentTo {
        DeliverNone(s, t, c, rs[..n], rs[n], text, Delivered(late, c, rs[..n]));
      } else {
        DeliverOne(s, t, c, rs[..n], rs[n], text, Delivered(late, c, rs[..n]), late(rs[n]));
      }
    }
  }

  /** Afterwards all due requesters are answered, and what is sent late carries the text of the answer. */
  lemma FinishedOk(s: Setup, t: Trigger, w: World, a: Shot, failed: bool)
    requires GoodRegistry(s.agents) && CoreOk(s, t, a.core)
    ensures var c := Finished(s, t, w, a, failed);
            && AllAnswered(s, t.requesters, c.sends)
            && DeliveredOk(s, t, a.core, t.requesters, FinalText(s, a, failed), c.sends)
  {
    var text := FinalText(s, a, failed);
    forall k | 0 <= k < |t.requesters|
      ensures LateOk(s, t, t.requesters[k], text, LateAnswer(s, w, text)(t.requesters[k]))
    {
      LateAnswerOk(s, t, w, t.requesters[k], text);
    }
    DeliverAll(s, t, a.core, t.requesters, text, LateAnswer(s, w, text));
  }

  //
  // The whole session.
  //

  /**
   * At most the allowed number of model calls, the first with the history `first`; at most three of them after a
   * text-only reply, none after the third blocked repeat, each with a well-paired history if `good` and, without
   * trimming, an extension of the one before; repeated calls within their limits; all who asked answered.
   */
  ghost predicate RunOk(s: Setup, t: Trigger, first: seq<Message>, good: bool, run: Run) {
    && 1 <= |run.requests| <= Turns(s) && AfterTexts(run.requests) <= 3
    && run.requests[0] == Request(first, 0, false) && LogOk(s, good, run.requests, run.history)
    && run.history != [] && (good ==> Started(run.history))
    && TableOk(run.core.table, run.core.ran, RunLimit(s))
    && AllAnswered(s, t.requesters, run.core.sends)
  }

  lemma {:induction false} FirstRequest(step: Step, w: World, first: seq<Message>, n: nat)
    requires n >= 1
    ensures |Requests(step, w, first, n)| == n && Requests(step, w, first, n)[0] == Request(first, 0, false)
  {
    if n > 1 {
      FirstRequest(step, w, first, n - 1);
    } else {
      assert Requests(step, w, first, 0) == [];
    }
  }

  lemma EndOk(
    s: Setup, t: Trigger, w: World, first: seq<Message>, good: bool, rs: seq<Request>, last: Turned, core: Core)
    requires 1 <= |rs| <= Turns(s) && rs[0] == Request(first, 0, false)
    requires After(s, t, w, good, |rs|, last.next, last.shot, rs)
    requires core == LoopEnd(s, last).core.(sends := core.sends) && AllAnswered(s, t.requesters, core.sends)
    ensures RunOk(s, t, first, good, Run(rs, LoopEnd(s, last).history, core, last.failed))
  {
  }

  lemma FinishTurn(s: Setup, t: Trigger, w: World, first: seq<Message>, good: bool, rs: seq<Request>, last: Turned)
    requires GoodRegistry(s.agents) && 1 <= |rs| <= Turns(s) && rs[0] == Request(first, 0, false)
    requires After(s, t, w, good, |rs|, last.next, last.shot, rs)
    ensures RunOk(s, t, first, good, RunFrom(s, t, w, rs, last))
  {
    var end := LoopEnd(s, last);
    FinishedOk(s, t, w, end, last.failed);
    EndOk(s, t, w, first, good, rs, last, Finished(s, t, w, end, last.failed));
  }

  lemma LastOf(s: Setup, t: Trigger, w: World, step: Step, first: seq<Message>, good: bool, n: nat)
    requires first != [] && (good ==> Started(first)) && StepOk(s, t, w, good, step)
    requires n >= 1 && WentOn(step, first, n)
    ensures var rs, last := Requests(step, w, first, n), TurnAt(step, first, n - 1);
            && |rs| == n && rs[0] == Request(first, 0, false)
            && After(s, t, w, good, |rs|, last.next, last.shot, rs)
  {
    ChainHolds(s, t, w, step, first, good, n);
    FirstRequest(step, w, first, n);
  }

  /** The bounds hold of the chain of any step that keeps them. */
  lemma ChainBounded(s: Setup, t: Trigger, w: World, step: Step, first: seq<Message>, good: bool, n: nat)
    requires GoodRegistry(s.agents) && first != [] && (good ==> Started(first)) && StepOk(s, t, w, good, step)
    requires 1 <= n <= Turns(s) && WentOn(step, first, n)
    ensures RunOk(s, t, first, good, RunOf(s, t, w, step, first, n))
  {
    LastOf(s, t, w, step, first, good, n);
    FinishTurn(s, t, w, first, good, Requests(step, w, first, n), TurnAt(step, first, n - 1));
  }

  /** The bounds hold of every session, whatever the model and the tools do. */
  lemma SessionBounded(s: Setup, t: Trigger, w: World, first: seq<Message>, good: bool)
    requires GoodRegistry(s.agents) && first != [] && (good ==> GoodReplies(w) && Started(first))
    ensures RunOk(s, t, first, good, SessionOf(s, t, w, first))
  {
    var step := TurnsOf(s, t, w);
    TurnsOk(s, t, w, good);
    ChainBounded(s, t, w, step, first, good, TurnsTaken(s, step, first));
  }
}
