/** What a session does with a reply, and how it ends: when a nudge is due, what the model is told, who fails. */
module SessionLaws {
  import opened Options
  import opened Bytes
  import opened History
  import opened Exchange
  import opened Messenger
  import opened Repeats
  import opened Session
  import opened SessionChain
  import opened SessionBounds
  import Provider
  import ReadBack
  import Trim

  //
  // Tool calls.
  //

  /** A builder may read a file once; any other call may run twice. */
  function Times(s: Setup, call: Provider.ToolCall): nat {
    if s.builder && s.kind(call.name) == ReadFile then 1 else 2
  }

  /**
   * A call runs exactly if its tool is offered, its arguments are an object, and the table has it less often than it
   * may run; then it returns what its tool returns. A call that came too often is counted as blocked.
   */
  predicate CallLaw(s: Setup, w: World, turn: nat, i: nat, c: Core, call: Provider.ToolCall, r: (Core, Result)) {
    var known := call.name in s.offered && w.json.isObject(call.input);
    var key := Key(call.name, w.json.printed(call.input));
    var runs := known && Count(c.table, Hash(key)) < Times(s, call);
    && r.0.table == (if known then Counted(c.table, Hash(key)) else c.table)
    && r.0.ran == (if runs then c.ran + multiset{key} else c.ran)
    && r.0.blocked == (if known && !runs then c.blocked + 1 else c.blocked)
    && (!runs ==> r.1.error && r.0.sends == c.sends && r.0.sentTo == c.sentTo)
    && (runs && s.kind(call.name) != SendMessage ==> r.1 == w.tool(turn, i) && r.0.sends == c.sends)
    && (!known ==>
          r.1.text == s.wording(if call.name !in s.offered then UnknownTool(call.name) else BadArguments(call.name)))
    && (known && !runs ==> r.1.text == s.wording(Repeated(call.name)))
  }

  lemma CallObeys(s: Setup, t: Trigger, w: World, turn: nat, i: nat, c: Core, call: Provider.ToolCall)
    ensures CallLaw(s, w, turn, i, c, call, OneCall(s, t, w, c, call, turn, i))
  {
  }

  /** A message of call `i` of a turn: what is sent, told and noted is that of the message alone. */
  predicate SameSend(r: (Core, Result), sent: (Core, Result)) {
    && r.1 == sent.1 && r.0.sends == sent.0.sends && r.0.sentTo == sent.0.sentTo
    && r.0.flags.sentMessage == sent.0.flags.sentMessage
  }

  lemma AfterCheck(s: Setup, t: Trigger, w: World, c: Core, c': Core, input: Text, written: string -> bool)
    requires c'.sends == c.sends && c'.sentTo == c.sentTo && c'.flags == c.flags
    ensures SameSend(AfterSend(s, t, w, c', input, written), AfterSend(s, t, w, c, input, written))
  {
  }

  lemma CallSends(s: Setup, t: Trigger, w: World, turn: nat, i: nat, c: Core, call: Provider.ToolCall)
    requires call.name in s.offered && w.json.isObject(call.input) && s.kind(call.name) == SendMessage
    requires Count(c.table, Hash(Key(call.name, w.json.printed(call.input)))) < 2
    ensures SameSend(
              OneCall(s, t, w, c, call, turn, i), AfterSend(s, t, w, c, call.input, w.written(turn, i)))
  {
    AfterCheck(s, t, w, c, Checked(s, w, c, call), call.input, w.written(turn, i));
  }

  /** What the model is told after a message, and who is noted as messaged. */
  predicate SendLaw(s: Setup, c: Core, name: Option<string>, sent: bool, more: seq<Outgoing>, r: (Core, Result)) {
    && r.1 == Result(s.wording(if sent then MessageSent else NotSent), !sent)
    && r.0.sends == c.sends + more
    && r.0.flags.sentMessage == (c.flags.sentMessage || sent)
    && r.0.sentTo == if sent && name.Some? && |c.sentTo| < 8 then c.sentTo + [name.value] else c.sentTo
  }

  lemma NamesIt(agents: seq<string>, to: string, r: string)
    requires GoodRegistry(agents) && r in agents && (to == r || to == ['@'] + r)
    ensures Lower(to) != ALL && Resolve(agents, Some(to)) == Some(r)
  {
    var k :| 0 <= k < |agents| && agents[k] == r;
    assert Lower(to)[0] == LowerChar(to[0]) && (to != r ==> Lower(to) != ALL);
    assert Bare(to) == r by {
      if to != r {
        assert (['@'] + r)[1..] == r;
      }
    }
    MatchSelf(agents, k, r);
  }

  /** A message to another agent goes to that agent and nobody else, as an answer exactly if it had asked. */
  lemma SendGoesToItsTarget(
    s: Setup, t: Trigger, w: World, c: Core, input: Text, to: string, r: string, written: string -> bool)
    requires GoodRegistry(s.agents) && r in s.agents && r != OWNER && r != s.name
    requires w.json.problem(input).None? && w.json.to(input) == Some(to) && (to == r || to == ['@'] + r)
    ensures SendLaw(
              s, c, Some(r), written(r), [Outgoing(r, r in t.requesters, w.json.content(input), false, written(r))],
              AfterSend(s, t, w, c, input, written))
  {
    NamesIt(s.agents, to, r);
    KnownAttempt(s.agents, s.name, r, r in t.requesters, w.json.content(input), written);
  }

  /** A message to the owner goes out over IRC and to no inbox; one to the agent itself is refused. */
  lemma SendToOwnerOrSelf(
    s: Setup, t: Trigger, w: World, c: Core, input: Text, to: string, r: string, written: string -> bool)
    requires GoodRegistry(s.agents) && r in s.agents && (r == OWNER || r == s.name)
    requires w.json.problem(input).None? && w.json.to(input) == Some(to) && (to == r || to == ['@'] + r)
    ensures SendLaw(s, c, Some(r), r == OWNER, [], AfterSend(s, t, w, c, input, written))
  {
    NamesIt(s.agents, to, r);
    NamesIt(s.agents, r, r);
  }

  /** A broadcast is a message to every other agent, never an answer, and always counts as sent. */
  lemma SendToAll(s: Setup, t: Trigger, w: World, c: Core, input: Text, written: string -> bool)
    requires GoodRegistry(s.agents) && w.json.problem(input).None? && w.json.to(input) == Some("all")
    ensures var others := Others(s.agents, s.name);
            SendLaw(
              s, c, None, true,
              seq(|others|, i requires 0 <= i < |others| =>
                Outgoing(others[i], false, w.json.content(input), true, written(others[i]))),
              AfterSend(s, t, w, c, input, written))
  {
    assert Lower("all") == ALL && Bare("all") == "all";
  }

  /** A message to nobody that is known, or one without a name, is refused; so are bad arguments. */
  lemma SendToNobody(s: Setup, t: Trigger, w: World, c: Core, input: Text, written: string -> bool)
    requires w.json.problem(input).None?
    requires match w.json.to(input)
             case None => true
             case Some(to) =>
               to != [] && to[0] != '@' && Lower(to) != ALL
               && forall i | 0 <= i < |s.agents| :: Lower(s.agents[i]) != Lower(to)
    ensures SendLaw(s, c, None, false, [], AfterSend(s, t, w, c, input, written))
  {
    if w.json.to(input).Some? {
      StrangersAreRefused(s.agents, s.name, w.json.to(input).value);
    }
  }

  lemma BadSend(s: Setup, t: Trigger, w: World, c: Core, input: Text, written: string -> bool)
    requires w.json.problem(input).Some?
    ensures AfterSend(s, t, w, c, input, written) == (c, Result(w.json.problem(input).value, true))
  {
  }

  /** Call `i` is the last one of `calls` that creates a plugin. */
  predicate LastBuild(s: Setup, calls: seq<Provider.ToolCall>, i: nat) {
    && i < |calls| && s.kind(calls[i].name) == CreatePlugin
    && forall j | i < j < |calls| :: s.kind(calls[j].name) != CreatePlugin
  }

  predicate SameNudges(f: Flags, f': Flags) {
    && f'.builderRetryUsed == f.builderRetryUsed && f'.hubRetryUsed == f.hubRetryUsed
    && f'.emptyRetryUsed == f.emptyRetryUsed
  }

  /** After the calls the last build says whether a plugin is owed, and a good one is the notice. */
  predicate BuildLaw(s: Setup, c: Core, calls: seq<Provider.ToolCall>, c': Core, results: seq<Result>)
    requires |results| == |calls|
  {
    && (forall i | 0 <= i < |calls| && LastBuild(s, calls, i) ::
          && c'.flags.pluginFailed == results[i].error
          && (!results[i].error ==> c'.notice == results[i].text && c'.flags.pluginDone))
    && SameNudges(c.flags, c'.flags)
    && ((forall i | 0 <= i < |calls| :: s.kind(calls[i].name) != CreatePlugin) ==>
          c'.flags.pluginFailed == c.flags.pluginFailed && c'.notice == c.notice)
  }

  predicate NoteLaw(s: Setup, c: Core, call: Provider.ToolCall, r: (Core, Result)) {
    && SameNudges(c.flags, r.0.flags)
    && if s.kind(call.name) == CreatePlugin then
         r.0.flags.pluginFailed == r.1.error && (!r.1.error ==> r.0.notice == r.1.text && r.0.flags.pluginDone)
       else
         && r.0.flags.pluginFailed == c.flags.pluginFailed && r.0.notice == c.notice
         && r.0.flags.pluginDone == c.flags.pluginDone
  }

  lemma NoteObeys(s: Setup, t: Trigger, w: World, c: Core, call: Provider.ToolCall, turn: nat, i: nat)
    ensures NoteLaw(s, c, call, OneCall(s, t, w, c, call, turn, i))
  {
  }

  lemma BuildPush(
    s: Setup, c: Core, calls: seq<Provider.ToolCall>, c': Core, results: seq<Result>, call: Provider.ToolCall,
    r: (Core, Result))
    requires |results| == |calls| && BuildLaw(s, c, calls, c', results) && NoteLaw(s, c', call, r)
    ensures BuildLaw(s, c, calls + [call], r.0, results + [r.1])
  {
    var n, cs, rs := |calls|, calls + [call], results + [r.1];
    assert cs[n] == call && forall j | 0 <= j < n :: cs[j] == calls[j];
    forall i | 0 <= i < |cs| && LastBuild(s, cs, i)
      ensures r.0.flags.pluginFailed == rs[i].error
      ensures !rs[i].error ==> r.0.notice == rs[i].text && r.0.flags.pluginDone
    {
      if i < n {
        assert s.kind(cs[n].name) != CreatePlugin;
        assert LastBuild(s, calls, i);
      }
    }
  }

  lemma {:induction false} FoldBuilds(s: Setup, step: Caller, c: Core, calls: seq<Provider.ToolCall>)
    requires forall c, call, i :: NoteLaw(s, c, call, step(c, call, i))
    ensures BuildLaw(s, c, calls, Fold(step, c, calls).0, Fold(step, c, calls).1)
  {
    if calls != [] {
      var n := |calls| - 1;
      FoldBuilds(s, step, c, calls[..n]);
      var (c', results) := Fold(step, c, calls[..n]);
      assert NoteLaw(s, c', calls[n], step(c', calls[n], n));
      BuildPush(s, c, calls[..n], c', results, calls[n], step(c', calls[n], n));
      assert calls == calls[..n] + [calls[n]];
    }
  }

  lemma AllCallsBuild(s: Setup, t: Trigger, w: World, c: Core, calls: seq<Provider.ToolCall>, turn: nat)
    ensures var (c', results) := AllCalls(s, t, w, c, calls, turn);
            BuildLaw(s, c, calls, c', results)
  {
    forall c, call, i
      ensures NoteLaw(s, c, call, CallsOf(s, t, w, turn)(c, call, i))
    {
      NoteObeys(s, t, w, c, call, turn, i);
    }
    FoldBuilds(s, CallsOf(s, t, w, turn), c, calls);
  }

  //
  // What the model is told.
  //

  /** The turn that answers `calls`: block by block the id of the call and the text and error of its own result. */
  predicate Shows(m: Message, calls: seq<Provider.ToolCall>, results: seq<Result>) {
    && m.role == User && m.content.Blocks? && |m.content.blocks| == |calls| == |results|
    && forall i | 0 <= i < |calls| ::
         var b := m.content.blocks[i];
         && b.kind == ToolResult && b.toolUseId == Some(calls[i].id)
         && b.content == Some(results[i].text) && b.isError == results[i].error
  }

  /** The assistant turn of a reply, as the provider returned it. */
  function Replay(content: seq<Block>): seq<Message> {
    if content == [] then [] else [Message(Assistant, Blocks(content))]
  }

  /** `now` is `was` with the reply and the turn `last`, trimmed if there is a budget and no Anthropic server. */
  predicate Appended(s: Setup, was: seq<Message>, content: seq<Block>, last: Message, now: seq<Message>) {
    var all := was + Replay(content) + [last];
    now == if s.budget > 0 && !s.anthropic then Trim.Trimmed(all, s.budget, s.elided) else all
  }

  lemma ShortenedKeeps(s: Setup, ms: seq<Message>, last: Message)
    ensures var r := Shortened(s, ms + [last]);
            && |r| == |ms| + 1 && r[|ms|] == last
            && r == if s.budget > 0 && !s.anthropic then Trim.Trimmed(ms + [last], s.budget, s.elided) else ms + [last]
  {
    if Trims(s) {
      Trim.TrimmedKeeps(ms + [last], s.budget, s.elided);
    }
  }

  lemma ToolTurnShows(
    s: Setup, was: seq<Message>, content: seq<Block>, calls: seq<Provider.ToolCall>, results: seq<Result>,
    now: seq<Message>)
    requires |results| == |calls|
    requires now == Shortened(s, was + Said(content) + [ResultTurn(calls, results)])
    ensures now != [] && Shows(now[|now| - 1], calls, results) && Appended(s, was, content, now[|now| - 1], now)
  {
    ShortenedKeeps(s, was + Said(content), ResultTurn(calls, results));
    assert Said(content) == Replay(content);
  }

  /** After a turn with calls, trimmed or not, the newest message gives each call its own result. */
  lemma ResultsAreShown(s: Setup, t: Trigger, w: World, a: Shot, turn: nat)
    requires w.reply(turn).Reply? && w.reply(turn).calls != []
    ensures var reply, b := w.reply(turn), TurnStep(s, t, w, a, turn).shot.history;
            var results := AllCalls(s, t, w, a.core, reply.calls, turn).1;
            && b != [] && Shows(b[|b| - 1], reply.calls, results)
            && (forall i | 0 <= i < |results| :: OwnResult(s, w, reply.calls[i], results[i], turn, i))
            && Appended(s, a.history, reply.content, b[|b| - 1], b)
  {
    var reply, b := w.reply(turn), TurnStep(s, t, w, a, turn).shot.history;
    var (c, results) := AllCalls(s, t, w, a.core, reply.calls, turn);
    AllCallsOk(s, t, w, a.core, reply.calls, turn);
    ToolTurnShows(s, a.history, reply.content, reply.calls, results, b);
  }

  //
  // Text replies.
  //

  /** The nudge `note` is due after a text reply: its cause holds, and it has not been given before. */
  predicate Caused(s: Setup, t: Trigger, f: Flags, text: Text, compiled: Option<Result>, note: Note) {
    var building := s.builder && !f.pluginDone;
    var idleHub := s.hub && f.listedAgents && !f.sentMessage && !f.hubRetryUsed;
    match note
    case BuilderFailed(result) => building && compiled == Some(Result(result, true)) && !f.builderRetryUsed
    case BuilderNudge => building && compiled == None && (t.mail || f.pluginFailed) && !f.builderRetryUsed
    case HubNudge => !building && idleHub
    case EmptyNudge => !building && !idleHub && text == [] && !f.emptyRetryUsed
    case _ => false
  }

  /** A builder that was nudged already and still brings no plugin. */
  predicate Stalls(s: Setup, t: Trigger, f: Flags, compiled: Option<Result>) {
    && s.builder && !f.pluginDone && f.builderRetryUsed
    && if compiled.Some? then compiled.value.error else t.mail || f.pluginFailed
  }

  /** The flag that a nudge uses up. */
  predicate Spends(note: Note, f: Flags, f': Flags) {
    match note
    case HubNudge => f' == f.(hubRetryUsed := true)
    case EmptyNudge => f' == f.(emptyRetryUsed := true)
    case _ => f' == f.(builderRetryUsed := true)
  }

  predicate Nudged(
    s: Setup, t: Trigger, a: Shot, text: Text, compiled: Option<Result>, said: seq<Message>, b: Shot, note: Note)
  {
    && Caused(s, t, a.core.flags, text, compiled, note) && Spends(note, a.core.flags, b.core.flags)
    && b.history == a.history + said + [Message(User, Plain(s.wording(note)))]
    && b.core == a.core.(flags := b.core.flags)
  }

  /** A text reply that is no refusal: a nudge exactly if one is due, a failure exactly if a builder stalls. */
  ghost predicate TextLaw(
    s: Setup, t: Trigger, a: Shot, text: Text, compiled: Option<Result>, said: seq<Message>, b: Turned)
  {
    && (b.next <==> exists note :: Caused(s, t, a.core.flags, text, compiled, note))
    && (b.next ==> !b.failed && exists note :: Nudged(s, t, a, text, compiled, said, b.shot, note))
    && (!b.next ==> b.shot.history == a.history + said)
    && (b.failed <==> Stalls(s, t, a.core.flags, compiled))
    && (b.failed ==> b.shot.core == a.core.(notice := s.wording(Stalled)))
    && (!b.next && !b.failed ==>
          if s.builder && !a.core.flags.pluginDone && compiled.Some?
          then b.shot.core == a.core.(flags := a.core.flags.(pluginDone := true), notice := compiled.value.text)
          else b.shot.core == a.core)
  }

  lemma AfterTextObeys(s: Setup, t: Trigger, a: Shot, h: Shot, text: Text, compiled: Option<Result>, said: seq<Message>)
    requires h == a.(history := a.history + said, answer := h.answer)
    ensures TextLaw(s, t, a, text, compiled, said, AfterText(s, t, h, text, compiled))
  {
    var b, f := AfterText(s, t, h, text, compiled), a.core.flags;
    var note := NudgeOf(s, f, compiled).0;
    if b.next {
      assert Caused(s, t, f, text, compiled, note);
      assert Nudged(s, t, a, text, compiled, said, b.shot, note);
    } else {
      forall note
        ensures !Caused(s, t, f, text, compiled, note)
      {
      }
    }
  }

  //
  // Turns.
  //

  /** What every turn does, in the terms of the reply. */
  ghost predicate TurnLaw(s: Setup, t: Trigger, w: World, a: Shot, turn: nat, b: Turned) {
    match w.reply(turn)
    case NoReply(error) =>
      !b.next && b.failed && b.shot == a.(core := a.core.(notice := s.wording(LlmError(error))))
    case Reply(content, calls, refusal) =>
      var text := ReadBack.BlockText(content);
      && b.shot.answer == (if text == [] then a.answer else Some(text))
      && if calls != [] then
           && b.shot.history != []
           && Appended(s, a.history, content, b.shot.history[|b.shot.history| - 1], b.shot.history)
           && b.failed == !b.next && (b.failed <==> b.shot.core.blocked >= 3)
           && SameNudges(a.core.flags, b.shot.core.flags)
           && (b.failed ==> b.shot.core.notice == s.wording(Stuck))
         else if refusal then
           && !b.next && !b.failed && b.shot.history == a.history + Replay(content)
           && b.shot.core == a.core.(notice := s.wording(Refusal))
         else TextLaw(s, t, a, text, w.compiled(turn), Replay(content), b)
  }

  lemma TurnObeys(s: Setup, t: Trigger, w: World, a: Shot, turn: nat)
    ensures TurnLaw(s, t, w, a, turn, TurnStep(s, t, w, a, turn))
  {
    var reply := w.reply(turn);
    if reply.Reply? {
      var text := ReadBack.BlockText(reply.content);
      ReadBack.BlockTextIs(reply.content);
      var h := Heard(a, TextOf(reply.content));
      if reply.calls != [] {
        ResultsAreShown(s, t, w, a, turn);
        AllCallsBuild(s, t, w, a.core, reply.calls, turn);
      } else if !reply.refusal {
        var said := h.(history := h.history + Said(reply.content));
        AfterTextObeys(s, t, a, said, text, w.compiled(turn), Replay(reply.content));
      }
    }
  }

  /** Every turn of every session. */
  lemma EveryTurnObeys(s: Setup, t: Trigger, w: World, first: seq<Message>, n: nat)
    ensures var step := TurnsOf(s, t, w);
            TurnLaw(s, t, w, ShotAt(step, first, n), n, TurnAt(step, first, n))
  {
    TurnObeys(s, t, w, ShotAt(TurnsOf(s, t, w), first, n), n);
  }

  //
  // The end of a session.
  //

  /** The text reply that ended a session without a failure: nothing more was due. */
  predicate NothingDue(s: Setup, t: Trigger, f: Flags, text: Text, compiled: Option<Result>) {
    && (s.builder ==> f.pluginDone || (compiled == None && !t.mail && !f.pluginFailed))
    && (!s.builder && s.hub && f.listedAgents && !f.sentMessage ==> f.hubRetryUsed)
    && (!s.builder && text == [] ==> f.emptyRetryUsed)
  }

  lemma TextEnds(s: Setup, t: Trigger, a: Shot, text: Text, compiled: Option<Result>, said: seq<Message>, b: Turned)
    requires TextLaw(s, t, a, text, compiled, said, b) && !b.next && !b.failed
    ensures NothingDue(s, t, b.shot.core.flags, text, compiled)
  {
    var f := a.core.flags;
    assert !Caused(s, t, f, text, compiled, BuilderNudge) && !Caused(s, t, f, text, compiled, HubNudge);
    assert !Caused(s, t, f, text, compiled, EmptyNudge);
    if compiled.Some? {
      assert !Caused(s, t, f, text, compiled, BuilderFailed(compiled.value.text));
    }
  }

  /** How a session ends, by its last reply, and what it leaves. */
  ghost predicate EndLaw(s: Setup, t: Trigger, w: World, run: Run) {
    && run.requests != []
    && var n, most := |run.requests|, if s.maxTurns > 0 then s.maxTurns else 100;
       var was, notice := run.requests[n - 1].history, run.core.notice;
       match w.reply(n - 1)
       case NoReply(error) => run.failed && run.history == was && notice == s.wording(LlmError(error))
       case Reply(content, calls, refusal) =>
         var text, said := ReadBack.BlockText(content), was + Replay(content);
         if calls != [] then
           && (run.failed <==> run.core.blocked >= 3)
           && if run.failed then notice == s.wording(Stuck)
              else n == most && notice == s.wording(OutOfTurns(most))
         else if refusal then !run.failed && run.history == said && notice == s.wording(Refusal)
         else if run.failed then
           run.history == said && Stalls(s, t, run.core.flags, w.compiled(n - 1)) && notice == s.wording(Stalled)
         else if run.history == said then NothingDue(s, t, run.core.flags, text, w.compiled(n - 1))
         else
           && n == most && notice == s.wording(OutOfTurns(most))
           && exists note :: run.history == said + [Message(User, Plain(s.wording(note)))]
  }

  lemma LastTurnEnds(s: Setup, t: Trigger, w: World, a: Shot, rs: seq<Request>, b: Turned)
    requires rs != [] && rs[|rs| - 1].history == a.history && TurnLaw(s, t, w, a, |rs| - 1, b)
    requires b.next ==> |rs| == Turns(s)
    ensures EndLaw(s, t, w, RunFrom(s, t, w, rs, b))
  {
    match w.reply(|rs| - 1)
    case NoReply(_) =>
    case Reply(content, calls, refusal) =>
      if calls == [] && !refusal {
        var text, compiled := ReadBack.BlockText(content), w.compiled(|rs| - 1);
        if b.next {
          var note :| Nudged(s, t, a, text, compiled, Replay(content), b.shot, note);
          assert |b.shot.history| == |a.history + Replay(content)| + 1;
        } else if !b.failed {
          TextEnds(s, t, a, text, compiled, Replay(content), b);
        }
      }
  }

  lemma {:induction false} LastRequest(step: Step, w: World, first: seq<Message>, n: nat)
    requires n >= 1
    ensures |Requests(step, w, first, n)| == n && Requests(step, w, first, n)[n - 1] == RequestAt(step, w, first, n - 1)
  {
    FirstRequest(step, w, first, n);
  }

  lemma ChainEnds(s: Setup, t: Trigger, w: World, step: Step, first: seq<Message>, n: nat)
    requires n >= 1 && (TurnAt(step, first, n - 1).next ==> n == Turns(s))
    requires TurnLaw(s, t, w, ShotAt(step, first, n - 1), n - 1, TurnAt(step, first, n - 1))
    ensures EndLaw(s, t, w, RunOf(s, t, w, step, first, n))
  {
    LastRequest(step, w, first, n);
    var rs := Requests(step, w, first, n);
    LastTurnEnds(s, t, w, ShotAt(step, first, n - 1), rs, TurnAt(step, first, n - 1));
  }

  /** For any replies and tool results a session ends as promised. */
  lemma SessionEnds(s: Setup, t: Trigger, w: World, first: seq<Message>)
    ensures EndLaw(s, t, w, SessionOf(s, t, w, first))
  {
    var step := TurnsOf(s, t, w);
    var n := TurnsTaken(s, step, first);
    EveryTurnObeys(s, t, w, first, n - 1);
    assert GoesOn(step, first)(n - 1) == TurnAt(step, first, n - 1).next;
    ChainEnds(s, t, w, step, first, n);
  }

  /** The log of a session says of each model call what it sent, and whether it came after a text reply. */
  lemma RequestsTell(s: Setup, t: Trigger, w: World, first: seq<Message>, i: nat)
    requires i < |SessionOf(s, t, w, first).requests|
    ensures var r, a := SessionOf(s, t, w, first).requests[i], ShotAt(TurnsOf(s, t, w), first, i);
            && r.history == a.history && r.blocked == a.core.blocked
            && (r.afterText <==> i > 0 && w.reply(i - 1).Reply? && w.reply(i - 1).calls == [])
    ensures i == 0 ==> SessionOf(s, t, w, first).requests[0].history == first
  {
    var step := TurnsOf(s, t, w);
    FirstRequest(step, w, first, TurnsTaken(s, step, first));
    AllRequests(step, w, first, TurnsTaken(s, step, first), i);
  }

  lemma {:induction false} AllRequests(step: Step, w: World, first: seq<Message>, n: nat, i: nat)
    requires i < n
    ensures |Requests(step, w, first, n)| == n && Requests(step, w, first, n)[i] == RequestAt(step, w, first, i)
  {
    FirstRequest(step, w, first, n);
    if i < n - 1 {
      FirstRequest(step, w, first, n - 1);
      AllRequests(step, w, first, n - 1, i);
    }
  }

  /** The nudge behind a model call that follows a text reply: its cause held, and it was the last message sent. */
  ghost predicate NudgeBehind(s: Setup, t: Trigger, w: World, a: Shot, was: Request, now: Request, i: nat) {
    && w.reply(i).Reply? && w.reply(i).calls == [] && !w.reply(i).refusal
    && was.history == a.history
    && var content := w.reply(i).content;
       exists note ::
         && Caused(s, t, a.core.flags, ReadBack.BlockText(content), w.compiled(i), note)
         && now.history == was.history + Replay(content) + [Message(User, Plain(s.wording(note)))]
  }

  lemma NudgeWasCaused(s: Setup, t: Trigger, w: World, a: Shot, b: Turned, was: Request, now: Request, i: nat)
    requires TurnLaw(s, t, w, a, i, b) && b.next && TextOnly(w.reply(i))
    requires was.history == a.history && now.history == b.shot.history
    ensures NudgeBehind(s, t, w, a, was, now, i)
  {
    var content := w.reply(i).content;
    var text := ReadBack.BlockText(content);
    var note :| Nudged(s, t, a, text, w.compiled(i), Replay(content), b.shot, note);
  }

  /** No nudge without its cause, in any session. */
  lemma EveryNudgeHasItsCause(s: Setup, t: Trigger, w: World, first: seq<Message>, i: nat)
    requires i + 1 < TurnsTaken(s, TurnsOf(s, t, w), first) && RequestAt(TurnsOf(s, t, w), w, first, i + 1).afterText
    ensures var step := TurnsOf(s, t, w);
            NudgeBehind(
              s, t, w, ShotAt(step, first, i), RequestAt(step, w, first, i), RequestAt(step, w, first, i + 1), i)
  {
    var step := TurnsOf(s, t, w);
    EveryTurnObeys(s, t, w, first, i);
    assert GoesOn(step, first)(i);
    NudgeWasCaused(
      s, t, w, ShotAt(step, first, i), TurnAt(step, first, i), RequestAt(step, w, first, i),
      RequestAt(step, w, first, i + 1), i);
  }

  //
  // Late answers.
  //

  /** The requesters that nobody has messaged, in order. */
  function Owed(rs: seq<string>, sentTo: seq<string>, self: string): seq<string> {
    if rs == [] then []
    else
      var n := |rs| - 1;
      var before := Owed(rs[..n], sentTo, self);
      if rs[n] in sentTo || rs[n] == self then before else before + [rs[n]]
  }

  function Late(owed: seq<string>, text: Text, delivered: string -> bool): seq<Outgoing> {
    seq(|owed|, i requires 0 <= i < |owed| => Outgoing(owed[i], true, text, false, delivered(owed[i])))
  }

  /** The notice and the last text; without either, a stock answer that says whether the session failed. */
  function LateText(s: Setup, notice: Text, answer: Option<Text>, failed: bool): Text {
    match answer
    case None => if notice == [] then s.wording(if failed then FailedAnswer else NoAnswer) else notice
    case Some(text) =>
      if notice != [] then notice + [LF] + text
      else if text == [] then s.wording(if failed then FailedAnswer else NoAnswer)
      else text
  }

  lemma {:induction false} DeliveredIs(s: Setup, w: World, c: Core, rs: seq<string>, text: Text)
    requires GoodRegistry(s.agents) && Known(s.agents, rs)
    ensures Delivered(LateAnswer(s, w, text), c, rs) == c.sends + Late(Owed(rs, c.sentTo, s.name), text, w.delivered)
  {
    if rs != [] {
      var n := |rs| - 1;
      DeliveredIs(s, w, c, rs[..n], text);
      KnownAttempt(s.agents, s.name, rs[n], true, text, w.delivered);
      var before := Owed(rs[..n], c.sentTo, s.name);
      assert Late(before + [rs[n]], text, w.delivered)
          == Late(before, text, w.delivered) + [Outgoing(rs[n], true, text, false, w.delivered(rs[n]))];
    }
  }

  /** Exactly the requesters that were not messaged get one late answer each, in order, and nobody else gets any. */
  lemma LateAnswersAre(s: Setup, t: Trigger, w: World, a: Shot, failed: bool)
    requires GoodRegistry(s.agents) && Known(s.agents, t.requesters)
    ensures var text := LateText(s, a.core.notice, a.answer, failed);
            Finished(s, t, w, a, failed)
            == a.core.(sends := a.core.sends + Late(Owed(t.requesters, a.core.sentTo, s.name), text, w.delivered))
  {
    DeliveredIs(s, w, a.core, t.requesters, FinalText(s, a, failed));
  }

  //
  // What a session is given.
  //

  lemma {:induction false} SomeoneAsks(mails: seq<Mail>)
    ensures Requesters(mails) == [] <==> forall i | 0 <= i < |mails| :: mails[i].reply
  {
    if mails != [] {
      var n := |mails| - 1;
      SomeoneAsks(mails[..n]);
      assert forall i | 0 <= i < n :: mails[i] == mails[..n][i];
    }
  }

  /** A session talks to the owner unless somebody in its mail asks for an answer. */
  lemma TalksUnlessAsked(mails: Option<seq<Mail>>)
    ensures var t := TriggerOf(mails);
            && t.mail == mails.Some?
            && (t.relay <==> mails.None? || forall i | 0 <= i < |mails.value| :: mails.value[i].reply)
            && t.requesters == if mails.None? then [] else Requesters(mails.value)
  {
    if mails.Some? {
      SomeoneAsks(mails.value);
    }
  }

  /** At most as many model calls as configured, 100 by default; a call on record ran twice at most, or once. */
  lemma LimitsAre(s: Setup, t: Trigger, first: seq<Message>, good: bool, run: Run, k: Key)
    requires RunOk(s, t, first, good, run)
    ensures |run.requests| <= if s.maxTurns > 0 then s.maxTurns else 100
    ensures Recorded(run.core.table, Hash(k)) ==>
              run.core.ran[k] <= if s.builder && s.kind(k.name) == ReadFile then 1 else 2
  {
    assert RunsOk(run.core.table, run.core.ran, RunLimit(s), k);
  }
}
