/** What a session does, turn by turn: the chain of its states, as a function of the replies and tool results. */
module SessionChain {
  import opened Options
  import opened Bytes
  import opened History
  import opened Exchange
  import opened Messenger
  import opened Repeats
  import opened Session
  import Provider
  import Trim

  /** The part of the state that tool calls change. `ran` and `sends` log what they did. */
  datatype Core = Core(
    flags: Flags, table: seq<Entry>, ran: multiset<Key>, blocked: nat, sends: seq<Outgoing>, sentTo: seq<string>,
    notice: Text)

  const FRESH: Core :=
    Core(Flags(false, false, false, false, false, false, false), [], multiset{}, 0, [], [], [])

  //
  // Tool calls.
  //

  /** Offered and with an object for its arguments: the calls that reach the repeat check. */
  predicate Runnable(s: Setup, w: World, call: Provider.ToolCall) {
    call.name in s.offered && w.json.isObject(call.input)
  }

  function KeyOf(w: World, call: Provider.ToolCall): Key {
    Key(call.name, w.json.printed(call.input))
  }

  /** Nothing is unsaid or undone: messages and runs only grow. */
  predicate Grows(c: Core, c': Core) {
    c.sends <= c'.sends && c.ran <= c'.ran && c.blocked <= c'.blocked
  }

  predicate SameTable(c: Core, c': Core) {
    c'.table == c.table && c'.ran == c.ran && c'.blocked == c.blocked
  }

  /** All flags but sentMessage. */
  predicate SameFlags(c: Core, c': Core) {
    c'.flags == c.flags.(sentMessage := c'.flags.sentMessage) && c'.notice == c.notice
  }

  /** A call that may run again. */
  predicate Allowed(s: Setup, w: World, c: Core, call: Provider.ToolCall) {
    !Exceeds(c.table, Hash(KeyOf(w, call)), RunLimit(s)(KeyOf(w, call)))
  }

  /** To whom send_message goes: a requester under its registered name, anybody else as written. */
  function Target(s: Setup, t: Trigger, w: World, input: Text): (r: (Option<string>, bool))
    ensures r.1 <==> Resolve(s.agents, w.json.to(input)).Some? && r.0.Some? && r.0.value in t.requesters
                     && r.0 == Resolve(s.agents, w.json.to(input))
  {
    var name := Resolve(s.agents, w.json.to(input));
    if name.Some? && name.value in t.requesters then (name, true) else (w.json.to(input), false)
  }

  /** The core and the result after a send_message. */
  function AfterSend(s: Setup, t: Trigger, w: World, c: Core, input: Text, written: string -> bool): (r: (Core, Result))
    ensures Grows(c, r.0) && SameTable(c, r.0) && SameFlags(c, r.0)
  {
    if w.json.problem(input).Some? then (c, Result(w.json.problem(input).value, true))
    else
      var (to, reply) := Target(s, t, w, input);
      var name := Resolve(s.agents, w.json.to(input));
      var fails := SendFails(s.agents, s.name, to, written);
      var sends := c.sends + Attempts(s.agents, s.name, to, reply, w.json.content(input), written);
      (c.(sends := sends,
          flags := c.flags.(sentMessage := c.flags.sentMessage || !fails),
          sentTo := if !fails && name.Some? && |c.sentTo| < SENT_MAX then c.sentTo + [name.value] else c.sentTo),
       Result(s.wording(if fails then NotSent else MessageSent), fails))
  }

  /** The repeat check. */
  function Checked(s: Setup, w: World, c: Core, call: Provider.ToolCall): (c': Core)
    ensures Grows(c, c') && SameFlags(c, c') && |c'.ran| + c'.blocked == |c.ran| + c.blocked + 1
    ensures c' == c.(table := c'.table, ran := c'.ran, blocked := c'.blocked)
  {
    var key := KeyOf(w, call);
    var table := Counted(c.table, Hash(key));
    if Allowed(s, w, c, call) then c.(table := table, ran := c.ran + multiset{key})
    else c.(table := table, blocked := c.blocked + 1)
  }

  /** run_tool, for a tool that returns `outcome` if it is executed. */
  function Called(
    s: Setup, t: Trigger, w: World, c: Core, call: Provider.ToolCall, outcome: Result, written: string -> bool)
    : (r: (Core, Result))
    ensures Grows(c, r.0) && SameFlags(c, r.0) && |r.0.ran| + r.0.blocked <= |c.ran| + c.blocked + 1
    ensures r.1.error || (Runnable(s, w, call) && (s.kind(call.name) != SendMessage ==> r.1 == outcome))
  {
    if call.name !in s.offered then (c, Result(s.wording(UnknownTool(call.name)), true))
    else if !w.json.isObject(call.input) then (c, Result(s.wording(BadArguments(call.name)), true))
    else if !Allowed(s, w, c, call) then (Checked(s, w, c, call), Result(s.wording(Repeated(call.name)), true))
    else if s.kind(call.name) == SendMessage then AfterSend(s, t, w, Checked(s, w, c, call), call.input, written)
    else (Checked(s, w, c, call), outcome)
  }

  /** What the loop notes about a call that has returned. */
  function Noted(s: Setup, c: Core, call: Provider.ToolCall, result: Result): (c': Core)
    ensures Nudges(c'.flags) == Nudges(c.flags) && c' == c.(flags := c'.flags, notice := c'.notice)
  {
    var created, listed := s.kind(call.name) == CreatePlugin, s.kind(call.name) == ListAgents;
    c.(flags := c.flags.(
         pluginFailed := if created then result.error else c.flags.pluginFailed,
         pluginDone := c.flags.pluginDone || (created && !result.error),
         listedAgents := c.flags.listedAgents || listed),
       notice := if created && !result.error then result.text else c.notice)
  }

  function OneCall(s: Setup, t: Trigger, w: World, c: Core, call: Provider.ToolCall, turn: nat, i: nat)
    : (Core, Result)
  {
    var (c', result) := Called(s, t, w, c, call, w.tool(turn, i), w.written(turn, i));
    (Noted(s, c', call, result), result)
  }

  type Caller = (Core, Provider.ToolCall, nat) -> (Core, Result)

  /** The calls of a reply, one after another. */
  function Fold(step: Caller, c: Core, calls: seq<Provider.ToolCall>): (r: (Core, seq<Result>))
    ensures |r.1| == |calls|
  {
    if calls == [] then (c, [])
    else
      var n := |calls| - 1;
      var (c', results) := Fold(step, c, calls[..n]);
      var (c'', result) := step(c', calls[n], n);
      (c'', results + [result])
  }

  function CallsOf(s: Setup, t: Trigger, w: World, turn: nat): Caller {
    (c: Core, call: Provider.ToolCall, i: nat) => OneCall(s, t, w, c, call, turn, i)
  }

  function AllCalls(s: Setup, t: Trigger, w: World, c: Core, calls: seq<Provider.ToolCall>, turn: nat)
    : (r: (Core, seq<Result>))
    ensures |r.1| == |calls|
  {
    Fold(CallsOf(s, t, w, turn), c, calls)
  }

  //
  // Turns.
  //

  datatype Shot = Shot(history: seq<Message>, core: Core, answer: Option<Text>)

  /** The state after a turn, whether the session goes on, and whether it has failed. */
  datatype Turned = Turned(shot: Shot, next: bool, failed: bool)

  predicate TextOnly(r: Reply) {
    r.Reply? && r.calls == []
  }

  /** The nudge that goes with a verdict of 1, and the flag it uses up. */
  function NudgeOf(s: Setup, f: Flags, compiled: Option<Result>): (Note, Flags) {
    if s.builder && !f.pluginDone then
      (if compiled.Some? then BuilderFailed(compiled.value.text) else BuilderNudge, f.(builderRetryUsed := true))
    else if s.hub && f.listedAgents && !f.sentMessage && !f.hubRetryUsed then (HubNudge, f.(hubRetryUsed := true))
    else (EmptyNudge, f.(emptyRetryUsed := true))
  }

  /** A session that a text reply ends: a plugin was built out of it, or a builder gives up. */
  function Ended(s: Setup, c: Core, compiled: Option<Result>, verdict: int): Core {
    if !(s.builder && !c.flags.pluginDone) then c
    else if verdict < 0 then c.(notice := s.wording(Stalled))
    else if compiled.Some? then c.(flags := c.flags.(pluginDone := true), notice := compiled.value.text)
    else c
  }

  function AfterText(s: Setup, t: Trigger, a: Shot, text: Text, compiled: Option<Result>): Turned {
    var verdict := Verdict(s, t, a.core.flags, text, compiled);
    if verdict == 1 then
      var (note, flags) := NudgeOf(s, a.core.flags, compiled);
      Turned(a.(history := a.history + [UserText(s.wording(note))], core := a.core.(flags := flags)), true, false)
    else Turned(a.(core := Ended(s, a.core, compiled, verdict)), false, verdict < 0)
  }

  function TextTurn(s: Setup, t: Trigger, w: World, a: Shot, turn: nat): Turned
    requires w.reply(turn).Reply?
  {
    var reply := w.reply(turn);
    var said := a.(history := a.history + Said(reply.content));
    if reply.refusal then Turned(said.(core := a.core.(notice := s.wording(Refusal))), false, false)
    else AfterText(s, t, said, TextOf(reply.content), w.compiled(turn))
  }

  function ToolTurn(s: Setup, t: Trigger, w: World, a: Shot, turn: nat): Turned
    requires w.reply(turn).Reply?
  {
    var reply := w.reply(turn);
    var (c, results) := AllCalls(s, t, w, a.core, reply.calls, turn);
    var history := Shortened(s, a.history + Said(reply.content) + [ResultTurn(reply.calls, results)]);
    var next := c.blocked < MAX_BLOCKED;
    Turned(a.(history := history, core := if next then c else c.(notice := s.wording(Stuck))), next, !next)
  }

  /** The last text that is not empty. */
  function Heard(a: Shot, text: Text): Shot {
    if text == [] then a else a.(answer := Some(text))
  }

  /** One turn: how the reply decides what is kept and whether the session goes on. */
  function TurnStep(s: Setup, t: Trigger, w: World, a: Shot, turn: nat): Turned {
    var reply := w.reply(turn);
    if reply.NoReply? then Turned(a.(core := a.core.(notice := s.wording(LlmError(reply.error)))), false, true)
    else if reply.calls != [] then ToolTurn(s, t, w, Heard(a, TextOf(reply.content)), turn)
    else TextTurn(s, t, w, Heard(a, TextOf(reply.content)), turn)
  }

  //
  // The chain.
  //

  type Step = (Shot, nat) -> Turned

  function TurnsOf(s: Setup, t: Trigger, w: World): Step {
    (a: Shot, turn: nat) => TurnStep(s, t, w, a, turn)
  }

  /** The state after `n` turns of a session that starts with the history `first`. */
  function ShotAt(step: Step, first: seq<Message>, n: nat): Shot {
    if n == 0 then Shot(first, FRESH, None) else step(ShotAt(step, first, n - 1), n - 1).shot
  }

  function TurnAt(step: Step, first: seq<Message>, n: nat): Turned {
    step(ShotAt(step, first, n), n)
  }

  /** Whether the session goes on after a turn. */
  function GoesOn(step: Step, first: seq<Message>): nat -> bool {
    (k: nat) => TurnAt(step, first, k).next
  }

  /** All of the first `n` turns but the last go on. */
  predicate WentOn(step: Step, first: seq<Message>, n: nat) {
    forall k: nat | k + 1 < n :: GoesOn(step, first)(k)
  }

  /** How many turns there are, from turn `i` on: until one ends the session, or none is left. */
  function Length(max: nat, next: nat -> bool, i: nat): (n: nat)
    requires i < max
    ensures i < n <= max
    ensures forall k: nat | i <= k < n - 1 :: next(k)
    ensures n == max || !next(n - 1)
    decreases max - i
  {
    if i + 1 < max && next(i) then Length(max, next, i + 1) else i + 1
  }

  /** The model call of turn `i`. */
  function RequestAt(step: Step, w: World, first: seq<Message>, i: nat): Request {
    var a := ShotAt(step, first, i);
    Request(a.history, a.core.blocked, i > 0 && TextOnly(w.reply(i - 1)))
  }

  /** The first `n` model calls. */
  function Requests(step: Step, w: World, first: seq<Message>, n: nat): seq<Request> {
    if n == 0 then [] else Requests(step, w, first, n - 1) + [RequestAt(step, w, first, n - 1)]
  }

  /** deliver_answer: what the model did not answer itself gets a late answer. */
  function Delivered(late: string -> seq<Outgoing>, c: Core, requesters: seq<string>): seq<Outgoing> {
    if requesters == [] then c.sends
    else
      var n := |requesters| - 1;
      var sends := Delivered(late, c, requesters[..n]);
      if requesters[n] in c.sentTo then sends else sends + late(requesters[n])
  }

  function LateAnswer(s: Setup, w: World, text: Text): string -> seq<Outgoing> {
    (r: string) => Attempts(s.agents, s.name, Some(r), true, text, w.delivered)
  }

  function FinalText(s: Setup, a: Shot, failed: bool): Text {
    AnswerText(a.core.notice, a.answer, s.wording(if failed then FailedAnswer else NoAnswer))
  }

  /** The end of a session with requesters; without any, nothing is sent. */
  function Finished(s: Setup, t: Trigger, w: World, a: Shot, failed: bool): Core {
    a.core.(sends := Delivered(LateAnswer(s, w, FinalText(s, a, failed)), a.core, t.requesters))
  }

  /** The state after the loop. */
  function LoopEnd(s: Setup, last: Turned): Shot {
    if last.next then last.shot.(core := last.shot.core.(notice := s.wording(OutOfTurns(Turns(s))))) else last.shot
  }

  /** A whole session: its model calls, the history it leaves, its final core, and whether it failed. */
  datatype Run = Run(requests: seq<Request>, history: seq<Message>, core: Core, failed: bool)

  /** The end of a session after the model calls `rs` and the last turn. */
  function RunFrom(s: Setup, t: Trigger, w: World, rs: seq<Request>, last: Turned): Run {
    var end := LoopEnd(s, last);
    Run(rs, end.history, Finished(s, t, w, end, last.failed), last.failed)
  }

  /** The session that takes `n` turns. */
  function RunOf(s: Setup, t: Trigger, w: World, step: Step, first: seq<Message>, n: nat): Run
    requires n >= 1
  {
    RunFrom(s, t, w, Requests(step, w, first, n), TurnAt(step, first, n - 1))
  }

  function TurnsTaken(s: Setup, step: Step, first: seq<Message>): (n: nat)
    ensures 1 <= n <= Turns(s) && WentOn(step, first, n)
    ensures n == Turns(s) || !GoesOn(step, first)(n - 1)
  {
    Length(Turns(s), GoesOn(step, first), 0)
  }

  function SessionOf(s: Setup, t: Trigger, w: World, first: seq<Message>): Run {
    RunOf(s, t, w, TurnsOf(s, t, w), first, TurnsTaken(s, TurnsOf(s, t, w), first))
  }
}
