/** A session: `agent_run_session` of src/agent.c and the functions it is made of. */
module Session {
  import opened Options
  import opened Bytes
  import opened History
  import opened Exchange
  import opened Messenger
  import opened Repeats
  import Provider
  import Trim

  const MAX_TURNS: int := 100    // TC_MAX_TURNS
  const CONV_MAX: nat := 65536   // TC_CONV_MAX
  const SENT_MAX: nat := 8       // sent_to
  const MAX_BLOCKED: nat := 3    // repeats that stop the session

  //
  // What a session is given.
  //

  datatype Kind = SendMessage | CreatePlugin | ListAgents | ReadFile | OtherTool

  /** Texts of include/prompt.h. */
  datatype Note =
    | UnknownTool(name: Text) | BadArguments(name: Text) | Repeated(name: Text) | MessageSent | NotSent
    | BuilderFailed(result: Text) | BuilderNudge | HubNudge | EmptyNudge
    | Stalled | Stuck | Refusal | OutOfTurns(turns: int) | LlmError(error: Text) | FailedAnswer | NoAnswer

  /** The agent and the daemon around it. */
  datatype Setup = Setup(
    name: string, builder: bool, hub: bool, maxTurns: int, budget: int, anthropic: bool,
    agents: seq<string>, offered: seq<Text>, kind: Text -> Kind, wording: Note -> Text, elided: Trim.Notice)

  /**
   * Parsed tool arguments: whether they are an object, how they print, what tool_check_args objects to, "to" and
   * "content".
   */
  datatype Json = Json(
    isObject: Text -> bool, printed: Text -> Text, problem: Text -> Option<Text>, to: Text -> Option<string>,
    content: Text -> Text)

  /**
   * The world: the reply to the model call of each turn, what the tool of each call returns if it is executed,
   * what compiling a plugin out of a text reply gives, and which inboxes can be written.
   */
  datatype World = World(
    reply: nat -> Reply, tool: (nat, nat) -> Result, compiled: nat -> Option<Result>,
    written: (nat, nat) -> (string -> bool), delivered: string -> bool, json: Json)

  datatype Trigger = Trigger(mail: bool, requesters: seq<string>, relay: bool)

  /** parse_trigger: the mail of the session, or None for a message of the owner or a due task. */
  function TriggerOf(mails: Option<seq<Mail>>): Trigger {
    if mails.None? then Trigger(false, [], true)
    else
      var rs := Requesters(mails.value);
      Trigger(true, rs, rs == [])
  }

  function Turns(s: Setup): (n: nat)
    ensures n >= 1
  {
    if s.maxTurns > 0 then s.maxTurns else MAX_TURNS
  }

  predicate Trims(s: Setup) {
    s.budget > 0 && !s.anthropic
  }

  /** How often the same call may run. */
  function RunLimit(s: Setup): Limit {
    (k: Key) => if s.builder && s.kind(k.name) == ReadFile then 1 else 2
  }

  //
  // Messages to other agents.
  //

  /** A message for the inbox of `to`; `all` when it is part of a broadcast, `ok` when it was written. */
  datatype Outgoing = Outgoing(to: string, reply: bool, text: Text, all: bool, ok: bool)

  /** agent_message: the inboxes it writes. A message to the owner goes out over IRC. */
  function Attempts(
    agents: seq<string>, from: string, to: Option<string>, reply: bool, text: Text, written: string -> bool)
    : seq<Outgoing>
  {
    if Resolve(agents, to) == Some(OWNER) then []
    else match Send(agents, from, to)
      case Refused => []
      case Written(tos) =>
        seq(|tos|, i requires 0 <= i < |tos| => Outgoing(tos[i], reply, text, ToAll(to), written(tos[i])))
  }

  /** Whether the model gets an error for it. */
  predicate SendFails(agents: seq<string>, from: string, to: Option<string>, written: string -> bool) {
    && Resolve(agents, to) != Some(OWNER)
    && match Send(agents, from, to)
       case Refused => true
       case Written(tos) => !ToAll(to) && !written(tos[0])
  }

  /** An answer marked as one went out, successfully or not. */
  predicate Answered(sends: seq<Outgoing>, r: string) {
    exists i :: 0 <= i < |sends| && sends[i].to == r && sends[i].reply
  }

  predicate Reached(sends: seq<Outgoing>, r: string) {
    exists i :: 0 <= i < |sends| && sends[i].to == r && sends[i].reply && sends[i].ok
  }

  /** Requesters that are registered, as every writer of mail is. */
  predicate Known(agents: seq<string>, requesters: seq<string>) {
    forall i | 0 <= i < |requesters| :: requesters[i] in agents && requesters[i] != OWNER
  }

  /**
   * A requester noted as messaged has an answer; a message to a single requester is marked as an answer, and
   * answers go to requesters only.
   */
  predicate SendsOk(agents: seq<string>, requesters: seq<string>, sends: seq<Outgoing>, sentTo: seq<string>) {
    && (forall i | 0 <= i < |sentTo| :: sentTo[i] in requesters && sentTo[i] != OWNER ==> Reached(sends, sentTo[i]))
    && (forall i | 0 <= i < |sends| :: SendOk(agents, requesters, sends[i]))
  }

  predicate SendOk(agents: seq<string>, requesters: seq<string>, o: Outgoing) {
    && (!o.reply && !o.all ==> o.to !in requesters)
    && (o.reply && Known(agents, requesters) ==> o.to in requesters)
  }

  /** The requesters that can be answered: other registered agents. */
  predicate Due(s: Setup, r: string) {
    r in s.agents && r != OWNER && r != s.name
  }

  /** Every due requester got an answer, and every message is one the trigger allows. */
  predicate AllAnswered(s: Setup, requesters: seq<string>, sends: seq<Outgoing>) {
    && (forall i | 0 <= i < |requesters| :: Due(s, requesters[i]) ==> Answered(sends, requesters[i]))
    && (forall i | 0 <= i < |sends| :: SendOk(s.agents, requesters, sends[i]))
  }

  lemma KnownAttempt(agents: seq<string>, from: string, r: string, reply: bool, text: Text, written: string -> bool)
    requires GoodRegistry(agents) && r in agents && r != OWNER
    ensures r != from ==>
              Attempts(agents, from, Some(r), reply, text, written) == [Outgoing(r, reply, text, false, written(r))]
    ensures r == from ==> Attempts(agents, from, Some(r), reply, text, written) == []
    ensures SendFails(agents, from, Some(r), written) <==> r == from || !written(r)
  {
    var k :| 0 <= k < |agents| && agents[k] == r;
    assert Bare(r) == r && Lower(r) != ALL;
    MatchSelf(agents, k, r);
  }

  lemma OtherAttempt(
    agents: seq<string>, requesters: seq<string>, from: string, to: Option<string>, text: Text,
    written: string -> bool)
    requires Resolve(agents, to).Some? ==> Resolve(agents, to).value !in requesters
    ensures forall i | 0 <= i < |Attempts(agents, from, to, false, text, written)| ::
              SendOk(agents, requesters, Attempts(agents, from, to, false, text, written)[i])
  {
  }

  lemma ReachedMore(sends: seq<Outgoing>, more: seq<Outgoing>, r: string)
    ensures Reached(sends, r) || Reached(more, r) ==> Reached(sends + more, r)
    ensures Answered(sends, r) || Answered(more, r) ==> Answered(sends + more, r)
  {
    var all := sends + more;
    if Answered(sends, r) {
      var i :| 0 <= i < |sends| && sends[i].to == r && sends[i].reply;
      assert all[i] == sends[i];
    }
    if Answered(more, r) {
      var i :| 0 <= i < |more| && more[i].to == r && more[i].reply;
      assert all[|sends| + i] == more[i];
    }
    if Reached(sends, r) {
      var i :| 0 <= i < |sends| && sends[i].to == r && sends[i].reply && sends[i].ok;
      assert all[i] == sends[i];
    }
    if Reached(more, r) {
      var i :| 0 <= i < |more| && more[i].to == r && more[i].reply && more[i].ok;
      assert all[|sends| + i] == more[i];
    }
  }

  lemma SendsMore(
    agents: seq<string>, requesters: seq<string>, sends: seq<Outgoing>, sentTo: seq<string>, more: seq<Outgoing>)
    requires SendsOk(agents, requesters, sends, sentTo)
    requires forall i | 0 <= i < |more| :: SendOk(agents, requesters, more[i])
    ensures SendsOk(agents, requesters, sends + more, sentTo)
  {
    forall i | 0 <= i < |sentTo|
      ensures sentTo[i] in requesters && sentTo[i] != OWNER ==> Reached(sends + more, sentTo[i])
    {
      ReachedMore(sends, more, sentTo[i]);
    }
  }

  //
  // Replies without calls.
  //

  datatype Flags = Flags(
    builderRetryUsed: bool, hubRetryUsed: bool, emptyRetryUsed: bool,
    pluginDone: bool, pluginFailed: bool, sentMessage: bool, listedAgents: bool)

  /** The nudges given: each of the three at most once. */
  function Nudges(f: Flags): (n: nat)
    ensures n <= 3
  {
    (if f.builderRetryUsed then 1 else 0) + (if f.hubRetryUsed then 1 else 0) + (if f.emptyRetryUsed then 1 else 0)
  }

  /** A builder that owes a plugin: one was requested or has failed, and this reply did not bring it. */
  predicate OwesPlugin(t: Trigger, f: Flags, compiled: Option<Result>) {
    if compiled.Some? then compiled.value.error else t.mail || f.pluginFailed
  }

  /** What a text reply leads to: 1 for another turn, 0 for the end, -1 for a builder that failed. */
  function Verdict(s: Setup, t: Trigger, f: Flags, text: Text, compiled: Option<Result>): int {
    if s.builder && !f.pluginDone then
      if !OwesPlugin(t, f, compiled) then 0 else if f.builderRetryUsed then -1 else 1
    else if s.hub && f.listedAgents && !f.sentMessage && !f.hubRetryUsed then 1
    else if text == [] && !f.emptyRetryUsed then 1
    else 0
  }

  //
  // The text of an answer.
  //

  /** The notice of the harness and the last text reply, or a stock phrase if there is neither. */
  function AnswerText(notice: Text, answer: Option<Text>, fallback: Text): (r: Text)
    ensures fallback != [] ==> r != []
    ensures notice == [] ==> r == if answer.Some? && answer.value != [] then answer.value else fallback
    ensures notice != [] ==> r == notice + if answer.Some? then [LF] + answer.value else []
  {
    var a := if notice == [] && (answer.None? || answer.value == []) then Some(fallback) else answer;
    if a.None? then notice
    else if notice == [] then a.value
    else notice + [LF] + a.value
  }

  //
  // The model calls of a session.
  //

  /** A model call: the history it sends, the repeats blocked before it, whether it follows a text-only reply. */
  datatype Request = Request(history: seq<Message>, blocked: nat, afterText: bool)

  function AfterTexts(rs: seq<Request>): nat {
    if rs == [] then 0
    else
      var n := |rs| - 1;
      if rs[n].afterText then AfterTexts(rs[..n]) + 1 else AfterTexts(rs[..n])
  }

  /** Replies as the provider promises them, with complete calls. */
  ghost predicate GoodReplies(w: World) {
    forall k: nat :: GoodReply(w.reply(k))
  }

  predicate GoodReply(r: Reply) {
    r.Reply? ==> Handed(r.content, r.calls) && Answerable(r.content)
  }

  predicate Started(ms: seq<Message>) {
    WellPaired(ms) && ms != [] && IsUserText(ms[0])
  }

  /** What a reply adds to the history; an empty one adds nothing. */
  function Said(content: seq<Block>): seq<Message> {
    if content == [] then [] else [AssistantTurn(content)]
  }

  /** The history after a trim, for the agents that have one. */
  function Shortened(s: Setup, ms: seq<Message>): seq<Message> {
    if Trims(s) then Trim.Trimmed(ms, s.budget, s.elided) else ms
  }

  function TextOf(content: seq<Block>): Text {
    Provider.Joined(Provider.Texts(content, TextBlock))
  }

  /** Each history extends the one before, and `ms` extends the last. */
  predicate AppendOnly(rs: seq<Request>, ms: seq<Message>) {
    && (forall i, j | 0 <= i < j < |rs| :: rs[i].history <= rs[j].history)
    && (forall i | 0 <= i < |rs| :: rs[i].history <= ms)
  }

  /**
   * The model calls so far: none after the last repeat allowed, every history well paired if `good`, and without
   * trimming each one an extension of the one before.
   */
  predicate LogOk(s: Setup, good: bool, rs: seq<Request>, ms: seq<Message>) {
    && (forall i | 0 <= i < |rs| :: rs[i].blocked < MAX_BLOCKED)
    && (good ==> forall i | 0 <= i < |rs| :: Started(rs[i].history))
    && (!Trims(s) ==> AppendOnly(rs, ms))
  }
}
