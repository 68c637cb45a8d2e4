/** Whole sessions, one after another: what `agent_run_session` of src/agent.c keeps and resumes. */
module AgentSession {
  import opened Options
  import opened Bytes
  import opened History
  import opened Exchange
  import opened Messenger
  import opened Repeats
  import opened Session
  import opened SessionChain
  import opened SessionBounds
  import opened SessionLoop
  import Protocol = Answers
  import Logs = Chat

  /** The open conversation with the owner: its id, and the last line that a render covers. */
  datatype Chat = Chat(id: nat, line: nat)

  /** How many characters of history an agent keeps. */
  function KeepMax(s: Setup): nat {
    if s.budget > 0 then s.budget else CONV_MAX
  }

  /** A completed session that ends with an assistant turn: its history may be kept. */
  predicate Keepable(run: Run) {
    run.history != [] && !run.failed && run.history[|run.history| - 1].role == Assistant
  }

  /** What is kept of `ms`: the longest cut that fits, or nothing if even the shortest does not. */
  ghost predicate KeptOf(
    ms: seq<Message>, r: seq<Message>, size: seq<Message> -> nat, max: nat, conv: Option<seq<Message>>)
    requires ms != []
  {
    && r != [] && CutOf(ms, r) && LeastCut(ms, r, size, max)
    && if size(r) <= max then conv == Some(r) else conv == None && Uncuttable(r)
  }

  /** At most the opening and one more user text are left. */
  predicate Uncuttable(r: seq<Message>)
    requires r != []
  {
    FirstText(r, 1) == |r| || FirstText(r, FirstText(r, 1) + 1) == |r|
  }

  /** The history of an agent between its sessions. */
  class Memory {
    var conv: Option<seq<Message>>
    var id: nat
    var line: nat

    /** What is kept can be resumed. */
    ghost predicate Sound()
      reads this
    {
      conv.Some? ==> Kept(conv.value)
    }

    predicate Resumes(talk: bool, chat: Chat)
      reads this
    {
      talk && conv.Some? && id == chat.id
    }

    /** The list of messages a session starts with; it is taken out of the memory. */
    method Begin(talk: bool, chat: Chat, opening: bool -> Text) returns (c: Conversation)
      modifies this`conv
      ensures fresh(c)
      ensures c.messages
           == if talk && old(conv).Some? && old(id) == chat.id
              then old(conv).value + [Message(User, Plain(opening(true)))]
              else [Message(User, Plain(opening(false)))]
      ensures conv == if talk then None else old(conv)
      ensures old(Sound()) ==> Sound() && Started(c.messages)
    {
      var resume := Resumes(talk, chat);
      ghost var first := if resume then conv.value else [];
      if Sound() {
        AppendText(first, opening(resume));
      }
      if talk && !resume {
        conv := None;
      }
      c := new Conversation(if resume then conv.value else []);
      if resume {
        conv := None;
      }
      c.messages := c.messages + [UserText(opening(resume))];
    }

    /** Complete exchanges only, within the limit. */
    method Keep(c: Conversation, talk: bool, failed: bool, chat: Chat, s: Setup, size: seq<Message> -> nat)
      requires c.messages != [] && (talk ==> conv == None)
      modifies this, c
      ensures var ended := talk && !failed && old(c.messages[|c.messages| - 1].role) == Assistant;
              if ended
              then KeptOf(
                     old(c.messages), c.messages, size, if s.budget > 0 then s.budget else CONV_MAX, conv)
                   && (conv.Some? ==> id == chat.id && line == chat.line)
              else conv == old(conv) && id == old(id) && line == old(line)
      ensures old(Sound()) && old(Started(c.messages)) ==> Sound()
    {
      ghost var ms := c.messages;
      if talk && !failed && c.messages[|c.messages| - 1].role == Assistant {
        var fits := c.Fit(size, KeepMax(s));
        if fits {
          conv, id, line := Some(c.messages), chat.id, chat.line;
          if Started(ms) {
            CutOfKept(ms, c.messages);
          }
        }
      }
    }

    /**
     * A session, from the trigger to the kept history. `mails` is the mail it answers, or None for the owner or a
     * due task; `log` is the shared conversation, if there is one; `size` is the printed length. Model calls, tool
     * calls, messages and the outcome are those of the chain of turns, and keep its bounds.
     */
    method RunSession(
      s: Setup, w: World, mails: Option<seq<Mail>>, log: Logs.ChatLog?, now: int, opening: (bool, Text) -> Text,
      size: seq<Message> -> nat)
      returns (failed: bool, ghost run: Run, ghost cut: seq<Message>)
      requires GoodRegistry(s.agents) && (log != null ==> log.Valid())
      modifies this, if log != null then {log} else {}
      ensures var trig := TriggerOf(mails);
              && run.requests != []
              && RunOk(s, trig, run.requests[0].history, old(Sound()) && GoodReplies(w), run)
              && run == SessionOf(s, trig, w, run.requests[0].history) && failed == run.failed
              && OpensAs(
                   run.requests[0].history, trig.relay && log != null, old(conv), old(id), old(line),
                   old(Model(log)), now, s.name, opening)
      ensures if TriggerOf(mails).relay && log != null
              then (if Keepable(run)
                    then KeptOf(run.history, cut, size, if s.budget > 0 then s.budget else CONV_MAX, conv)
                    else conv == None)
                   && (conv.Some? ==> KeptFor(old(Model(log)), now, id, line))
              else conv == old(conv) && id == old(id) && line == old(line)
      ensures old(Sound()) && GoodReplies(w) ==> Sound()
      ensures log != null ==> log.Valid()
    {
      var requesters, replyBatch := [], true;
      if mails.Some? {
        requesters, replyBatch := ParseTrigger(mails.value);
      }
      failed, run, cut := Answer(s, w, Trigger(mails.Some?, requesters, replyBatch), log, now, opening, size);
    }

    /** The same for a parsed trigger. */
    method Answer(
      s: Setup, w: World, trig: Trigger, log: Logs.ChatLog?, now: int, opening: (bool, Text) -> Text,
      size: seq<Message> -> nat)
      returns (failed: bool, ghost run: Run, ghost cut: seq<Message>)
      requires GoodRegistry(s.agents) && (log != null ==> log.Valid())
      modifies this, if log != null then {log} else {}
      ensures run.requests != []
      ensures var first := run.requests[0].history;
              && RunOk(s, trig, first, old(Sound()) && GoodReplies(w), run)
              && run == SessionOf(s, trig, w, first) && failed == run.failed
              && OpensAs(
                   first, trig.relay && log != null, old(conv), old(id), old(line), old(Model(log)), now, s.name,
                   opening)
      ensures if trig.relay && log != null
              then (if Keepable(run) then KeptOf(run.history, cut, size, KeepMax(s), conv) else conv == None)
                   && (conv.Some? ==> KeptFor(old(Model(log)), now, id, line))
              else conv == old(conv) && id == old(id) && line == old(line)
      ensures old(Sound()) && GoodReplies(w) ==> Sound()
      ensures log != null ==> log.Valid()
    {
      var talk := trig.relay && log != null;
      var chat, lines := Look(talk, log, now, s.name);
      ghost var model, was, wasId, wasLine := old(Model(log)), conv, id, line;
      failed, run, cut := Serve(s, w, trig, talk, chat, (resume: bool) => opening(resume, lines), size);
      Opening(run.requests[0].history, talk, was, wasId, wasLine, model, now, s.name, opening, chat, lines);
    }

    /** chat_id, and chat_render from where the agent left off if it resumes its history. */
    method Look(talk: bool, log: Logs.ChatLog?, now: int, name: string) returns (chat: Chat, lines: Text)
      requires log != null ==> log.Valid()
      requires talk ==> log != null
      modifies if log != null then {log} else {}
      ensures log != null ==> log.Valid()
      ensures Looked(talk, conv, id, line, old(Model(log)), now, name, chat, lines)
    {
      chat, lines := Chat(0, 0), [];
      if talk {
        var current := log.Id(now);
        var upto;
        var resume := Resumes(talk, Chat(current, 0));
        lines, upto := log.Render(
          if resume then line else 0, if resume then Some(name) else None, Logs.LINES * Logs.WIDTH + 64);
        chat := Chat(current, upto);
      }
    }

    /** A session that has looked at the chat. */
    method Serve(
      s: Setup, w: World, trig: Trigger, talk: bool, chat: Chat, opening: bool -> Text, size: seq<Message> -> nat)
      returns (failed: bool, ghost run: Run, ghost cut: seq<Message>)
      requires GoodRegistry(s.agents)
      modifies this
      ensures var first := if talk && old(conv).Some? && old(id) == chat.id
                           then old(conv).value + [Message(User, Plain(opening(true)))]
                           else [Message(User, Plain(opening(false)))];
              && RunOk(s, trig, first, old(Sound()) && GoodReplies(w), run)
              && run == SessionOf(s, trig, w, first) && failed == run.failed
      ensures if talk
              then (if Keepable(run) then KeptOf(run.history, cut, size, KeepMax(s), conv) else conv == None)
                   && (conv.Some? ==> id == chat.id && line == chat.line)
              else conv == old(conv) && id == old(id) && line == old(line)
      ensures old(Sound()) && GoodReplies(w) ==> Sound()
    {
      ghost var good := Sound() && GoodReplies(w);
      var c := Begin(talk, chat, opening);
      ghost var first := c.messages;
      failed, run := Play(s, trig, w, c, good);
      Keep(c, talk, failed, chat, s, size);
      cut := c.messages;
      assert RunOk(s, trig, first, good, run) && run == SessionOf(s, trig, w, first);
    }
  }

  /** The shared conversation as a value; without one, an empty log stands for it. */
  ghost function Model(log: Logs.ChatLog?): Logs.Log
    requires log != null ==> log.Valid()
    reads if log != null then {log, log.lines} else {}
  {
    if log == null then Logs.Log([], 0, 0, 0, 0) else log.Model()
  }

  /**
   * The first history of a session. A session that talks resumes what was kept if it was kept for the conversation
   * that is still open, with the lines of others since; otherwise it starts anew, with the lines of the conversation.
   */
  ghost predicate OpensAs(
    first: seq<Message>, talk: bool, conv: Option<seq<Message>>, id: nat, line: nat, log: Logs.Log, now: int,
    name: string, opening: (bool, Text) -> Text)
  {
    var over := log.lines != [] && now - log.last >= log.idle;
    if !talk then first == [Message(User, Plain(opening(false, [])))]
    else if conv.Some? && id == log.id && !over then
      first == conv.value + [Message(User, Plain(opening(true, Logs.Joined(Logs.Shown(log.lines, line, Some(name))))))]
    else if conv.Some? && id == log.id + 1 && over then
      first == conv.value + [Message(User, Plain(opening(true, [])))]
    else
      first == [Message(User, Plain(opening(false, Logs.Joined(Logs.Shown(if over then [] else log.lines, 0, None)))))]
  }

  /** The open conversation, and its lines: those of others since if the history is resumed, else all. */
  ghost predicate Looked(
    talk: bool, conv: Option<seq<Message>>, id: nat, line: nat, log: Logs.Log, now: int, name: string, chat: Chat,
    lines: Text)
  {
    var over := log.lines != [] && now - log.last >= log.idle;
    if !talk then lines == []
    else
      && chat == Chat(if over then log.id + 1 else log.id, log.num)
      && lines == Logs.Joined(
                    if conv.Some? && id == chat.id
                    then Logs.Shown(if over then [] else log.lines, line, Some(name))
                    else Logs.Shown(if over then [] else log.lines, 0, None))
  }

  lemma Opening(
    first: seq<Message>, talk: bool, conv: Option<seq<Message>>, id: nat, line: nat, log: Logs.Log, now: int,
    name: string, opening: (bool, Text) -> Text, chat: Chat, lines: Text)
    requires Looked(talk, conv, id, line, log, now, name, chat, lines)
    requires first == if talk && conv.Some? && id == chat.id
                      then conv.value + [Message(User, Plain(opening(true, lines)))]
                      else [Message(User, Plain(opening(false, lines)))]
    ensures OpensAs(first, talk, conv, id, line, log, now, name, opening)
    ensures talk ==> KeptFor(log, now, chat.id, chat.line)
  {
  }

  /** What is kept belongs to the conversation that was open when the session started, up to its newest line. */
  ghost predicate KeptFor(log: Logs.Log, now: int, id: nat, line: nat) {
    var over := log.lines != [] && now - log.last >= log.idle;
    id == (if over then log.id + 1 else log.id) && line == log.num
  }

  /** The loop and the answer. */
  method Play(s: Setup, trig: Trigger, w: World, c: Conversation, ghost good: bool)
    returns (failed: bool, ghost run: Run)
    requires GoodRegistry(s.agents) && c.messages != [] && (good ==> GoodReplies(w) && Started(c.messages))
    modifies c
    ensures run == SessionOf(s, trig, w, old(c.messages)) && failed == run.failed && c.messages == run.history
    ensures RunOk(s, trig, old(c.messages), good, run)
  {
    ghost var first := c.messages;
    var h := new Harness(s, trig, w, c);
    failed := h.Loop();
    h.Finish(failed);
    run := Run(h.requests, c.messages, h.State(), failed);
    SessionBounded(s, trig, w, first, good);
  }

  //
  // Sessions in the answer protocol.
  //

  function IndexOf(agents: seq<string>, name: string): (k: nat)
    requires name in agents
    ensures k < |agents| && agents[k] == name
  {
    if agents[0] == name then 0 else IndexOf(agents[1..], name) + 1
  }

  /**
   * The messages of a session that writes to nobody but its requesters are all marked as answers: the session
   * follows a plan of the answer protocol, with a place for every requester.
   */
  lemma SessionFollowsPlan(s: Setup, mails: seq<Mail>, sends: seq<Outgoing>)
    requires AllAnswered(s, Requesters(mails), sends)
    requires Known(s.agents, Requesters(mails)) && s.name !in Requesters(mails)
    requires forall i | 0 <= i < |sends| :: !sends[i].all && sends[i].to in Requesters(mails)
    ensures exists plan :: Follows(s, mails, sends, plan)
  {
    var rs := Requesters(mails);
    forall i | 0 <= i < |sends|
      ensures sends[i].reply && sends[i].to in s.agents
    {
      assert SendOk(s.agents, rs, sends[i]);
      var k :| 0 <= k < |rs| && rs[k] == sends[i].to;
    }
    var plan := seq(|sends|, i requires 0 <= i < |sends| => IndexOf(s.agents, sends[i].to));
    forall k | 0 <= k < |rs|
      ensures rs[k] in Targets(s, plan)
    {
      assert Due(s, rs[k]);
      var i :| 0 <= i < |sends| && sends[i].to == rs[k] && sends[i].reply;
      assert Targets(s, plan)[i] == rs[k];
    }
    assert Follows(s, mails, sends, plan);
  }

  function Targets(s: Setup, plan: seq<nat>): seq<string>
    requires forall i | 0 <= i < |plan| :: plan[i] < |s.agents|
  {
    seq(|plan|, i requires 0 <= i < |plan| => s.agents[plan[i]])
  }

  predicate Follows(s: Setup, mails: seq<Mail>, sends: seq<Outgoing>, plan: seq<nat>) {
    && |plan| == |sends| && Protocol.PlanOk(s.agents, mails, plan)
    && (forall i | 0 <= i < |plan| :: s.agents[plan[i]] == sends[i].to && sends[i].reply)
    && (forall k | 0 <= k < |Requesters(mails)| :: Requesters(mails)[k] in Targets(s, plan))
  }
}
