# shclaw: a verified model of its hard parts

shclaw is a daemon that runs several LLM agents. This project models, in Dafny, the parts of it whose
correctness is a property of whole runs or of loops over shared buffers, and proves those properties:

- the dispatcher that starts at most one session per agent, in every interleaving with the worker threads,
  hands owner messages over in order exactly under a stated condition, and in the end starts everything that waits:
  owner messages, mail and due tasks
  (`Dispatcher.dfy`, `DispatcherOrder.dfy`, `DispatcherReorder.dfy`, `DispatcherFair.dfy`, `DispatcherMail.dfy`);
- the mail between agents and the answer protocol, which drains (`Messenger.dfy`, `Answers.dfy`);
- the session loop, with its tool calls, nudges, repeat guard and answers, and the history that it keeps and resumes
  (`Repeats.dfy`, `Exchange.dfy`, `Session.dfy`, `SessionChain.dfy`, `SessionBounds.dfy`, `SessionLaws.dfy`,
  `SessionLoop.dfy`, `AgentSession.dfy`);
- the conversation history under appending, cutting, trimming and translation to the OpenAI format
  (`History.dfy`, `Trim.dfy`, `Provider.dfy`, `ReadBack.dfy`);
- the ring of the shared conversation with the owner (`Chat.dfy`);
- the scheduler: times printed and parsed again, slots of recurring tasks, and runs of all its operations
  (`Calendar.dfy`, `Scheduler.dfy`, `SchedulerLaws.dfy`, `SchedulerRuns.dfy`);
- in-place algorithms on bytes and arrays: UTF-8 scrubbing, chunked decoding, IRC line reassembly, mention
  fan-out and the top-n memory search (`Utf8.dfy`, `Dechunk.dfy`, `IrcLines.dfy`, `Mentions.dfy`,
  `MemorySearch.dfy`).

`Bytes.dfy` and `Options.dfy` hold shared types. Code that updates buffers, lists or fields in place is modelled by
classes and methods with loops, each proved against a function; the properties are then lemmas about the function.
The concurrent dispatcher, the scheduler among sessions and the answer protocol are transition systems with an
inductive invariant or a decreasing measure. A session is a chain of states: `SessionChain` computes it from the replies
and tool results, `SessionBounds` proves what every chain keeps, `SessionLaws` what each reply leads to and how every
session ends, and the loop over mutable fields in `SessionLoop` is proved to follow it.
`dafny verify dfyconfig.toml` checks the whole project.

What the outside decides is a parameter over which the results quantify: the replies of the model and the results
of tools (`Session.World`), the clock, which file writes succeed, the order of a directory listing, random ids, the
local time zone, how JSON prints. Allocation succeeds, and the daemon's integers do not overflow.

Three findings about the code:

- Owner messages of one agent do not always start in arrival order, although the comment at src/daemon.c:339 promises
  it. The worker's two stores (end time, then busy) are separate, and a worker that stalls between them for the session
  gap can let a later message start first: `DispatcherReorder.SplitStoresReorder` is such a run. Between passes, the
  order holds exactly if no worker ever cleared busy while the loop over the queue stood between two messages of its
  agent with an end time at least 5 seconds older than the pass (`DispatcherOrder.OrderExactly`, an if-and-only-if). It
  is enough that every worker clears busy less than 5 seconds after the time it recorded
  (`DispatcherOrder.PromptClearsKeepOrder`). Under the same condition every queued message leaves in every fair run
  (`DispatcherFair.QueuedLeaves`).
- Printing a time and parsing it back is the identity exactly up to the last second of year 9999
  (`Calendar.RoundTrip` is an if-and-only-if).
- A turn with tool calls leaves the history well paired exactly if every `tool_use` block of the reply has a name and
  an id of at most 63 bytes (`Exchange.ToolTurnPaired` is an if-and-only-if): a longer id is cut for the result but
  not in the replayed turn (`Exchange.LongIdBreaksPairing` is an example), and a block without id or name gets no
  result.

## Model

| member | source | states |
|---|---|---|
| Dispatcher.TriggerQueue.Enqueue | src/daemon.c:305-315 | A message is appended unless 64 are waiting; then it is dropped and the queue stays. |
| Dispatcher.TriggerQueue.Remove | src/daemon.c:349-351 | The started entry leaves the queue and all others keep their order. |
| Dispatcher.TriggerQueue.QueuedFor | src/daemon.c:333-337 | True exactly if some queued message is for the agent. |
| Dispatcher.StepKeeps | src/daemon.c:240-294 | Every single step of the main thread and of any worker, with the two reads and the two stores apart, keeps the invariant: one live session per agent and busy while it lives, what the main thread read stays true until it acts, recorded ends are never in the future. |
| Dispatcher.OneSessionAtATime | src/daemon.c:240-294 | In every interleaving, no agent ever has two live sessions, and each session starts at least 5 seconds after every earlier recorded end of that agent. |
| Dispatcher.OwnerFirst | src/daemon.c:354-356 | In every run, a session from mail or a due task starts only for an agent without a queued owner message. |
| Dispatcher.StepOrder | src/daemon.c:345-352 | Every step keeps the order of the owner messages of each agent that was never overtaken, and loses or doubles none. |
| Dispatcher.OwnerOrder | src/daemon.c:342-352 | At every moment the taken and the queued messages are the accepted ones, and in arrival order for every agent that was never overtaken. |
| Dispatcher.WholeFinishes | src/daemon.c:240-251 | If workers finish in one step, nobody is ever overtaken. |
| DispatcherOrder.StepOvertaken | src/daemon.c:345-352 | Once busy is cleared too late between two messages of an agent, every step leads on to the later one leaving first, or finds it has left. |
| DispatcherOrder.OvertakenMeans | src/daemon.c:240-256 | An agent counts as overtaken exactly if some event of the run was such a late clear for it. |
| DispatcherOrder.OrderExactly | src/daemon.c:339-352 | Between passes, the messages of an agent have left in arrival order exactly if the run had no late clear for it. |
| DispatcherOrder.PromptClearsKeepOrder | src/daemon.c:240-251 | If every worker clears busy less than 5 seconds after the time it recorded, the order holds for every agent at every moment. |
| DispatcherFair.StartTakes | src/daemon.c:345-352 | Starting an agent takes the queued message or an older one of the same agent. |
| DispatcherFair.CannotStay | src/daemon.c:342-352 | After its worker has finished and the session gap has passed, a pass does not end with nothing changed for a queued message. |
| DispatcherFair.QueuedLeaves | src/daemon.c:333-356 | Every queued owner message leaves in every run in which passes keep beginning, workers finish and time passes, as long as there is no late clear for its agent. |
| DispatcherMail.FinishIsRecorded | src/daemon.c:240-251 | A worker that finishes at once logs the end of its session at the clock, records it as the last of its agent, and only that agent becomes free. |
| DispatcherMail.EndIsRecorded | src/daemon.c:240-251 | So does one that stores the time first and clears busy later, with the time it had read. |
| DispatcherMail.OwnerIsStarted | src/daemon.c:345-352 | An owner message whose agent is idle is taken out, and its session is logged as started now. |
| DispatcherMail.FoundIsStarted | src/daemon.c:354-369 | An idle agent without a queued message for which mail or a due task is found gets a running worker and a log entry with that source, now. |
| DispatcherMail.OthersAreSkipped | src/daemon.c:354-356 | With a queued message, or when nothing is found, the agent is passed by and nothing changes. |
| DispatcherMail.FailedStart | src/daemon.c:272-294 | A thread that cannot be created leaves the agent idle and no log entry. |
| DispatcherMail.FoundStarts | src/daemon.c:354-369 | In every fair run in which from some point on no owner message waits for the agent, the main thread finds mail (or a due task) whenever it looks, and threads can be created, a session for it starts. |
| DispatcherReorder.SplitStoresReorder | src/daemon.c:246-247 | A concrete run, with the two stores apart, after which a later message has started before an earlier one. |
| Messenger.Post.Register | src/messenger.c:16-28 | A new name is appended with an empty inbox, up to 17 names; a known one, in any case, changes nothing. |
| Messenger.Post.ResolveName | src/messenger.c:30-37 | The loop finds the first registered name that matches, ignoring case and a leading "@". |
| Messenger.MatchSelf | src/messenger.c:30-37 | Every registered name is found again under any spelling that differs in case only. |
| Messenger.SpellingsAreFound | src/messenger.c:30-37 | Each is found in capitals, with "@" in front, and both. |
| Messenger.StrangersAreRefused | src/messenger.c:73-104 | A name that no agent has resolves to nobody, and a message to it is refused. |
| Messenger.AllIsEverybody | src/messenger.c:76-87 | A message to "all" or "ALL" is written to every other agent. |
| Messenger.SendReaches | src/messenger.c:73-104 | A message to another registered agent is written to exactly that agent. |
| Messenger.BroadcastReaches | src/messenger.c:76-87 | A broadcast adds one copy to the inbox of every other agent that can be written, and changes nothing else. |
| Messenger.Post.SendToAll | src/messenger.c:76-87 | The loop over the registry does what the broadcast promises and keeps every mail from another registered agent. |
| Messenger.Post.SendMail | src/messenger.c:73-104 | Who gets a copy, when the model is told of an error, and that a refused or failed message leaves all inboxes as they were. |
| Messenger.Post.Receive | src/messenger.c:106-147 | Everything in the inbox is handed over once, in whatever order it is listed; the inbox is empty afterwards and no other changes. |
| Messenger.ParseTrigger | src/agent.c:49-69 | The nested loops collect the distinct senders of requests in order, and a batch without any is a reply batch. |
| Messenger.RequestersDistinct | src/agent.c:49-69 | Requesters are distinct, at most 16, and each really sent a request. |
| Messenger.NobodyLeftOut | src/agent.c:58-64 | With at most 16 senders the 16 slots take everybody who sent a request. |
| Messenger.FirstComeFirstKept | src/agent.c:58-64 | The slots go to the senders in the order in which they first asked, and nobody is passed over while one is free. |
| Answers.StepDecreases | src/agent.c:357-401 | Every step of sessions that only answer their requesters decreases (pending requests; mail, answers and sessions outstanding) lexicographically. |
| Answers.StuckIsDrained | src/messenger.c:106-147 | Nothing can happen exactly if all inboxes are empty and no session is live. |
| Answers.InboxesDrain | src/agent.c:388-395 | Every run, under any scheduling and with failing writes, reaches a state with all inboxes empty. |
| Answers.MailIsConserved | src/messenger.c:73-147 | In every run, what an agent's sessions took and what still waits for it is what was there first and then every answer sent to it, in order: no mail is lost, doubled or moved. |
| Repeats.RepeatedCall | src/agent.c:339-355 | Hash loops and table search: the count of the call grows, a new call takes a slot while there is one, and the verdict compares the new count with the limit. |
| Repeats.CountedIs | src/agent.c:348-353 | Counting one hash changes no other count and forgets no recorded call. |
| Repeats.AttemptKeeps | src/agent.c:339-385 | Attempts of any call keep this: a recorded call has run at most its limit, and while the table has room a call that is not recorded has not run. |
| Repeats.BlockedExactly | src/agent.c:339-355 | After any calls, the next one is blocked only if it came as often as its limit before, and exactly then while there are at most 64 different calls. |
| Repeats.OneByteCounts | src/agent.c:339-345 | Calls that differ in one byte of the name or of the arguments have different hashes, so they never count as identical. |
| Exchange.CallsMatchBlocks | src/provider.c:188-211 | The calls handed to the session carry the ids of all `tool_use` blocks exactly if each has a name and an id that fits. |
| Exchange.ToolTurnPaired | src/agent.c:669-721 | Appending a turn with calls and its results keeps the history well paired exactly if every call can be answered. |
| Exchange.LongIdBreaksPairing | src/provider.c:94-98 | A reply with one call whose id has 64 bytes: the call is handed over with 63 of them, and the history is no longer well paired. |
| Exchange.TextTurnPaired | src/agent.c:669-676 | The same for a turn without calls. |
| Session.KnownAttempt | src/tools.c:309-325 | A message to a registered agent other than the sender is one write to that inbox, and fails exactly if the write does. |
| Session.AnswerText | src/agent.c:531-544 | The notice, then the last text on a new line; the last text alone if there is no notice; the stock phrase if there is neither. |
| SessionBounds.SendMarked | src/agent.c:386-401 | A message to a requester is marked as an answer, any other is not; only a message that went out is noted, up to 8 recipients. |
| SessionBounds.AllCallsOk | src/agent.c:679-717 | Over the calls of a reply: each gets its own result or an error, no nudge is used up, messages and runs only grow, each call runs or is blocked at most once, and agents were listed or a plugin built exactly if a call did so. |
| SessionBounds.AllCallsKeep | src/agent.c:364-411 | Over the calls of a reply: recorded calls stay within their limits, noted requesters have an answer, and answers go to requesters only. |
| SessionBounds.EveryTurnOk | src/agent.c:630-749 | Every turn keeps that and the pairing of the history, only extends the history if nothing is trimmed, uses up a nudge exactly if a text reply is followed by another turn, and does not go on after the third blocked repeat. |
| SessionBounds.FinishedOk | src/agent.c:531-557 | After deliver_answer every requester that is another registered agent has a message marked as an answer, and the late ones carry the answer text. |
| SessionBounds.SessionBounded | src/agent.c:559-780 | For any replies and tool results: at most max_turns model calls, at most three after a text-only reply, none after the third blocked repeat, every history sent well paired, append-only without trimming, repeats within their limits, and everybody who asked answered. |
| SessionLaws.CallObeys | src/agent.c:364-411 | A call runs exactly if its tool is offered, its arguments are an object, and it came less often than 2 times (1 for a builder's read_file); it returns what its tool returns, else the error that names the check; only one that came too often is counted as blocked. |
| SessionLaws.CallSends | src/agent.c:386-401 | A message call that runs sends, tells and notes what the message alone would. |
| SessionLaws.SendGoesToItsTarget | src/agent.c:386-401 | A message to another agent, with or without "@", goes to that agent with its content, marked exactly for requesters; the model is told whether it was written, and it is noted if it was, up to 8 recipients. |
| SessionLaws.SendToOwnerOrSelf | src/tools.c:309-325 | A message to the owner succeeds and writes no inbox; one to the agent itself is refused. |
| SessionLaws.SendToAll | src/messenger.c:76-87 | A broadcast is one message for every other agent, never marked as an answer, and always counts as sent. |
| SessionLaws.SendToNobody | src/messenger.c:73-104 | A message to no name or to an unknown one is refused and writes nothing. |
| SessionLaws.BadSend | src/agent.c:386-395 | A message with bad arguments changes nothing and returns their error. |
| SessionLaws.AllCallsBuild | src/agent.c:679-717 | Over the calls of a reply the last plugin build says whether a plugin is owed, and its result is the notice if it is good; without a build neither changes. |
| SessionLaws.ResultsAreShown | src/agent.c:712-732 | After a turn with calls, trimmed or not, the newest message has one block per call, with the id of that call and the text and error of what that call returned. |
| SessionLaws.AfterTextObeys | src/agent.c:457-527 | After a text reply a nudge is given exactly if its cause holds and it was not given before, the session fails exactly if a nudged builder still owes a plugin, and only the flag of the nudge is used up. |
| SessionLaws.EveryTurnObeys | src/agent.c:630-749 | In every session, every turn appends the reply and what answers it, keeps the last text that is not empty as the answer, and goes on or ends as its reply says. |
| SessionLaws.SessionEnds | src/agent.c:457-527 | Every session ends for a reason: a model error, a refusal, the third blocked repeat, a stalled builder, the turn limit, or a text with nothing due: no builder asked by mail without a plugin, no hub that listed agents without a message or its nudge, no empty text without its nudge. |
| SessionLaws.EveryNudgeHasItsCause | src/agent.c:457-527 | In every session, a model call after a text reply sends a nudge as its newest message, and the cause of exactly that nudge held. |
| SessionLaws.RequestsTell | src/agent.c:630-755 | The log of model calls has the history sent, the number of blocked repeats, and whether the call follows a text reply. |
| SessionLaws.LateAnswersAre | src/agent.c:531-557 | At the end exactly the requesters that were not messaged get one answer each, in order, with the notice and the last text, or a stock answer that says whether the session failed. |
| SessionLaws.TalksUnlessAsked | src/agent.c:49-69 | A session talks to the owner unless its mail has a message that asks for an answer. |
| SessionLaws.LimitsAre | src/agent.c:619-755 | At most max_turns model calls, 100 if it is not set; no recorded call runs more than 2 times, or 1 for a builder's read_file. |
| SessionLoop.Harness.SendTool | src/agent.c:386-401 | The branch in place has exactly the effect and the result of the chain's send. |
| SessionLoop.Harness.CheckRepeat | src/agent.c:378-385 | A call beyond its limit (1 for a builder's read_file, else 2) is blocked and counted; any other is logged as run. |
| SessionLoop.Harness.RunTool | src/agent.c:364-411 | The checks in their order, and the effect and result of each branch. |
| SessionLoop.Harness.RunTools | src/agent.c:679-717 | The loop over the calls folds table, run log, messages, flags and blocked repeats call by call, with one result for each. |
| SessionLoop.Harness.AfterBuilderText | src/agent.c:460-508 | A builder that owes a plugin is nudged once and fails the second time; a compiled plugin ends the session with its result as the notice. |
| SessionLoop.Harness.AfterTextReply | src/agent.c:457-527 | The verdict, the nudge and the whole new state for every combination of flags. |
| SessionLoop.Harness.TakeTools | src/agent.c:669-732 | The turn, its results, the trim, and the whole new state; the newest message shows each call its own result, and the session goes on exactly if fewer than three repeats were blocked. |
| SessionLoop.Harness.TakeText | src/agent.c:669-744 | The turn, at most one nudge, and the whole new state; a refusal ends the session with its notice. |
| SessionLoop.Harness.Turn | src/agent.c:630-749 | One model call is logged with the history it sends, and the new state is the next one of the chain. |
| SessionLoop.Harness.Loop | src/agent.c:630-755 | The loop takes exactly the turns of the chain, from the fresh state to the turn that ends it or the last allowed, with one logged model call for each. |
| SessionLoop.Harness.DeliverAnswer | src/agent.c:531-557 | The loops send the answer text to each requester that was not noted, in order, and to nobody else. |
| AgentSession.Memory.Begin | src/agent.c:564-609 | In a talk, the kept history with the next opening exactly if it was kept under the id of the open conversation, and it is taken out of the memory; else a single first opening, and the history is dropped. Any other session has a single first opening and leaves the memory alone. |
| AgentSession.Memory.Look | src/agent.c:564-582 | The id of the open conversation after expiry, and its lines: those of others since the last session if the history is resumed, else all. |
| AgentSession.Memory.Keep | src/agent.c:760-769 | Kept is the longest cut that fits of a completed talk that ends with an assistant turn, and nothing of any other; it can be resumed. |
| AgentSession.Memory.RunSession | src/agent.c:559-780 | A whole session is the chain of its turns with its bounds. A talk resumes the history that was kept for the conversation still open in the chat log, with the lines of others since, and starts anew if that has expired; what is kept afterwards belongs to the open conversation up to its newest line and fits the limit; the memory can be resumed after any sequence of sessions. |
| AgentSession.SessionFollowsPlan | src/agent.c:357-401 | A session that messages nobody but its requesters sends marked answers only, at least one to each: it is a session of the answer protocol. |
| History.AppendExchange | src/agent.c:669-721 | An assistant turn with calls and the next turn keep a history well paired exactly if that turn holds exactly those ids in order. |
| History.CutKeepsPairing | src/agent.c:284-296 | Dropping everything from one user text turn to another keeps a history well paired. |
| History.CutOfKept | src/agent.c:278-298 | What conv_fit leaves of a history that can be resumed can be resumed. |
| History.Conversation.FindExchange | src/agent.c:285-293 | The scan finds the first two user text turns after the opening one. |
| History.Conversation.DeleteRange | src/agent.c:295-296 | Deleting at one index repeatedly removes exactly the range. |
| History.Conversation.Fit | src/agent.c:278-298 | It terminates with the first exchange and the longest suffix from a user text turn that fits, all longer ones being over the limit; it returns 1 exactly if one fits, and 0 only if at most two user text turns are left. |
| Trim.RunningTotal | src/agent.c:418-444 | The running total is always the true sum of the output lengths. |
| Trim.TrimmedKeeps | src/agent.c:418-444 | Ids, roles, order and the newest message are kept, changed outputs were over 400 bytes and shrink, and pairing survives. |
| Trim.TrimReachesHalf | src/agent.c:418-444 | A trim that starts over budget changes an oldest-first prefix, as short as possible, and ends at half the budget or with no long output before the newest message. |
| Trim.ShrunkIs | src/agent.c:433-442 | What is left of a long output is its longest valid start of at most 200 bytes and the notice for the rest. |
| Trim.TotalPush | src/agent.c:418-426 | The total is the sum of the lengths of all tool outputs, and a history within its budget stays as it is. |
| Trim.TrimHistory | src/agent.c:418-444 | The two passes in place compute the trimmed history. |
| Provider.JoinBlocks | src/provider.c:216-238 | The growing buffer holds the non-empty texts of one type joined by newlines. |
| Provider.BuildRequest | src/provider.c:245-306 | The loop builds the translation of the whole history. |
| Provider.TranslateConcat | src/provider.c:245-306 | Translation distributes over concatenation. |
| Provider.AppendOnlyExtends | src/provider.c:245-306 | A history that grows only extends the request. |
| Provider.TranslationPaired | src/provider.c:245-306 | A well-paired history with complete calls gives assistant messages each directly followed by tool messages with the same ids in order, and no tool message elsewhere. |
| ReadBack.RequestReadsBack | src/provider.c:245-306 | A reader of the request finds what a reader of the history finds, in order: each text with its role, each result with its id and output, each named call with its id, name and arguments. |
| Provider.ParseCalls | src/provider.c:457-483 | The loop over a response fills the kept turn and the call list with the same ids and names, and each call has the arguments that came with it. |
| Provider.ResponseRoundTrip | src/provider.c:432-483 | A parsed response translated back is one assistant message with the same text and the same calls in order: name, arguments, and id, drawn if it came without one. |
| Provider.ResponseHandled | src/provider.c:457-483 | The calls that go back have the ids of the calls that the session handles, and all kept calls are complete with ids that fit. |
| Chat.ChatLog.Expire | src/session.c:159-164 | An idle conversation is emptied and gets a new id. |
| Chat.ChatLog.Push | src/session.c:175-187 | Storing at the modular index appends to the list of the last 20 lines. |
| Chat.ChatLog.Add | src/session.c:166-189 | An empty text changes nothing; any other becomes one numbered line of at most 319 bytes without line breaks. |
| Chat.ChatLog.Id | src/session.c:191-198 | The id after expiry. |
| Chat.ChatLog.Render | src/session.c:200-213 | The loop with modular indices gives the wanted lines, oldest first and whole, and the number of the newest line. |
| Chat.RingIsTail | src/session.c:159-213 | After every run the ring is the last min(20, k) of the k lines of the open conversation, numbered consecutively. |
| Chat.ShownAtMostOnce | src/agent.c:564-582 | Over any chain of resumed sessions of one agent no line is shown to it twice. |
| Chat.ShownOnceIfInRing | src/agent.c:564-582 | A line of another agent is shown exactly once if it is still in the ring at the next render. |
| Chat.SameIdSameConversation | src/session.c:159-198 | Over every run the id stays the same exactly if the conversation was never found idle for too long, and then the conversation has only grown. |
| Chat.ExpiredIsForgotten | src/session.c:159-164 | An expired conversation leaves no line behind, and an open one stays when it is looked at. |
| Chat.ShortLineIsWhole | src/session.c:166-189 | A line that fits holds the prefix and the whole text, with line breaks as spaces. |
| Chat.LongLineIsCut | src/session.c:166-189 | A longer one holds the longest start of the text that fits and does not split a character. |
| Chat.RenderReadsBack | src/session.c:200-213 | What a render shows reads back as its lines, one each. |
| Calendar.GmtimeIsNormal | src/util.c:234-240 | The broken-down time of every time from 1970 on is a real date and time of day. |
| Calendar.TimegmOfGmtime | src/util.c:234-240 | The POSIX formula takes the broken-down time of every time back to it. |
| Calendar.GmtimeOfTimegm | src/scheduler.c:46-86 | Conversely, the formula is inverted on every real date from 1970 on. |
| Calendar.SchedParseTime | src/scheduler.c:46-86 | The parser, with its scanning loops, computes the parse function for every string. |
| Calendar.RoundTrip | src/scheduler.c:46-86 | Printing a positive time in UTC and parsing it back is the identity exactly up to the end of year 9999. |
| Calendar.WrittenParses | src/scheduler.c:46-86 | Every text of the form YYYY-MM-DDThh:mm:ssZ, with any digits, parses to the time of its fields if they are in range (days up to 31, seconds up to 60) and is refused otherwise. |
| Calendar.OffsetRoundTrip | src/scheduler.c:73-82 | A printed time with an offset east or west of UTC parses to the time minus or plus the offset. |
| Scheduler.UtcIsFaithful | src/scheduler.c:118-122 | Storing run times as UTC text loses nothing that the scheduler can schedule. |
| Scheduler.NextSlotIsLeast | src/scheduler.c:331-354 | The advanced run time is a slot of the task, and the least one strictly after now. |
| Scheduler.Advance | src/scheduler.c:345-346 | The loop that adds the interval computes that slot. |
| Scheduler.TaskFile.GetDue | src/scheduler.c:306-328 | The loop collects exactly the tasks whose run time has come, in order. |
| Scheduler.TaskFile.MarkDone | src/scheduler.c:331-354 | The loop over the ids removes one-shot tasks and advances recurring ones. |
| SchedulerLaws.AddedTask | src/scheduler.c:131-177 | A task is added, behind all others, exactly if its time parses, its interval is known, and a single run is not past; it runs at the given time or at the least later slot. |
| SchedulerLaws.UpdatedTask | src/scheduler.c:233-277 | A task is updated exactly if the result can be scheduled: a given time and interval replace the old ones, an empty interval makes it a single run, all else stays. |
| SchedulerLaws.CancelledTask | src/scheduler.c:280-304 | A cancelled task is gone, and all others are there. |
| SchedulerLaws.CancelKeepsOrder | src/scheduler.c:280-304 | In their order. |
| SchedulerLaws.DueTaskFires | src/scheduler.c:306-328 | A task whose printed run time has come fires, with that time as its slot. |
| SchedulerLaws.CancelledStaysGone | src/scheduler.c:280-304 | In every run a cancelled task never comes back and never fires again. |
| SchedulerLaws.NoRunIsMissed | src/daemon.c:364-380 | In every run a scheduled time is never missed: unless the task is cancelled or updated, the first look for due tasks after it finds that the task has fired for it. |
| SchedulerRuns.MarkAllEffect | src/scheduler.c:331-354 | After marking fired tasks, every other task is unchanged, every recurring one of the batch is there at its least slot after now, one-shot ones are gone, and the order is kept. |
| SchedulerRuns.MarkAllIsOnePass | src/scheduler.c:331-354 | For any batch of distinct ids, marking id by id is the same as one pass over the list. |
| SchedulerRuns.StepKeeps | src/scheduler.c:131-354 | Add, update, cancel, get-due, mark-done and the clock keep the invariant on tasks, slots and firings. |
| SchedulerRuns.SchedulerSafety | src/daemon.c:364-380 | In every run each task stays on its slots, no slot fires twice, each later firing of a task has a later slot, a fired one-shot task never fires again, and marking leaves all other tasks as they were and the recurring ones at their next slot. |
| SchedulerRuns.RecurringStays | src/scheduler.c:131-354 | In every run a recurring task, fired or not, stays scheduled until it is cancelled or updated. |
| MemorySearch.RankingUnique | src/memory.c:213-230 | There is only one list of all entries with a positive score by score descending, then newest first. |
| MemorySearch.RankIsRanking | src/memory.c:213-230 | Inserting the entries from newest to oldest gives it. |
| MemorySearch.InsertThenTake | src/memory.c:219-224 | Cutting to n before or after an insertion is the same. |
| MemorySearch.FullStays | src/memory.c:221-223 | With an empty query a full list never changes again: the early exit loses nothing. |
| MemorySearch.Top.InsertAt | src/memory.c:225-230 | The two shifts and stores insert the entry and write only to the first n slots. |
| MemorySearch.MemorySearch | src/memory.c:186-233 | The result is the first n entries of the full ranking, which is the only one, for every log, scoring and n (20 for n below 1, at most 50); without words to match, the newest entries, newest first. |
| Utf8.CharLenDecides | src/util.c:204-223 | The byte tests accept exactly the characters of section 4 of RFC 3629. |
| Utf8.ValidIffScans | src/util.c:204-223 | A left-to-right scan decides validity by that grammar. |
| Utf8.ScrubRepairs | src/util.c:204-223 | The result is valid and of the same length, ASCII bytes stay, valid text is unchanged, and scrubbing again changes nothing. |
| Utf8.Scrub | src/util.c:204-223 | The loop in place computes the repaired text and touches nothing behind the terminator. |
| Utf8.PrefixLongest | src/util.c:140-145 | On valid text the result is the longest valid prefix within the bound. |
| Utf8.Prefix | src/util.c:140-145 | The backwards loop computes that length for every text. |
| Dechunk.Strtoul16ReadsHex | src/http.c:253 | The number reader reads every hexadecimal size that fits and stops at the end of the digits. |
| Dechunk.OversizeIsClamped | src/http.c:256-258 | A size beyond the data yields the data. |
| Dechunk.DecodeInvertsEncode | src/http.c:248-267 | Decoding inverts every chunked encoding of section 7.1 of RFC 9112, with extensions and whatever follows the last chunk. |
| Dechunk.PlainRoundTrip | src/http.c:248-267 | In particular for every list of non-empty chunks. |
| Dechunk.DechunkOne | src/http.c:250-264 | One iteration moves the data down without touching what is still to be read; the write position does not pass the read position. |
| Dechunk.HttpDechunk | src/http.c:248-267 | In place the result is that of the pure decoder on the unmodified input, for every input, and is terminated. |
| IrcLines.LinesConcat | src/irc.c:214-230 | Splitting in two steps with the unfinished line carried over gives the lines of the whole. |
| IrcLines.AnySplitSameLines | src/irc.c:198-234 | Every split of a stream into reads hands over the same lines, for streams without NULs whose lines are at most 2048 bytes. |
| IrcLines.SentLinesArrive | src/irc.c:198-234 | Lines sent with LF or CRLF, mixed, come out as they were, whatever reads they arrive in. |
| IrcLines.NulEndsLine | src/irc.c:220-228 | A line with a NUL is handed over up to it, and not at all if nothing is left. |
| IrcLines.Link.HandLines | src/irc.c:220-228 | The loop over the buffer hands over the lines of its contents and stops at the unfinished one. |
| IrcLines.Link.Poll | src/irc.c:198-234 | One read, on any stream: the lines handed over, what stays buffered, and a buffer length of at most 4095. |
| Mentions.MentionsOrdered | src/irc_parse.c:44-74 | Mentions are disjoint and in increasing order, at most as many as fit. |
| Mentions.ScanFindsOnly | src/irc_parse.c:55-74 | Each is a place where an agent is named with "@". |
| Mentions.ScanFindsAll | src/irc_parse.c:55-74 | None is missed while there is room. |
| Mentions.MentionMeans | src/irc_parse.c:8-74 | A mention is "@", not behind a word character, with the name of an agent or "all" up to the next break, ignoring case; it has the canonical name of the first agent that matches. |
| Mentions.CharactersAre | src/irc_parse.c:15-18 | The characters that may stand in a word, and those that end a name. |
| Mentions.AddressMeans | src/irc_parse.c:39-58 | A known name with a colon or comma at the start of the line is a mention of that name; all others have an "@". |
| Mentions.SegmentIs | src/irc_parse.c:103-108 | The text of a mention stands between its end and the next mention, without separators at either side, cut to the line length. |
| Mentions.FanOutMeans | src/irc_parse.c:92-117 | The hub with what stands before the first mention, if that is not empty, then the mentions in order, each with the first text at or after it, as many as fit; trailing ones without text are missing. |
| Mentions.NoMentionGoesToHub | src/irc_parse.c:76-81 | Without a mention the hub gets the whole message, trimmed. |
| Mentions.AllGoesToAll | src/irc_parse.c:83-93 | A mention of "all" makes one route, with the message without that mention, or all of it if nothing else is left. |
| Mentions.SetText | src/irc_parse.c:20-30 | The two loops trim the segment and cut it to the line length. |
| Mentions.FilledMeans | src/irc_parse.c:95-117 | Each route has the first non-empty segment at or after its mention; only trailing mentions without text are dropped. |
| Mentions.FanOutTexts | src/irc_parse.c:95-117 | Every returned text is non-empty and the output is not overrun. |
| Mentions.FillRoutes | src/irc_parse.c:104-117 | The loop with pending mentions computes those routes. |
| Mentions.ParseMentions | src/irc_parse.c:32-117 | For every message the result is: the hub alone, one route to "all", or the hub with the leading text followed by the routes that fit. |

## Left out

- TLS, sockets, HTTP sending and retries, plugins and TinyCC, `tool_exec`, the TUI, the CLI, configuration files and session files: I/O around libraries.
- Prompt texts: `Session.Note` names them and `wording` supplies them; the notice of a trim is a function of the number of removed bytes.
- cJSON: messages, blocks and calls are datatypes with the members that the program looks up; the printed length in conv_fit and the printed arguments of a call are parameters.
- `sched_list`, the tokenising of a query and `match_score`: the search takes the score of an entry as a parameter; the sorted list for display is not modelled.
- `mktime` and the local time zone: a parameter of the parser.
- Failing saves of the task file: saves succeed; failing writes are modelled for mail only.
- Truncation by `snprintf` of names to 31 bytes, of notices and of tool outputs; ids of tool calls are cut as in the source.
- Wrap-around of chat line numbers and conversation ids, and collisions of random ids.
- IRC relay of text, notices and tool calls, and the session store: output that no modelled decision reads.
- SessionLoop.Harness.RunTools: what tools do apart from messages is a result given by the world.
- Answers.InboxesDrain: as the protocol needs, for sessions that message nobody but their requesters; sessions for the owner or a task that message nobody leave the inboxes alone and are no steps.
- DispatcherFair.QueuedLeaves: for agents without a late clear only.
- DispatcherMail.FoundStarts: for runs in which the threads of that agent can be created; what a failed start leaves is `DispatcherMail.FailedStart`.
- SchedulerLaws.AddedTask: for formats that lose no time, as UTC is up to the end of year 9999 (`Scheduler.UtcIsFaithful`); the same holds of SchedulerLaws.UpdatedTask.
- Chat.LongLineIsCut: for text that is valid UTF-8; on other text `utf8_prefix` cuts where `Utf8.Prefix` says.
- Trim.ShrunkIs: for outputs that are valid UTF-8 and notices that leave room in the 400 bytes of the buffer.
- Messenger.Post.Receive: files that are not valid messages are not part of the model; every mail has a sender, as the program writes it.
