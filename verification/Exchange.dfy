/** One turn of the model and what the session loop of src/agent.c appends for it. */
module Exchange {
  import opened Options
  import opened Bytes
  import opened History
  import opened Provider

  /** What a tool returned; `error` when the text starts with "Error". */
  datatype Result = Result(text: Text, error: bool)

  /** A model call that failed, or the reply as the provider hands it over. */
  datatype Reply =
    | NoReply(error: Text)
    | Reply(content: seq<Block>, calls: seq<ToolCall>, refusal: bool)

  /** The calls handed over are the complete tool_use blocks of the content, in order. */
  predicate Handed(content: seq<Block>, calls: seq<ToolCall>) {
    SameCalls(calls, ToolCalls(content))
  }

  predicate AnswerableBlock(b: Block) {
    b.kind == ToolUse ==> b.id.Some? && b.name.Some? && |b.id.value| <= ID_MAX
  }

  /** Every tool_use block has a name and an id that fits. */
  predicate Answerable(bs: seq<Block>) {
    forall j | 0 <= j < |bs| :: AnswerableBlock(bs[j])
  }

  function AssistantTurn(content: seq<Block>): Message {
    Message(Assistant, Blocks(content))
  }

  function ResultBlock(id: Text, r: Result): Block {
    Block(ToolResult, None, None, None, None, Some(id), Some(r.text), r.error)
  }

  function ResultTurn(calls: seq<ToolCall>, results: seq<Result>): Message
    requires |calls| == |results|
  {
    Message(User, Blocks(seq(|calls|, i requires 0 <= i < |calls| => ResultBlock(calls[i].id, results[i]))))
  }

  predicate SameCallIds(ids: seq<Option<Text>>, calls: seq<ToolCall>) {
    |ids| == |calls| && forall i | 0 <= i < |ids| :: ids[i] == Some(calls[i].id)
  }

  lemma PushIds(ids: seq<Option<Text>>, calls: seq<ToolCall>, id: Option<Text>, c: ToolCall)
    ensures SameCallIds(ids + [id], calls + [c]) <==> SameCallIds(ids, calls) && id == Some(c.id)
  {
    if SameCallIds(ids + [id], calls + [c]) {
      assert forall i | 0 <= i < |ids| :: (ids + [id])[i] == ids[i] && (calls + [c])[i] == calls[i];
      assert (ids + [id])[|ids|] == id && (calls + [c])[|calls|] == c;
    }
  }

  /** The ids that get a result are those of all tool_use blocks exactly if these are complete and short enough. */
  lemma {:induction false} CallsMatchBlocks(bs: seq<Block>)
    ensures |ToolCalls(bs)| <= |CallIds(bs)|
    ensures SameCallIds(CallIds(bs), ToolCalls(bs)) <==> Answerable(bs)
  {
    if bs != [] {
      var n := |bs| - 1;
      var b, init := bs[n], bs[..n];
      CallsMatchBlocks(init);
      assert Answerable(bs) <==> Answerable(init) && AnswerableBlock(b) by {
        assert bs == init + [b];
      }
      if b.kind == ToolUse && b.id.Some? && b.name.Some? {
        PushIds(CallIds(init), ToolCalls(init), b.id, ToolCalls(bs)[|ToolCalls(init)|]);
      }
    }
  }

  lemma ResultsAnswer(content: seq<Block>, calls: seq<ToolCall>, results: seq<Result>)
    requires Handed(content, calls) && |calls| == |results|
    ensures Answers(ResultTurn(calls, results), CallIds(content)) <==> Answerable(content)
  {
    CallsMatchBlocks(content);
    var r := ResultTurn(calls, results);
    var ids, ts := CallIds(content), ToolCalls(content);
    assert forall i | 0 <= i < |calls| :: r.content.blocks[i].toolUseId == Some(calls[i].id) == Some(ts[i].id);
  }

  /** After a turn with calls: the history stays well paired exactly if every call can be answered. */
  lemma ToolTurnPaired(ms: seq<Message>, content: seq<Block>, calls: seq<ToolCall>, results: seq<Result>)
    requires WellPaired(ms) && Handed(content, calls) && |calls| == |results| && calls != []
    ensures WellPaired(ms + [AssistantTurn(content), ResultTurn(calls, results)]) <==> Answerable(content)
  {
    CallsMatchBlocks(content);
    ResultsAnswer(content, calls, results);
    AppendExchange(ms, AssistantTurn(content), ResultTurn(calls, results));
  }

  /** After a turn without calls. */
  lemma TextTurnPaired(ms: seq<Message>, content: seq<Block>)
    requires WellPaired(ms) && ToolCalls(content) == []
    ensures WellPaired(ms + [AssistantTurn(content)]) <==> Answerable(content)
  {
    CallsMatchBlocks(content);
    AppendPaired(ms, AssistantTurn(content));
  }

  /** One call with an id of 64 bytes: its result gets the first 63 of them, and the pairing is lost. */
  lemma LongIdBreaksPairing(ms: seq<Message>, result: Result) returns (content: seq<Block>, calls: seq<ToolCall>)
    requires WellPaired(ms)
    ensures |content| == 1 && content[0].kind == ToolUse && content[0].id.Some? && |content[0].id.value| == ID_MAX + 1
    ensures |calls| == 1 && Handed(content, calls) && !Answerable(content)
    ensures !WellPaired(ms + [AssistantTurn(content), ResultTurn(calls, [result])])
  {
    var id: Text := seq(ID_MAX + 1, _ => 97);
    content := [Block(ToolUse, None, Some(id), Some([97]), None, None, None, false)];
    assert content[..0] == [];
    calls := ToolCalls(content);
    assert !AnswerableBlock(content[0]);
    ToolTurnPaired(ms, content, calls, [result]);
  }
}
