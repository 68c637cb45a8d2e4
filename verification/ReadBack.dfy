/** What a reader of the OpenAI request finds: everything that the history says, in order. */
module ReadBack {
  import opened Options
  import opened Bytes
  import opened History
  import opened Provider

  //
  // Reading a request, and reading a history.
  //

  function Gather<M, T>(ms: seq<M>, f: M -> seq<T>): seq<T> {
    if ms == [] then [] else Gather(ms[..|ms| - 1], f) + f(ms[|ms| - 1])
  }

  /** A text with the role of its message, a tool output with the id of its call, or a call. */
  datatype Item =
    | Spoken(role: Role, text: Text)
    | Returned(id: Text, content: Text)
    | Made(id: Text, name: Text, arguments: Text)

  /** What one message of the request says. */
  function OnWire(o: OaiMessage): seq<Item> {
    match o
    case OaiText(role, content) => [Spoken(role, content)]
    case OaiAssistant(content, calls) => [Spoken(Assistant, content)] + MadeOf(calls)
    case OaiTool(id, content) => [Returned(id, content)]
  }

  function MadeOf(calls: seq<OaiCall>): seq<Item> {
    seq(|calls|, i requires 0 <= i < |calls| => Made(calls[i].id, calls[i].name, calls[i].arguments))
  }

  function OrNone(s: Option<Text>): Text {
    match s
    case Some(t) => t
    case None => []
  }

  /** The text of the blocks of type text, one to a line. */
  function BlockText(bs: seq<Block>): Text {
    if bs == [] then []
    else
      var n := |bs| - 1;
      var before, b := BlockText(bs[..n]), bs[n];
      if b.kind != TextBlock || b.text.None? || b.text.value == [] then before
      else if before == [] then b.text.value
      else before + [LF] + b.text.value
  }

  function ResultOf(b: Block): seq<Item> {
    if b.kind == ToolResult then [Returned(OrNone(b.toolUseId), OrNone(b.content))] else []
  }

  function CallOf(b: Block): seq<Item> {
    if b.kind == ToolUse && b.name.Some? then
      [Made(OrNone(b.id), b.name.value, if b.input.Some? then b.input.value else NO_ARGUMENTS)]
    else []
  }

  /** What one message of the history says: an assistant turn its text and its calls, results before any text. */
  function InHistory(m: Message): seq<Item> {
    match m.content
    case Plain(text) => [Spoken(m.role, text)]
    case Blocks(bs) =>
      if m.role == Assistant then [Spoken(Assistant, BlockText(bs))] + Gather(bs, CallOf)
      else Gather(bs, ResultOf) + if BlockText(bs) == [] then [] else [Spoken(User, BlockText(bs))]
  }

  //
  // Reading is compositional.
  //

  lemma Regroup3<T>(a: seq<T>, b: seq<T>, c: seq<T>)
    ensures (a + b) + c == a + (b + c)
  {
  }

  lemma {:induction false} GatherConcat<M, T>(a: seq<M>, b: seq<M>, f: M -> seq<T>)
    ensures Gather(a + b, f) == Gather(a, f) + Gather(b, f)
  {
    if b == [] {
      assert a + b == a;
    } else {
      var n := |b| - 1;
      assert (a + b)[..|a + b| - 1] == a + b[..n];
      GatherConcat(a, b[..n], f);
      Regroup3(Gather(a, f), Gather(b[..n], f), f(b[n]));
    }
  }

  lemma GatherOne<M, T>(m: M, f: M -> seq<T>)
    ensures Gather([m], f) == f(m)
  {
    assert [m][..0] == [];
  }

  /** If it finds the same in every message then it does in every history. */
  lemma {:induction false} GatherTranslated<T>(ms: seq<Message>, f: OaiMessage -> seq<T>, g: Message -> seq<T>)
    requires forall m :: Gather(TranslateOne(m), f) == g(m)
    ensures Gather(Translate(ms), f) == Gather(ms, g)
  {
    if ms != [] {
      var n := |ms| - 1;
      GatherTranslated(ms[..n], f, g);
      GatherConcat(Translate(ms[..n]), TranslateOne(ms[n]), f);
    }
  }

  //
  // Single messages.
  //

  lemma {:induction false} BlockTextIs(bs: seq<Block>)
    ensures BlockText(bs) == Joined(Texts(bs, TextBlock))
    ensures (BlockText(bs) == []) == (Texts(bs, TextBlock) == [])
  {
    if bs != [] {
      var n := |bs| - 1;
      BlockTextIs(bs[..n]);
      TextsNonEmpty(bs, TextBlock);
      if HasText(bs[n], TextBlock) {
        JoinedPush(Texts(bs[..n], TextBlock), bs[n].text.value);
      }
    }
  }

  lemma {:induction false} CallsRead(bs: seq<Block>)
    ensures MadeOf(OaiCalls(bs)) == Gather(bs, CallOf)
  {
    if bs != [] {
      CallsRead(bs[..|bs| - 1]);
    }
  }

  lemma {:induction false} ToolsRead(bs: seq<Block>)
    ensures Gather(OaiTools(bs), OnWire) == Gather(bs, ResultOf)
  {
    if bs != [] {
      var n := |bs| - 1;
      ToolsRead(bs[..n]);
      if bs[n].kind == ToolResult {
        var o := OaiTools(bs)[|OaiTools(bs)| - 1];
        GatherConcat(OaiTools(bs[..n]), [o], OnWire);
        GatherOne(o, OnWire);
      }
    }
  }

  lemma MessageReads(m: Message)
    ensures Gather(TranslateOne(m), OnWire) == InHistory(m)
  {
    var r := TranslateOne(m);
    if m.content.Blocks? {
      var bs := m.content.blocks;
      BlockTextIs(bs);
      if m.role == User {
        ToolsRead(bs);
        if BlockText(bs) != [] {
          GatherConcat(OaiTools(bs), [OaiText(User, BlockText(bs))], OnWire);
          GatherOne(OaiText(User, BlockText(bs)), OnWire);
        }
      } else {
        CallsRead(bs);
        GatherOne(r[0], OnWire);
      }
    } else {
      GatherOne(r[0], OnWire);
    }
  }

  /**
   * Nothing is lost, added or moved on the way: the request says the texts of the history with their roles, returns
   * each result with its id, and makes each named call with its id and arguments, all in order.
   */
  lemma RequestReadsBack(ms: seq<Message>)
    ensures Gather(Translate(ms), OnWire) == Gather(ms, InHistory)
  {
    forall m
      ensures Gather(TranslateOne(m), OnWire) == InHistory(m)
    {
      MessageReads(m);
    }
    GatherTranslated(ms, OnWire, InHistory);
  }
}
