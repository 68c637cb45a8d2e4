/** The OpenAI wire format: requests and responses of src/provider.c. */
module Provider {
  import opened Options
  import opened Bytes
  import opened History

  datatype OaiCall = OaiCall(id: Text, name: Text, arguments: Text)

  datatype OaiMessage =
    | OaiText(role: Role, content: Text)
    | OaiAssistant(content: Text, calls: seq<OaiCall>)
    | OaiTool(callId: Text, content: Text)

  const NO_ARGUMENTS: Text := [0x7B, 0x7D]  // "{}"

  function OrEmpty(s: Option<Text>): Text {
    if s.Some? then s.value else []
  }

  //
  // Text blocks joined by newlines.
  //

  predicate HasText(b: Block, kind: BlockType) {
    b.kind == kind && b.text.Some? && b.text.value != []
  }

  function Texts(bs: seq<Block>, kind: BlockType): seq<Text> {
    if bs == [] then []
    else
      var n := |bs| - 1;
      if HasText(bs[n], kind) then Texts(bs[..n], kind) + [bs[n].text.value] else Texts(bs[..n], kind)
  }

  function Joined(ts: seq<Text>): Text {
    if ts == [] then []
    else if |ts| == 1 then ts[0]
    else Joined(ts[..|ts| - 1]) + [LF] + ts[|ts| - 1]
  }

  lemma {:induction false} TextsNonEmpty(bs: seq<Block>, kind: BlockType)
    ensures forall i | 0 <= i < |Texts(bs, kind)| :: Texts(bs, kind)[i] != []
    ensures Texts(bs, kind) != [] ==> Joined(Texts(bs, kind)) != []
  {
    if bs != [] {
      TextsNonEmpty(bs[..|bs| - 1], kind);
    }
  }

  /** The growing buffer of join_blocks: `cap` doubles until the text, a newline and the terminator fit. */
  class Buffer {
    var data: array<byte>
    var len: nat

    ghost predicate Holds(s: Text)
      reads this, data
    {
      len == |s| && len < data.Length && data[..len] == s && data[len] == 0
    }

    constructor ()
      ensures Holds([]) && fresh(data)
    {
      data := new byte[256](_ => 0);
      len := 0;
    }

    method Reserve(tl: nat, ghost s: Text)
      requires Holds(s)
      modifies this
      ensures Holds(s) && len + tl + 2 <= data.Length
      ensures data == old(data) || fresh(data)
    {
      var cap := data.Length;
      if len + tl + 2 > cap {
        while len + tl + 2 > cap
          invariant cap >= 1 && cap >= data.Length
          decreases len + tl + 2 - cap
        {
          cap := cap * 2;
        }
        var grown := new byte[cap](_ => 0);
        forall i | 0 <= i <= len {
          grown[i] := data[i];
        }
        assert grown[..len] == data[..len];
        data := grown;
      }
    }

    method Append(text: Text, ghost s: Text)
      requires Holds(s) && text != []
      modifies this, data
      ensures Holds(if s == [] then text else s + [LF] + text)
      ensures data == old(data) || fresh(data)
    {
      Reserve(|text|, s);
      var at := len;
      if at > 0 {
        data[at] := LF;
        at := at + 1;
      }
      forall i | 0 <= i < |text| {
        data[at + i] := text[i];
      }
      data[at + |text|] := 0;
      len := at + |text|;
      assert data[..len] == if s == [] then text else s + [LF] + text;
    }
  }

  /** What one block adds. */
  function Taken(ts: seq<Text>, b: Block, kind: BlockType): seq<Text> {
    if HasText(b, kind) then ts + [b.text.value] else ts
  }

  lemma JoinedPush(ts: seq<Text>, text: Text)
    ensures Joined(ts + [text]) == if ts == [] then text else Joined(ts) + [LF] + text
  {
    assert (ts + [text])[..|ts|] == ts;
  }

  lemma TextsPush(bs: seq<Block>, i: nat, kind: BlockType)
    requires i < |bs|
    ensures Texts(bs[..i + 1], kind) == Taken(Texts(bs[..i], kind), bs[i], kind)
  {
    assert bs[..i + 1][..i] == bs[..i];
  }

  method JoinOne(buf: Buffer, b: Block, kind: BlockType, ghost ts: seq<Text>)
    requires buf.Holds(Joined(ts)) && (ts != [] ==> Joined(ts) != [])
    modifies buf, buf.data
    ensures buf.Holds(Joined(Taken(ts, b, kind)))
    ensures buf.data == old(buf.data) || fresh(buf.data)
  {
    if b.kind == kind && b.text.Some? && b.text.value != [] {
      JoinedPush(ts, b.text.value);
      buf.Append(b.text.value, Joined(ts));
    }
  }

  method JoinBlocks(bs: seq<Block>, kind: BlockType) returns (s: Text)
    ensures s == Joined(Texts(bs, kind))
  {
    var buf := new Buffer();
    for i := 0 to |bs|
      invariant fresh(buf) && fresh(buf.data)
      invariant buf.Holds(Joined(Texts(bs[..i], kind)))
    {
      TextsNonEmpty(bs[..i], kind);
      TextsPush(bs, i, kind);
      JoinOne(buf, bs[i], kind, Texts(bs[..i], kind));
    }
    assert bs[..|bs|] == bs;
    s := buf.data[..buf.len];
  }

  //
  // Requests.
  //

  /** The tool calls of an assistant turn; blocks without a name are skipped. */
  function OaiCalls(bs: seq<Block>): seq<OaiCall> {
    if bs == [] then []
    else
      var n := |bs| - 1;
      var b := bs[n];
      if b.kind == ToolUse && b.name.Some? then
        OaiCalls(bs[..n])
        + [OaiCall(OrEmpty(b.id), b.name.value, if b.input.Some? then b.input.value else NO_ARGUMENTS)]
      else OaiCalls(bs[..n])
  }

  function OaiTools(bs: seq<Block>): seq<OaiMessage> {
    if bs == [] then []
    else
      var n := |bs| - 1;
      if bs[n].kind == ToolResult then
        OaiTools(bs[..n]) + [OaiTool(OrEmpty(bs[n].toolUseId), OrEmpty(bs[n].content))]
      else OaiTools(bs[..n])
  }

  /** append_openai_message: what one message adds to the request. */
  function TranslateOne(m: Message): seq<OaiMessage> {
    if m.content.Plain? then [OaiText(m.role, m.content.text)]
    else
      var bs := m.content.blocks;
      var text := Joined(Texts(bs, TextBlock));
      if m.role == Assistant then [OaiAssistant(text, OaiCalls(bs))]
      else if text != [] then OaiTools(bs) + [OaiText(m.role, text)]
      else OaiTools(bs)
  }

  function Translate(ms: seq<Message>): seq<OaiMessage> {
    if ms == [] then [] else Translate(ms[..|ms| - 1]) + TranslateOne(ms[|ms| - 1])
  }

  /** The request is built message by message. */
  method BuildRequest(ms: seq<Message>) returns (r: seq<OaiMessage>)
    ensures r == Translate(ms)
  {
    r := [];
    for i := 0 to |ms|
      invariant r == Translate(ms[..i])
    {
      assert ms[..i + 1][..i] == ms[..i];
      r := r + TranslateOne(ms[i]);
    }
    assert ms[..|ms|] == ms;
  }

  lemma Regroup(a: seq<OaiMessage>, b: seq<OaiMessage>, c: seq<OaiMessage>)
    ensures (a + b) + c == a + (b + c)
  {
  }

  lemma {:induction false} TranslateConcat(a: seq<Message>, b: seq<Message>)
    ensures Translate(a + b) == Translate(a) + Translate(b)
  {
    if b == [] {
      assert a + b == a;
    } else {
      var init, one := b[..|b| - 1], TranslateOne(b[|b| - 1]);
      assert (a + b)[..|a + b| - 1] == a + init;
      TranslateConcat(a, init);
      Regroup(Translate(a), Translate(init), one);
    }
  }

  /** A history that only grows only ever extends the request. */
  lemma AppendOnlyExtends(ms: seq<Message>, more: seq<Message>)
    ensures Translate(ms) <= Translate(ms + more)
  {
    TranslateConcat(ms, more);
  }

  //
  // Pairing on the wire.
  //

  function IdsOf(calls: seq<OaiCall>): seq<Text> {
    seq(|calls|, i requires 0 <= i < |calls| => calls[i].id)
  }

  /** Calls are directly followed by tool messages with the same ids in order, and these occur nowhere else. */
  predicate WirePaired(r: seq<OaiMessage>, pending: seq<Text>) {
    if r == [] then pending == []
    else match r[0]
      case OaiTool(id, _) => pending != [] && id == pending[0] && WirePaired(r[1..], pending[1..])
      case OaiAssistant(_, calls) => pending == [] && WirePaired(r[1..], IdsOf(calls))
      case OaiText(_, _) => pending == [] && WirePaired(r[1..], [])
  }

  predicate Complete(b: Block) {
    b.kind == ToolUse ==> b.id.Some? && b.name.Some?
  }

  predicate AllComplete(ms: seq<Message>) {
    forall i | 0 <= i < |ms| && ms[i].content.Blocks? ::
      forall j | 0 <= j < |ms[i].content.blocks| :: Complete(ms[i].content.blocks[j])
  }

  predicate SameIds(ids: seq<Option<Text>>, texts: seq<Text>) {
    |ids| == |texts| && forall i | 0 <= i < |ids| :: ids[i] == Some(texts[i])
  }

  lemma {:induction false} CallsTranslate(bs: seq<Block>)
    requires forall j | 0 <= j < |bs| :: Complete(bs[j])
    ensures SameIds(CallIds(bs), IdsOf(OaiCalls(bs)))
  {
    if bs != [] {
      CallsTranslate(bs[..|bs| - 1]);
    }
  }

  lemma {:induction false} ResultsTranslate(bs: seq<Block>, ids: seq<Text>)
    requires |bs| == |ids|
    requires forall i | 0 <= i < |bs| :: bs[i].kind == ToolResult && bs[i].toolUseId == Some(ids[i])
    ensures |OaiTools(bs)| == |ids| && Texts(bs, TextBlock) == []
    ensures forall i | 0 <= i < |ids| :: OaiTools(bs)[i].OaiTool? && OaiTools(bs)[i].callId == ids[i]
  {
    if bs != [] {
      ResultsTranslate(bs[..|bs| - 1], ids[..|ids| - 1]);
    }
  }

  lemma {:induction false} ToolsConsume(tools: seq<OaiMessage>, ids: seq<Text>, rest: seq<OaiMessage>)
    requires |tools| == |ids| && forall i | 0 <= i < |ids| :: tools[i].OaiTool? && tools[i].callId == ids[i]
    requires WirePaired(rest, [])
    ensures WirePaired(tools + rest, ids)
  {
    if tools == [] {
      assert tools + rest == rest;
    } else {
      ToolsConsume(tools[1..], ids[1..], rest);
      assert (tools + rest)[1..] == tools[1..] + rest;
    }
  }

  /** What the turn before index `i` left open, on the wire. */
  function Pending(ms: seq<Message>, i: nat): seq<Text>
    requires i <= |ms|
  {
    if i == 0 || ms[i - 1].role == User || ms[i - 1].content.Plain? then []
    else IdsOf(OaiCalls(ms[i - 1].content.blocks))
  }

  lemma PendingIds(ms: seq<Message>, i: nat)
    requires 0 < i <= |ms| && AllComplete(ms)
    ensures SameIds(Calls(ms[i - 1]), Pending(ms, i))
  {
    if ms[i - 1].content.Blocks? {
      CallsTranslate(ms[i - 1].content.blocks);
    }
  }

  lemma SplitFirst(ms: seq<Message>, i: nat)
    requires i < |ms|
    ensures Translate(ms[i..]) == TranslateOne(ms[i]) + Translate(ms[i + 1..])
  {
    assert ms[i..] == [ms[i]] + ms[i + 1..];
    TranslateConcat([ms[i]], ms[i + 1..]);
    assert Translate([ms[i]]) == TranslateOne(ms[i]) by {
      assert [ms[i]][..0] == [];
    }
  }

  lemma ResultsPaired(m: Message, ids: seq<Option<Text>>, pending: seq<Text>, rest: seq<OaiMessage>)
    requires Answers(m, ids) && SameIds(ids, pending) && WirePaired(rest, [])
    ensures WirePaired(TranslateOne(m) + rest, pending)
  {
    ResultsTranslate(m.content.blocks, pending);
    ToolsConsume(OaiTools(m.content.blocks), pending, rest);
  }

  lemma OtherPaired(m: Message, rest: seq<OaiMessage>, pending: seq<Text>)
    requires !IsResults(m) && WirePaired(rest, pending)
    requires pending == if m.role == User || m.content.Plain? then [] else IdsOf(OaiCalls(m.content.blocks))
    ensures WirePaired(TranslateOne(m) + rest, [])
  {
    assert |TranslateOne(m)| == 1;
    assert (TranslateOne(m) + rest)[1..] == rest;
  }

  /** Turn `i` in front of a suffix that is paired on the wire. */
  lemma TurnPaired(ms: seq<Message>, i: nat, rest: seq<OaiMessage>)
    requires WellPaired(ms) && AllComplete(ms) && i < |ms| && WirePaired(rest, Pending(ms, i + 1))
    ensures WirePaired(TranslateOne(ms[i]) + rest, Pending(ms, i))
  {
    assert PairedAt(ms, i) && (i > 0 ==> PairedAt(ms, i - 1));
    if i > 0 {
      PendingIds(ms, i);
    }
    if IsResults(ms[i]) {
      ResultsPaired(ms[i], Calls(ms[i - 1]), Pending(ms, i), rest);
    } else {
      OtherPaired(ms[i], rest, Pending(ms, i + 1));
    }
  }

  lemma NothingPending(ms: seq<Message>)
    requires WellPaired(ms) && AllComplete(ms)
    ensures WirePaired(Translate(ms[|ms|..]), Pending(ms, |ms|))
  {
    assert ms[|ms|..] == [];
    if ms != [] {
      PendingIds(ms, |ms|);
    }
  }

  lemma {:induction false} SuffixPaired(ms: seq<Message>, i: nat)
    requires WellPaired(ms) && AllComplete(ms) && i <= |ms|
    ensures WirePaired(Translate(ms[i..]), Pending(ms, i))
    decreases |ms| - i
  {
    if i < |ms| {
      SuffixPaired(ms, i + 1);
      SplitFirst(ms, i);
      TurnPaired(ms, i, Translate(ms[i + 1..]));
    } else {
      NothingPending(ms);
    }
  }

  /** A well-paired history is well paired on the wire. */
  lemma TranslationPaired(ms: seq<Message>)
    requires WellPaired(ms) && AllComplete(ms)
    ensures WirePaired(Translate(ms), [])
  {
    SuffixPaired(ms, 0);
    assert ms[0..] == ms;
  }

  //
  // Responses.
  //

  const ID_MAX: nat := 63  // char id[64]

  /** A tool call as a server sends it; `arguments` is what tool_arguments makes of it. */
  datatype RawCall = RawCall(id: Option<Text>, name: Option<Text>, arguments: Text)

  datatype ToolCall = ToolCall(id: Text, name: Text, input: Text)

  function Cut(s: Text, max: nat): (r: Text)
    ensures |r| <= max
  {
    if |s| <= max then s else s[..max]
  }

  predicate Named(c: RawCall) {
    c.name.Some? && c.name.value != []
  }

  /** Some servers omit ids: those calls get a drawn one. */
  function CallId(c: RawCall, drawn: Text): (id: Text)
    ensures c.id.Some? && 0 < |c.id.value| <= ID_MAX ==> id == c.id.value
    ensures (c.id.None? || c.id.value == []) && |drawn| <= ID_MAX ==> id == drawn
  {
    Cut(if c.id.Some? && c.id.value != [] then c.id.value else drawn, ID_MAX)
  }

  function CallBlock(c: RawCall, drawn: Text, asObject: Text -> Text): Block
    requires Named(c)
  {
    Block(ToolUse, None, Some(CallId(c, drawn)), c.name, Some(asObject(c.arguments)), None, None, false)
  }

  /** The blocks for the calls of a response; `draw` gives the id for call `i`, `asObject` the printed input. */
  function CallBlocks(cs: seq<RawCall>, draw: nat -> Text, asObject: Text -> Text): seq<Block> {
    if cs == [] then []
    else
      var n := |cs| - 1;
      if Named(cs[n]) then CallBlocks(cs[..n], draw, asObject) + [CallBlock(cs[n], draw(n), asObject)]
      else CallBlocks(cs[..n], draw, asObject)
  }

  /** The assistant turn kept for the next request: the visible text, then the calls. */
  function ResponseBlocks(text: Text, cs: seq<RawCall>, draw: nat -> Text, asObject: Text -> Text): seq<Block> {
    (if text != [] then [Block(TextBlock, Some(text), None, None, None, None, None, false)] else [])
    + CallBlocks(cs, draw, asObject)
  }

  /** add_tool_call for every complete tool_use block. */
  function ToolCalls(bs: seq<Block>): seq<ToolCall> {
    if bs == [] then []
    else
      var n := |bs| - 1;
      var b := bs[n];
      if b.kind == ToolUse && b.id.Some? && b.name.Some? then
        ToolCalls(bs[..n]) + [ToolCall(Cut(b.id.value, ID_MAX), Cut(b.name.value, ID_MAX),
                                       if b.input.Some? then b.input.value else NO_ARGUMENTS)]
      else ToolCalls(bs[..n])
  }

  /** The same ids and names, in order. */
  predicate SameCalls(calls: seq<ToolCall>, blocks: seq<ToolCall>) {
    |calls| == |blocks| && forall i | 0 <= i < |calls| :: calls[i].id == blocks[i].id && calls[i].name == blocks[i].name
  }

  lemma CallPush(content: seq<Block>, calls: seq<ToolCall>, c: RawCall, drawn: Text, asObject: Text -> Text)
    requires Named(c) && SameCalls(calls, ToolCalls(content))
    ensures var b := CallBlock(c, drawn, asObject);
            SameCalls(calls + [ToolCall(b.id.value, Cut(b.name.value, ID_MAX), c.arguments)], ToolCalls(content + [b]))
  {
    var b := CallBlock(c, drawn, asObject);
    assert (content + [b])[..|content|] == content;
  }

  lemma BlocksPush(first: seq<Block>, cs: seq<RawCall>, i: nat, draw: nat -> Text, asObject: Text -> Text)
    requires i < |cs|
    ensures first + CallBlocks(cs[..i + 1], draw, asObject)
         == if Named(cs[i]) then (first + CallBlocks(cs[..i], draw, asObject)) + [CallBlock(cs[i], draw(i), asObject)]
            else first + CallBlocks(cs[..i], draw, asObject)
  {
    assert cs[..i + 1][..i] == cs[..i];
  }

  /** Where the calls with a name are. */
  function NamedAt(cs: seq<RawCall>): (r: seq<nat>)
    ensures forall i | 0 <= i < |r| :: r[i] < |cs| && Named(cs[r[i]])
    ensures forall i, j | 0 <= i < j < |r| :: r[i] < r[j]
    ensures forall k | 0 <= k < |cs| && Named(cs[k]) :: k in r
  {
    if cs == [] then []
    else
      var n := |cs| - 1;
      if Named(cs[n]) then NamedAt(cs[..n]) + [n] else NamedAt(cs[..n])
  }

  /** Each call that is handed over has the arguments that came with it. */
  predicate OwnArguments(calls: seq<ToolCall>, cs: seq<RawCall>) {
    var at := NamedAt(cs);
    |calls| == |at| && forall i | 0 <= i < |at| :: calls[i].input == cs[at[i]].arguments
  }

  lemma ArgumentsPush(calls: seq<ToolCall>, cs: seq<RawCall>, c: RawCall, call: ToolCall)
    requires OwnArguments(calls, cs) && call.input == c.arguments
    ensures OwnArguments(if Named(c) then calls + [call] else calls, cs + [c])
  {
    assert (cs + [c])[..|cs|] == cs;
  }

  /** The calls handed over so far are those of the content, with their own arguments. */
  predicate Parsed(content: seq<Block>, calls: seq<ToolCall>, cs: seq<RawCall>) {
    SameCalls(calls, ToolCalls(content)) && OwnArguments(calls, cs)
  }

  /** One call of a response. */
  method ParseCall(
    content: seq<Block>, calls: seq<ToolCall>, c: RawCall, drawn: Text, asObject: Text -> Text, ghost cs: seq<RawCall>)
    returns (content': seq<Block>, calls': seq<ToolCall>)
    requires Parsed(content, calls, cs)
    ensures content' == if Named(c) then content + [CallBlock(c, drawn, asObject)] else content
    ensures Parsed(content', calls', cs + [c])
  {
    content', calls' := content, calls;
    ghost var call := ToolCall([], [], c.arguments);
    if Named(c) {
      var b := CallBlock(c, drawn, asObject);
      CallPush(content, calls, c, drawn, asObject);
      content' := content + [b];
      calls' := calls + [ToolCall(b.id.value, Cut(b.name.value, ID_MAX), c.arguments)];
      call := calls'[|calls|];
    }
    ArgumentsPush(calls, cs, c, call);
  }

  /** The loop over the calls of a response. */
  method ParseCalls(text: Text, cs: seq<RawCall>, draw: nat -> Text, asObject: Text -> Text)
    returns (content: seq<Block>, calls: seq<ToolCall>)
    ensures content == ResponseBlocks(text, cs, draw, asObject)
    ensures SameCalls(calls, ToolCalls(content)) && OwnArguments(calls, cs)
  {
    content := if text != [] then [Block(TextBlock, Some(text), None, None, None, None, None, false)] else [];
    calls := [];
    ghost var first := content;
    assert first != [] ==> first[..0] == [];
    for i := 0 to |cs|
      invariant content == first + CallBlocks(cs[..i], draw, asObject)
      invariant Parsed(content, calls, cs[..i])
    {
      BlocksPush(first, cs, i, draw, asObject);
      content, calls := ParseCall(content, calls, cs[i], draw(i), asObject, cs[..i]);
      assert cs[..i + 1] == cs[..i] + [cs[i]];
    }
    assert cs[..|cs|] == cs;
  }

  /** The call on the wire is the call that was received, with the drawn id if it came without one. */
  predicate Echoes(o: OaiCall, c: RawCall, drawn: Text, asObject: Text -> Text) {
    Named(c) && o.name == c.name.value && o.id == CallId(c, drawn) && o.arguments == asObject(c.arguments)
  }

  /** The call on the wire has the id of the call that the session handles, and its name uncut. */
  predicate Matches(o: OaiCall, t: ToolCall) {
    o.id == t.id && Cut(o.name, ID_MAX) == t.name
  }

  lemma {:induction false} CallsEcho(cs: seq<RawCall>, draw: nat -> Text, asObject: Text -> Text)
    ensures var os, at := OaiCalls(CallBlocks(cs, draw, asObject)), NamedAt(cs);
            |os| == |at| && forall i | 0 <= i < |os| :: Echoes(os[i], cs[at[i]], draw(at[i]), asObject)
    ensures Texts(CallBlocks(cs, draw, asObject), TextBlock) == []
    ensures forall i | 0 <= i < |CallBlocks(cs, draw, asObject)| ::
              var b := CallBlocks(cs, draw, asObject)[i];
              b.kind == ToolUse && b.id.Some? && b.name.Some? && |b.id.value| <= ID_MAX
  {
    if cs != [] {
      var n := |cs| - 1;
      CallsEcho(cs[..n], draw, asObject);
      if Named(cs[n]) {
        var bs := CallBlocks(cs[..n], draw, asObject);
        assert (bs + [CallBlock(cs[n], draw(n), asObject)])[..|bs|] == bs;
      }
    }
  }

  lemma {:induction false} CallsMatch(bs: seq<Block>)
    requires forall i | 0 <= i < |bs| && bs[i].kind == ToolUse ::
               bs[i].id.Some? && bs[i].name.Some? && |bs[i].id.value| <= ID_MAX
    ensures |OaiCalls(bs)| == |ToolCalls(bs)|
    ensures forall i | 0 <= i < |OaiCalls(bs)| :: Matches(OaiCalls(bs)[i], ToolCalls(bs)[i])
  {
    if bs != [] {
      CallsMatch(bs[..|bs| - 1]);
    }
  }

  lemma {:induction false} OaiCallsAfterText(t: Block, bs: seq<Block>)
    requires t.kind == TextBlock
    ensures OaiCalls([t] + bs) == OaiCalls(bs)
    ensures Texts([t] + bs, TextBlock) == (if HasText(t, TextBlock) then [t.text.value] else []) + Texts(bs, TextBlock)
  {
    if bs == [] {
      assert [t] + bs == [t] && [t][..0] == [];
    } else {
      assert ([t] + bs)[..|bs|] == [t] + bs[..|bs| - 1];
      OaiCallsAfterText(t, bs[..|bs| - 1]);
    }
  }

  /** What the kept turn of a response holds: complete calls, with the ids of the calls that the session handles. */
  lemma ResponseHandled(text: Text, cs: seq<RawCall>, draw: nat -> Text, asObject: Text -> Text)
    ensures var bs := ResponseBlocks(text, cs, draw, asObject);
            && |OaiCalls(bs)| == |ToolCalls(bs)|
            && (forall i | 0 <= i < |ToolCalls(bs)| :: Matches(OaiCalls(bs)[i], ToolCalls(bs)[i]))
            && (forall i | 0 <= i < |bs| :: Complete(bs[i]) && (bs[i].kind == ToolUse ==> |bs[i].id.value| <= ID_MAX))
  {
    CallsEcho(cs, draw, asObject);
    CallsMatch(ResponseBlocks(text, cs, draw, asObject));
  }

  /**
   * A parsed response translated back: the same text, and the same calls in order, drawn ids included.
   */
  lemma ResponseRoundTrip(text: Text, cs: seq<RawCall>, draw: nat -> Text, asObject: Text -> Text)
    ensures var bs, at := ResponseBlocks(text, cs, draw, asObject), NamedAt(cs);
            && TranslateOne(Message(Assistant, Blocks(bs))) == [OaiAssistant(text, OaiCalls(bs))]
            && |OaiCalls(bs)| == |at|
            && forall i | 0 <= i < |at| :: Echoes(OaiCalls(bs)[i], cs[at[i]], draw(at[i]), asObject)
  {
    CallsEcho(cs, draw, asObject);
    var calls := CallBlocks(cs, draw, asObject);
    if text == [] {
      assert [] + calls == calls;
    } else {
      OaiCallsAfterText(Block(TextBlock, Some(text), None, None, None, None, None, false), calls);
    }
  }
}
