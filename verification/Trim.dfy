/** Shortening old tool outputs: `trim_history` of src/agent.c. */
module Trim {
  import opened Options
  import opened Bytes
  import opened History
  import Utf8

  const LONG: nat := 400     // outputs up to this length stay
  const KEEP: nat := 200     // bytes kept of a longer one
  const SHORTER: nat := 399  // what fits the buffer of the shortened text

  /** The notice that so many bytes were removed. */
  type Notice = nat -> Text

  function Output(b: Block): Text {
    if b.content.Some? then b.content.value else []
  }

  function BlocksOf(m: Message): seq<Block> {
    if m.content.Blocks? then m.content.blocks else []
  }

  function BlocksTotal(bs: seq<Block>): nat {
    if bs == [] then 0 else BlocksTotal(bs[..|bs| - 1]) + |Output(bs[|bs| - 1])|
  }

  /** The bytes of all tool outputs. */
  function Total(ms: seq<Message>): nat {
    if ms == [] then 0 else Total(ms[..|ms| - 1]) + BlocksTotal(BlocksOf(ms[|ms| - 1]))
  }

  /** The start of a long output, without a split character, and the notice. */
  function Shrunk(c: Text, note: Notice): (r: Text)
    ensures |r| <= SHORTER
  {
    var keep := Utf8.PrefixLen(c, KEEP);
    var s := c[..keep] + note(|c| - keep);
    if |s| <= SHORTER then s else s[..SHORTER]
  }

  function ShrinkLong(c: Text, note: Notice): (r: Text)
    ensures |r| <= |c|
  {
    if |c| > LONG then Shrunk(c, note) else c
  }

  //
  // The trim as a function.
  //

  function TrimBlock(b: Block, total: int, half: nat, note: Notice): (Block, int) {
    if total <= half || |Output(b)| <= LONG then (b, total)
    else (b.(content := Some(Shrunk(Output(b), note))), total - (|Output(b)| - |Shrunk(Output(b), note)|))
  }

  /** The outputs of one message, oldest first, while the running total is above `half`. */
  function TrimBlocks(bs: seq<Block>, total: int, half: nat, note: Notice): (r: (seq<Block>, int))
    ensures |r.0| == |bs|
  {
    if bs == [] then ([], total)
    else
      var n := |bs| - 1;
      var done := TrimBlocks(bs[..n], total, half, note);
      var last := TrimBlock(bs[n], done.1, half, note);
      (done.0 + [last.0], last.1)
  }

  function TrimMessage(m: Message, total: int, half: nat, note: Notice): (Message, int) {
    if m.content.Plain? then (m, total)
    else
      var r := TrimBlocks(m.content.blocks, total, half, note);
      (m.(content := Blocks(r.0)), r.1)
  }

  function TrimMessages(ms: seq<Message>, total: int, half: nat, note: Notice): (r: (seq<Message>, int))
    ensures |r.0| == |ms|
  {
    if ms == [] then ([], total)
    else
      var n := |ms| - 1;
      var done := TrimMessages(ms[..n], total, half, note);
      var last := TrimMessage(ms[n], done.1, half, note);
      (done.0 + [last.0], last.1)
  }

  /** All messages but the newest. */
  function Trimmed(ms: seq<Message>, budget: nat, note: Notice): seq<Message> {
    if Total(ms) <= budget then ms
    else
      var n := |ms| - 1;
      TrimMessages(ms[..n], Total(ms), budget / 2, note).0 + [ms[n]]
  }

  lemma BlocksPush(bs: seq<Block>, b: Block, total: int, half: nat, note: Notice)
    ensures BlocksTotal(bs + [b]) == BlocksTotal(bs) + |Output(b)|
    ensures var done := TrimBlocks(bs, total, half, note);
            var last := TrimBlock(b, done.1, half, note);
            TrimBlocks(bs + [b], total, half, note) == (done.0 + [last.0], last.1)
  {
    assert (bs + [b])[..|bs|] == bs;
  }

  lemma MessagesPush(ms: seq<Message>, m: Message, total: int, half: nat, note: Notice)
    ensures Total(ms + [m]) == Total(ms) + BlocksTotal(BlocksOf(m))
    ensures var done := TrimMessages(ms, total, half, note);
            var last := TrimMessage(m, done.1, half, note);
            TrimMessages(ms + [m], total, half, note) == (done.0 + [last.0], last.1)
  {
    assert (ms + [m])[..|ms|] == ms;
  }

  //
  // The running total.
  //

  lemma {:induction false} BlocksRunningTotal(bs: seq<Block>, total: int, half: nat, note: Notice)
    ensures var r := TrimBlocks(bs, total, half, note);
            r.1 == total - BlocksTotal(bs) + BlocksTotal(r.0)
  {
    if bs != [] {
      var n := |bs| - 1;
      BlocksRunningTotal(bs[..n], total, half, note);
      var done := TrimBlocks(bs[..n], total, half, note);
      var b := TrimBlock(bs[n], done.1, half, note).0;
      assert (done.0 + [b])[..n] == done.0;
    }
  }

  lemma {:induction false} RunningTotal(ms: seq<Message>, total: int, half: nat, note: Notice)
    ensures var r := TrimMessages(ms, total, half, note);
            r.1 == total - Total(ms) + Total(r.0)
  {
    if ms != [] {
      var n := |ms| - 1;
      RunningTotal(ms[..n], total, half, note);
      var done := TrimMessages(ms[..n], total, half, note);
      var m := TrimMessage(ms[n], done.1, half, note).0;
      assert (done.0 + [m])[..n] == done.0;
      BlocksRunningTotal(BlocksOf(ms[n]), done.1, half, note);
    }
  }

  //
  // What trimming keeps: everything but the text of long outputs.
  //

  predicate SameBlock(b: Block, b': Block) {
    b' == b || (|Output(b)| > LONG && |Output(b')| <= SHORTER && b' == b.(content := b'.content))
  }

  predicate SameMessage(m: Message, m': Message) {
    || m' == m
    || (&& m.role == m'.role && m.content.Blocks? && m'.content.Blocks?
        && |m.content.blocks| == |m'.content.blocks|
        && forall i | 0 <= i < |m.content.blocks| :: SameBlock(m.content.blocks[i], m'.content.blocks[i]))
  }

  predicate SameShape(ms: seq<Message>, ms': seq<Message>) {
    |ms| == |ms'| && forall i | 0 <= i < |ms| :: SameMessage(ms[i], ms'[i])
  }

  lemma {:induction false} TrimBlocksShape(bs: seq<Block>, total: int, half: nat, note: Notice)
    ensures forall i | 0 <= i < |bs| :: SameBlock(bs[i], TrimBlocks(bs, total, half, note).0[i])
  {
    if bs != [] {
      TrimBlocksShape(bs[..|bs| - 1], total, half, note);
    }
  }

  lemma TrimMessageShape(m: Message, total: int, half: nat, note: Notice)
    ensures SameMessage(m, TrimMessage(m, total, half, note).0)
  {
    if m.content.Blocks? {
      TrimBlocksShape(m.content.blocks, total, half, note);
    }
  }

  lemma {:induction false} TrimShape(ms: seq<Message>, total: int, half: nat, note: Notice)
    ensures SameShape(ms, TrimMessages(ms, total, half, note).0)
  {
    if ms != [] {
      var n := |ms| - 1;
      TrimShape(ms[..n], total, half, note);
      TrimMessageShape(ms[n], TrimMessages(ms[..n], total, half, note).1, half, note);
    }
  }

  lemma {:induction false} SameCalls(bs: seq<Block>, bs': seq<Block>)
    requires |bs| == |bs'| && forall i | 0 <= i < |bs| :: SameBlock(bs[i], bs'[i])
    ensures CallIds(bs) == CallIds(bs')
  {
    if bs != [] {
      SameCalls(bs[..|bs| - 1], bs'[..|bs| - 1]);
    }
  }

  lemma SameMessageFacts(m: Message, m': Message, ids: seq<Option<Text>>)
    requires SameMessage(m, m')
    ensures m.role == m'.role && m.content.Plain? == m'.content.Plain? && Calls(m) == Calls(m')
    ensures Answers(m, ids) ==> Answers(m', ids)
  {
    if m' != m {
      SameCalls(m.content.blocks, m'.content.blocks);
      if Answers(m, ids) {
        assert forall i | 0 <= i < |ids| :: SameBlock(m.content.blocks[i], m'.content.blocks[i]);
      }
    }
  }

  lemma ShapeKeepsPairing(ms: seq<Message>, ms': seq<Message>)
    requires SameShape(ms, ms') && WellPaired(ms)
    ensures WellPaired(ms')
  {
    forall i | 0 <= i < |ms'|
      ensures PairedAt(ms', i) && Calls(ms'[i]) == Calls(ms[i])
    {
      SameMessageFacts(ms[i], ms'[i], if i > 0 then Calls(ms[i - 1]) else []);
      if i > 0 {
        SameMessageFacts(ms[i - 1], ms'[i - 1], []);
      }
      if i + 1 < |ms| {
        SameMessageFacts(ms[i + 1], ms'[i + 1], []);
      }
      assert PairedAt(ms, i);
    }
  }

  /** Ids, roles and order are kept, each changed output was long and gets shorter, the newest message stays. */
  lemma TrimmedKeeps(ms: seq<Message>, budget: nat, note: Notice)
    ensures SameShape(ms, Trimmed(ms, budget, note))
    ensures ms != [] ==> Trimmed(ms, budget, note)[|ms| - 1] == ms[|ms| - 1]
    ensures WellPaired(ms) ==> WellPaired(Trimmed(ms, budget, note))
  {
    if Total(ms) > budget {
      TrimShape(ms[..|ms| - 1], Total(ms), budget / 2, note);
    }
    if WellPaired(ms) {
      ShapeKeepsPairing(ms, Trimmed(ms, budget, note));
    }
  }

  //
  // Which outputs trimming changes: an oldest-first prefix, as short as possible.
  //

  function BlockOutputs(bs: seq<Block>): seq<Text> {
    if bs == [] then [] else BlockOutputs(bs[..|bs| - 1]) + [Output(bs[|bs| - 1])]
  }

  function Outputs(ms: seq<Message>): seq<Text> {
    if ms == [] then [] else Outputs(ms[..|ms| - 1]) + BlockOutputs(BlocksOf(ms[|ms| - 1]))
  }

  /** What shortening all of `cs` saves. */
  function Saved(cs: seq<Text>, note: Notice): nat {
    if cs == [] then 0
    else
      var n := |cs| - 1;
      Saved(cs[..n], note) + (|cs[n]| - |ShrinkLong(cs[n], note)|)
  }

  /** `r` is `cs` with its first `k` long outputs shortened; none of the first `k` could be left out. */
  predicate CutAt(cs: seq<Text>, r: seq<Text>, k: nat, total: int, half: nat, note: Notice) {
    && k <= |cs| == |r|
    && (forall i | 0 <= i < k :: r[i] == ShrinkLong(cs[i], note))
    && (forall i | k <= i < |cs| :: r[i] == cs[i])
    && (forall j | 0 <= j < k :: total - Saved(cs[..j], note) > half)
  }

  /** How far a trim that starts with `total` gets in `cs`. */
  function CutOff(cs: seq<Text>, total: int, half: nat, note: Notice): (k: nat)
    ensures k <= |cs|
  {
    if cs == [] then 0
    else
      var n := |cs| - 1;
      var k := CutOff(cs[..n], total, half, note);
      if k == n && total - Saved(cs[..n], note) > half then n + 1 else k
  }

  /** The list `cs` trimmed, and the running total. */
  ghost predicate IsCut(cs: seq<Text>, r: seq<Text>, left: int, total: int, half: nat, note: Notice) {
    var k := CutOff(cs, total, half, note);
    && CutAt(cs, r, k, total, half, note)
    && left == total - Saved(cs[..k], note)
    && (k < |cs| ==> left <= half)
  }

  lemma PrefixSame(cs: seq<Text>, c: Text, j: nat)
    requires j <= |cs|
    ensures (cs + [c])[..j] == cs[..j]
  {
  }

  lemma CutGrows(cs: seq<Text>, r: seq<Text>, left: int, total: int, half: nat, c: Text, note: Notice)
    requires IsCut(cs, r, left, total, half, note) && left > half
    ensures var c' := ShrinkLong(c, note);
            IsCut(cs + [c], r + [c'], left - |c| + |c'|, total, half, note)
  {
    var cs', n := cs + [c], |cs|;
    assert cs[..n] == cs;
    PrefixSame(cs, c, n);
    assert CutOff(cs', total, half, note) == n + 1;
    assert cs'[..n + 1] == cs';
    forall j | 0 <= j < n + 1
      ensures total - Saved(cs'[..j], note) > half
    {
      PrefixSame(cs, c, j);
    }
  }

  lemma CutStays(cs: seq<Text>, r: seq<Text>, left: int, total: int, half: nat, c: Text, note: Notice)
    requires IsCut(cs, r, left, total, half, note) && left <= half
    ensures IsCut(cs + [c], r + [c], left, total, half, note)
  {
    var cs', n := cs + [c], |cs|;
    var k := CutOff(cs, total, half, note);
    assert cs[..n] == cs;
    PrefixSame(cs, c, n);
    PrefixSame(cs, c, k);
    assert CutOff(cs', total, half, note) == k;
    forall j | 0 <= j < k
      ensures total - Saved(cs'[..j], note) > half
    {
      PrefixSame(cs, c, j);
    }
  }

  /** The list of outputs, trimmed like the messages. */
  function Flat(cs: seq<Text>, total: int, half: nat, note: Notice): (r: (seq<Text>, int))
    ensures |r.0| == |cs|
  {
    if cs == [] then ([], total)
    else
      var n := |cs| - 1;
      var done := Flat(cs[..n], total, half, note);
      var c' := if done.1 <= half then cs[n] else ShrinkLong(cs[n], note);
      (done.0 + [c'], done.1 - |cs[n]| + |c'|)
  }

  lemma {:induction false} FlatIsCut(cs: seq<Text>, total: int, half: nat, note: Notice)
    ensures var f := Flat(cs, total, half, note); IsCut(cs, f.0, f.1, total, half, note)
  {
    if cs != [] {
      var n := |cs| - 1;
      FlatIsCut(cs[..n], total, half, note);
      var done := Flat(cs[..n], total, half, note);
      assert cs == cs[..n] + [cs[n]];
      if done.1 > half {
        CutGrows(cs[..n], done.0, done.1, total, half, cs[n], note);
      } else {
        CutStays(cs[..n], done.0, done.1, total, half, cs[n], note);
      }
    }
  }

  lemma {:induction false} FlatStep(cs: seq<Text>, c: Text, total: int, half: nat, note: Notice)
    ensures var done := Flat(cs, total, half, note);
            var c' := if done.1 <= half then c else ShrinkLong(c, note);
            Flat(cs + [c], total, half, note) == (done.0 + [c'], done.1 - |c| + |c'|)
  {
    var all := cs + [c];
    assert all != [] && all[..|all| - 1] == cs && all[|all| - 1] == c;
  }

  lemma {:induction false} TrimBlockIs(b: Block, left: int, half: nat, note: Notice)
    ensures var c, t := Output(b), TrimBlock(b, left, half, note);
            var c' := if left <= half then c else ShrinkLong(c, note);
            Output(t.0) == c' && t.1 == left - |c| + |c'|
  {
  }

  lemma {:induction false} FlatPush(cs: seq<Text>, b: Block, total: int, half: nat, note: Notice)
    ensures var done := Flat(cs, total, half, note);
            var t := TrimBlock(b, done.1, half, note);
            Flat(cs + [Output(b)], total, half, note) == (done.0 + [Output(t.0)], t.1)
  {
    FlatStep(cs, Output(b), total, half, note);
    TrimBlockIs(b, Flat(cs, total, half, note).1, half, note);
  }

  lemma {:induction false} BlockOutputsPush(cs: seq<Text>, bs: seq<Block>, b: Block)
    ensures cs + BlockOutputs(bs + [b]) == (cs + BlockOutputs(bs)) + [Output(b)]
  {
    assert (bs + [b])[..|bs|] == bs;
  }

  lemma {:induction false} FlatBlocks(cs: seq<Text>, bs: seq<Block>, total: int, half: nat, note: Notice)
    ensures var done := Flat(cs, total, half, note);
            var t := TrimBlocks(bs, done.1, half, note);
            Flat(cs + BlockOutputs(bs), total, half, note) == (done.0 + BlockOutputs(t.0), t.1)
  {
    var done := Flat(cs, total, half, note);
    if bs == [] {
      assert cs + [] == cs && done.0 + [] == done.0;
    } else {
      var init, b := bs[..|bs| - 1], bs[|bs| - 1];
      assert bs == init + [b];
      var t := TrimBlocks(init, done.1, half, note);
      FlatBlocks(cs, init, total, half, note);
      FlatPush(cs + BlockOutputs(init), b, total, half, note);
      BlockOutputsPush(cs, init, b);
      BlockOutputsPush(done.0, t.0, TrimBlock(b, t.1, half, note).0);
    }
  }

  lemma {:induction false} FlatMessages(ms: seq<Message>, total: int, half: nat, note: Notice)
    ensures var t := TrimMessages(ms, total, half, note);
            Flat(Outputs(ms), total, half, note) == (Outputs(t.0), t.1)
  {
    if ms != [] {
      var n := |ms| - 1;
      FlatMessages(ms[..n], total, half, note);
      var t := TrimMessages(ms[..n], total, half, note);
      FlatBlocks(Outputs(ms[..n]), BlocksOf(ms[n]), total, half, note);
      var m := TrimMessage(ms[n], t.1, half, note).0;
      assert (t.0 + [m])[..n] == t.0;
    }
  }

  /**
   * A trim that starts over budget changes an oldest-first prefix of the outputs before the newest message, as
   * short as possible, and ends at or under half the budget or with no long output among them.
   */
  lemma TrimReachesHalf(ms: seq<Message>, budget: nat, note: Notice)
    requires Total(ms) > budget
    ensures var n := |ms| - 1;
            var r := Trimmed(ms, budget, note);
            var before, after := Outputs(ms[..n]), Outputs(r[..n]);
            && CutAt(before, after, CutOff(before, Total(ms), budget / 2, note), Total(ms), budget / 2, note)
            && (Total(r) <= budget / 2 || forall i | 0 <= i < |after| :: |after[i]| <= LONG)
  {
    var n, half := |ms| - 1, budget / 2;
    var t := TrimMessages(ms[..n], Total(ms), half, note);
    var r := Trimmed(ms, budget, note);
    assert r[..n] == t.0;
    FlatMessages(ms[..n], Total(ms), half, note);
    FlatIsCut(Outputs(ms[..n]), Total(ms), half, note);
    RunningTotal(ms[..n], Total(ms), half, note);
  }

  //
  // In place.
  //

  /** The first pass: the sum of all output lengths. */
  method SumOutputs(ms: seq<Message>) returns (total: nat)
    ensures total == Total(ms)
  {
    total := 0;
    for i := 0 to |ms|
      invariant total == Total(ms[..i])
    {
      assert ms[..i + 1][..i] == ms[..i];
      var bs := BlocksOf(ms[i]);
      var sum := 0;
      for j := 0 to |bs|
        invariant sum == BlocksTotal(bs[..j])
      {
        assert bs[..j + 1][..j] == bs[..j];
        sum := sum + |Output(bs[j])|;
      }
      assert bs[..|bs|] == bs;
      total := total + sum;
    }
    assert ms[..|ms|] == ms;
  }

  /** The second pass over the blocks of one message, each replaced where it stands. */
  method ShortenBlocks(bs: seq<Block>, total: int, half: nat, note: Notice) returns (r: seq<Block>, left: int)
    ensures (r, left) == TrimBlocks(bs, total, half, note)
  {
    r, left := bs, total;
    for j := 0 to |bs|
      invariant |r| == |bs| && r[j..] == bs[j..]
      invariant (r[..j], left) == TrimBlocks(bs[..j], total, half, note)
    {
      BlocksPush(bs[..j], bs[j], total, half, note);
      assert bs[..j + 1] == bs[..j] + [bs[j]] && r[j] == r[j..][0] == bs[j];
      ghost var done, rest := r[..j], r[j..];
      var b := TrimBlock(r[j], left, half, note);
      r, left := r[j := b.0], b.1;
      assert r[..j + 1] == done + [b.0] && r[j + 1..] == rest[1..];
    }
    assert r[..|bs|] == r && bs[..|bs|] == bs;
  }

  lemma {:induction false} BlocksStay(bs: seq<Block>, total: int, half: nat, note: Notice)
    requires total <= half
    ensures TrimBlocks(bs, total, half, note) == (bs, total)
  {
    if bs != [] {
      var n := |bs| - 1;
      BlocksStay(bs[..n], total, half, note);
      assert bs == bs[..n] + [bs[n]];
    }
  }

  /** Once the total is low enough the rest stays as it is. */
  lemma {:induction false} MessagesStay(ms: seq<Message>, more: seq<Message>, total: int, half: nat, note: Notice)
    requires TrimMessages(ms, total, half, note).1 <= half
    ensures var t := TrimMessages(ms, total, half, note);
            TrimMessages(ms + more, total, half, note) == (t.0 + more, t.1)
    decreases |more|
  {
    var t := TrimMessages(ms, total, half, note);
    if more == [] {
      assert ms + more == ms && t.0 + more == t.0;
    } else {
      var n := |more| - 1;
      MessagesStay(ms, more[..n], total, half, note);
      assert ms + more == (ms + more[..n]) + [more[n]];
      MessagesPush(ms + more[..n], more[n], total, half, note);
      BlocksStay(BlocksOf(more[n]), t.1, half, note);
      assert t.0 + more == (t.0 + more[..n]) + [more[n]];
    }
  }

  /** Message `i` in the second pass. */
  method ShortenOne(c: Conversation, i: nat, total: int, half: nat, note: Notice) returns (left: int)
    requires i < |c.messages|
    modifies c
    ensures |c.messages| == |old(c.messages)| && c.messages == old(c.messages)[i := c.messages[i]]
    ensures (c.messages[i], left) == TrimMessage(old(c.messages)[i], total, half, note)
  {
    left := total;
    if c.messages[i].content.Blocks? {
      var bs;
      bs, left := ShortenBlocks(c.messages[i].content.blocks, left, half, note);
      c.messages := c.messages[i := c.messages[i].(content := Blocks(bs))];
    }
  }

  /** One more message: the first `i + 1` of `ms` are trimmed, the rest is untouched. */
  method ShortenNext(c: Conversation, ghost ms: seq<Message>, i: nat, total: int, left: int, half: nat, note: Notice)
    returns (left': int)
    requires i < |c.messages| == |ms| && c.messages[i..] == ms[i..]
    requires (c.messages[..i], left) == TrimMessages(ms[..i], total, half, note)
    modifies c
    ensures |c.messages| == |ms| && c.messages[i + 1..] == ms[i + 1..]
    ensures (c.messages[..i + 1], left') == TrimMessages(ms[..i + 1], total, half, note)
  {
    ghost var done, rest := c.messages[..i], c.messages[i..];
    assert c.messages[i] == rest[0] == ms[i] && ms[..i + 1] == ms[..i] + [ms[i]];
    MessagesPush(ms[..i], ms[i], total, half, note);
    left' := ShortenOne(c, i, left, half, note);
    assert c.messages[..i + 1] == done + [c.messages[i]] && c.messages[i + 1..] == rest[1..];
  }

  /** The second pass over the messages before the newest. */
  method ShortenMessages(c: Conversation, n: nat, total: int, half: nat, note: Notice)
    requires n < |c.messages|
    modifies c
    ensures c.messages == TrimMessages(old(c.messages)[..n], total, half, note).0 + old(c.messages)[n..]
  {
    ghost var ms := c.messages;
    var i, left := 0, total;
    while i < n && left > half
      invariant 0 <= i <= n && |c.messages| == |ms| && c.messages[i..] == ms[i..]
      invariant (c.messages[..i], left) == TrimMessages(ms[..i], total, half, note)
    {
      left := ShortenNext(c, ms, i, total, left, half, note);
      i := i + 1;
    }
    Rejoin(c.messages, ms, i, n);
    if i < n {
      MessagesStay(ms[..i], ms[i..n], total, half, note);
    }
  }

  lemma Rejoin(r: seq<Message>, ms: seq<Message>, i: nat, n: nat)
    requires i <= n <= |ms| == |r| && r[i..] == ms[i..]
    ensures r == (r[..i] + ms[i..n]) + ms[n..] && ms[..n] == ms[..i] + ms[i..n]
  {
    assert r == r[..i] + r[i..];
  }

  method TrimHistory(c: Conversation, budget: nat, note: Notice)
    modifies c
    ensures c.messages == Trimmed(old(c.messages), budget, note)
  {
    var total := SumOutputs(c.messages);
    if total > budget {
      ShortenMessages(c, |c.messages| - 1, total, budget / 2, note);
    }
  }

  /** What is left of a long output: its longest valid start of at most 200 bytes, and the notice for the rest. */
  lemma ShrunkIs(c: Text, note: Notice) returns (k: nat)
    requires Utf8.Valid(c) && |c| > LONG && forall n: nat :: |note(n)| <= SHORTER - KEEP
    ensures k <= KEEP && Utf8.Valid(c[..k]) && Shrunk(c, note) == c[..k] + note(|c| - k)
    ensures forall m | k < m <= KEEP :: !Utf8.Valid(c[..m])
  {
    k := Utf8.PrefixLen(c, KEEP);
    Utf8.PrefixLongest(c, KEEP);
  }

  /** The outputs of a list of blocks are their contents, and the total is the sum of their lengths. */
  lemma {:induction false} OutputsAre(bs: seq<Block>)
    ensures |BlockOutputs(bs)| == |bs|
    ensures forall i | 0 <= i < |bs| ::
              BlockOutputs(bs)[i] == match bs[i].content case Some(c) => c case None => []
    ensures BlocksTotal(bs) == |Concat(BlockOutputs(bs))|
  {
    if bs != [] {
      var n := |bs| - 1;
      OutputsAre(bs[..n]);
      ConcatPush(BlockOutputs(bs[..n]), Output(bs[n]));
    }
  }

  lemma {:induction false} ConcatPush(parts: seq<Text>, t: Text)
    ensures Concat(parts + [t]) == Concat(parts) + t
  {
    if parts == [] {
      assert [] + [t] == [t] && Concat([t][1..]) == [];
    } else {
      assert (parts + [t])[1..] == parts[1..] + [t];
      ConcatPush(parts[1..], t);
    }
  }

  /** A message adds the lengths of the outputs in its blocks, and a history within its budget stays as it is. */
  lemma {:induction false} TotalPush(ms: seq<Message>, bs: seq<Block>, role: Role, budget: nat, note: Notice)
    ensures Total(ms + [Message(role, Blocks(bs))]) == Total(ms) + |Concat(BlockOutputs(bs))|
    ensures Total(ms) <= budget ==> Trimmed(ms, budget, note) == ms
  {
    assert (ms + [Message(role, Blocks(bs))])[..|ms|] == ms;
    OutputsAre(bs);
  }
}
