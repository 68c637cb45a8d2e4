/** The conversation history of a session, and `conv_fit` of src/agent.c. */
module History {
  import opened Options
  import opened Bytes

  //
  // Messages, in the block format of the provider.
  //

  datatype Role = User | Assistant

  datatype BlockType = TextBlock | ThinkingBlock | ToolUse | ToolResult | OtherBlock

  /** The members of a content block that the program looks up; `input` is its printed JSON. */
  datatype Block = Block(
    kind: BlockType, text: Option<Text>, id: Option<Text>, name: Option<Text>, input: Option<Text>,
    toolUseId: Option<Text>, content: Option<Text>, isError: bool)

  datatype Content = Plain(text: Text) | Blocks(blocks: seq<Block>)

  datatype Message = Message(role: Role, content: Content)

  function UserText(text: Text): Message {
    Message(User, Plain(text))
  }

  predicate IsUserText(m: Message) {
    m.role == User && m.content.Plain?
  }

  /** User turns with blocks carry tool results. */
  predicate IsResults(m: Message) {
    m.role == User && m.content.Blocks?
  }

  function CallIds(bs: seq<Block>): seq<Option<Text>> {
    if bs == [] then []
    else
      var n := |bs| - 1;
      if bs[n].kind == ToolUse then CallIds(bs[..n]) + [bs[n].id] else CallIds(bs[..n])
  }

  /** The ids of the tool calls a turn makes. */
  function Calls(m: Message): seq<Option<Text>> {
    if m.role == Assistant && m.content.Blocks? then CallIds(m.content.blocks) else []
  }

  /** A turn that answers exactly the calls `ids`, in order. */
  predicate Answers(m: Message, ids: seq<Option<Text>>) {
    && IsResults(m) && |m.content.blocks| == |ids|
    && forall i | 0 <= i < |ids| :: m.content.blocks[i].kind == ToolResult && m.content.blocks[i].toolUseId == ids[i]
  }

  /** Turn `i` and its neighbours: calls are answered by the next turn, results answer the turn before. */
  predicate PairedAt(ms: seq<Message>, i: nat)
    requires i < |ms|
  {
    && (IsResults(ms[i]) ==> i > 0 && Calls(ms[i - 1]) != [] && Answers(ms[i], Calls(ms[i - 1])))
    && (Calls(ms[i]) != [] && i + 1 < |ms| ==> IsResults(ms[i + 1]))
  }

  predicate Paired(ms: seq<Message>) {
    forall i | 0 <= i < |ms| :: PairedAt(ms, i)
  }

  /** No call is left open. */
  predicate WellPaired(ms: seq<Message>) {
    Paired(ms) && (ms != [] ==> Calls(ms[|ms| - 1]) == [])
  }

  /** A history that a later session may resume. */
  predicate Kept(ms: seq<Message>) {
    WellPaired(ms) && ms != [] && IsUserText(ms[0]) && ms[|ms| - 1].role == Assistant
  }

  //
  // Appending.
  //

  lemma AppendPaired(ms: seq<Message>, m: Message)
    requires WellPaired(ms) && !IsResults(m)
    ensures Paired(ms + [m])
  {
    forall i | 0 <= i < |ms + [m]|
      ensures PairedAt(ms + [m], i)
    {
      assert i < |ms| ==> PairedAt(ms, i);
    }
  }

  lemma AppendText(ms: seq<Message>, text: Text)
    requires WellPaired(ms)
    ensures WellPaired(ms + [UserText(text)])
  {
    AppendPaired(ms, UserText(text));
  }

  /** An assistant turn with calls and the turn that answers them. */
  lemma AppendExchange(ms: seq<Message>, a: Message, r: Message)
    requires WellPaired(ms) && a.role == Assistant && Calls(a) != []
    ensures WellPaired(ms + [a, r]) <==> Answers(r, Calls(a))
  {
    AppendPaired(ms, a);
    var ms' := ms + [a, r];
    var n := |ms|;
    assert ms' == (ms + [a]) + [r];
    if WellPaired(ms') {
      assert PairedAt(ms', n) && PairedAt(ms', n + 1);
    }
    if Answers(r, Calls(a)) {
      forall i | 0 <= i < |ms'|
        ensures PairedAt(ms', i)
      {
        assert i <= n ==> PairedAt(ms + [a], i);
      }
    }
  }

  //
  // Cutting whole exchanges.
  //

  /** The first user text turn from index `i` on, or the end. */
  function FirstText(ms: seq<Message>, i: nat): (k: nat)
    requires i <= |ms|
    ensures i <= k <= |ms|
    ensures k < |ms| ==> IsUserText(ms[k])
    ensures forall j | i <= j < k :: !IsUserText(ms[j])
    decreases |ms| - i
  {
    if i == |ms| || IsUserText(ms[i]) then i else FirstText(ms, i + 1)
  }

  /** Dropping from one user text turn to another keeps every call with its results. */
  lemma CutKeepsPairing(ms: seq<Message>, from: nat, to: nat)
    requires WellPaired(ms) && from <= to < |ms| && IsUserText(ms[from]) && IsUserText(ms[to])
    ensures WellPaired(ms[..from] + ms[to..])
  {
    var r := ms[..from] + ms[to..];
    forall i | 0 <= i < |r|
      ensures PairedAt(r, i)
    {
      var j := if i < from then i else i - from + to;
      assert r[i] == ms[j] && PairedAt(ms, j);
      assert i + 1 < |r| ==> r[i + 1] == ms[if i + 1 < from then i + 1 else i + 1 - from + to];
      if i == from - 1 {
        assert !IsResults(ms[from]);
      }
    }
  }

  /** What the cut leaves of `ms`: its first exchange and a suffix that starts at a user text turn. */
  ghost predicate CutOf(ms: seq<Message>, r: seq<Message>) {
    r == ms || exists s :: SuffixAt(ms, r, s)
  }

  predicate SuffixAt(ms: seq<Message>, r: seq<Message>, s: nat) {
    ms != [] && FirstText(ms, 1) <= s < |ms| && IsUserText(ms[s]) && r == ms[..FirstText(ms, 1)] + ms[s..]
  }

  lemma CutOfKept(ms: seq<Message>, r: seq<Message>)
    requires Kept(ms) && CutOf(ms, r)
    ensures Kept(r)
  {
    if r != ms {
      var s: nat :| SuffixAt(ms, r, s);
      CutKeepsPairing(ms, FirstText(ms, 1), s);
    }
  }

  //
  // The list, changed in place.
  //

  class Conversation {
    var messages: seq<Message>

    constructor (ms: seq<Message>)
      ensures messages == ms
    {
      messages := ms;
    }

    /** The scan of conv_fit: the first two user text turns behind the opening one, -1 where there is none. */
    method FindExchange() returns (from: int, to: int)
      requires messages != []
      ensures from == (if FirstText(messages, 1) < |messages| then FirstText(messages, 1) else -1)
      ensures to == (if from >= 0 && FirstText(messages, from + 1) < |messages|
                     then FirstText(messages, from + 1) else -1)
    {
      from, to := -1, -1;
      var i := 1;
      while i < |messages| && to < 0
        invariant 1 <= i <= |messages|
        invariant from < 0 ==> to < 0 && FirstText(messages, 1) == FirstText(messages, i)
        invariant from >= 0 ==> from == FirstText(messages, 1) < i
        invariant from >= 0 && to < 0 ==> FirstText(messages, from + 1) == FirstText(messages, i)
        invariant to >= 0 ==> from >= 0 && to == FirstText(messages, from + 1) < |messages|
      {
        if IsUserText(messages[i]) {
          if from < 0 {
            from := i;
          } else {
            to := i;
          }
        }
        i := i + 1;
      }
    }

    /** Deleting the same index again and again. */
    method DeleteRange(from: nat, to: nat)
      requires from <= to <= |messages|
      modifies this
      ensures messages == old(messages)[..from] + old(messages)[to..]
    {
      ghost var ms := messages;
      for i := from to to
        invariant messages == ms[..from] + ms[i..]
      {
        messages := messages[..from] + messages[from + 1..];
      }
    }

    /** conv_fit: `size` is the length of the printed history. No more is dropped than needed. */
    method Fit(size: seq<Message> -> nat, max: nat) returns (fits: bool)
      requires messages != []
      modifies this
      ensures messages != [] && CutOf(old(messages), messages) && LeastCut(old(messages), messages, size, max)
      ensures fits <==> size(messages) <= max
      ensures !fits ==> FirstText(messages, 1) == |messages|
                        || FirstText(messages, FirstText(messages, 1) + 1) == |messages|
    {
      ghost var ms := messages;
      while true
        invariant messages != [] && CutOf(ms, messages) && LeastCut(ms, messages, size, max)
        invariant FirstText(messages, 1) == FirstText(ms, 1) || messages == ms
        decreases |messages|
      {
        if size(messages) <= max {
          return true;
        }
        var from, to := FindExchange();
        if to < 0 {
          return false;
        }
        CutAgain(ms, messages, from, to);
        CutNext(ms, messages, from, to, size, max);
        DeleteRange(from, to);
      }
    }
  }

  /** Every longer cut of `ms`, the whole of it included, is over the limit. */
  predicate LeastCut(ms: seq<Message>, r: seq<Message>, size: seq<Message> -> nat, max: nat)
    requires ms != []
  {
    && (|r| < |ms| ==> size(ms) > max)
    && forall k | FirstText(ms, 1) <= k < |ms| && IsUserText(ms[k]) && |r| < FirstText(ms, 1) + |ms| - k ::
         size(CutFrom(ms, k)) > max
  }

  /** The first exchange and what follows from index `k` on. */
  function CutFrom(ms: seq<Message>, k: nat): seq<Message>
    requires ms != [] && k <= |ms|
  {
    ms[..FirstText(ms, 1)] + ms[k..]
  }

  /** A list that is over the limit is cut at the very next exchange. */
  lemma CutNext(ms: seq<Message>, r: seq<Message>, from: nat, to: nat, size: seq<Message> -> nat, max: nat)
    requires ms != [] && r != [] && CutOf(ms, r) && LeastCut(ms, r, size, max) && size(r) > max
    requires FirstText(r, 1) == FirstText(ms, 1) == from < to < |r| && to == FirstText(r, from + 1)
    ensures LeastCut(ms, r[..from] + r[to..], size, max)
  {
    var s: nat := from;
    if r != ms {
      s :| SuffixAt(ms, r, s);
    } else {
      assert ms == CutFrom(ms, from);
    }
    var r' := r[..from] + r[to..];
    forall k | s < k < s + to - from
      ensures !IsUserText(ms[k])
    {
      assert ms[k] == r[from + k - s];
    }
    forall k | from <= k < |ms| && IsUserText(ms[k]) && |r'| < from + |ms| - k
      ensures size(CutFrom(ms, k)) > max
    {
      if k == s {
        assert r == CutFrom(ms, s);
      }
    }
  }

  lemma SuffixShift(ms: seq<Message>, from: nat, s: nat, to: nat)
    requires from <= s <= |ms| && from <= to <= from + |ms| - s
    ensures var r := ms[..from] + ms[s..];
            r[..from] + r[to..] == ms[..from] + ms[s + to - from..]
  {
    var r := ms[..from] + ms[s..];
    assert r[to..] == ms[s..][to - from..] == ms[s + to - from..];
    assert r[..from] == ms[..from];
  }

  /** Another exchange dropped: still the first exchange and a suffix of the original. */
  lemma CutAgain(ms: seq<Message>, r: seq<Message>, from: nat, to: nat)
    requires ms != [] && r != [] && CutOf(ms, r)
    requires FirstText(r, 1) == FirstText(ms, 1) == from < to < |r| && IsUserText(r[to])
    ensures var r' := r[..from] + r[to..];
            r' != [] && CutOf(ms, r') && FirstText(r', 1) == from
  {
    var r' := r[..from] + r[to..];
    FirstTextAt(r', from);
    if r == ms {
      assert SuffixAt(ms, r', to);
    } else {
      var s: nat :| SuffixAt(ms, r, s);
      SuffixShift(ms, from, s, to);
      assert r[to] == ms[s + to - from];
      assert SuffixAt(ms, r', s + to - from);
    }
  }

  lemma FirstTextAt(ms: seq<Message>, k: nat)
    requires 1 <= k < |ms| && IsUserText(ms[k]) && forall j | 1 <= j < k :: !IsUserText(ms[j])
    ensures FirstText(ms, 1) == k
  {
  }
}
