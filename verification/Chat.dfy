/** The shared conversation with the owner: `chat_log_t` of src/session.c, as src/agent.c reads it. */
module Chat {
  import opened Options
  import opened Bytes
  import Utf8
  import IrcLines

  const LINES: nat := 20   // TC_CHAT_LINES
  const WIDTH: nat := 320  // TC_CHAT_LINE
  const SPACE: byte := 32

  datatype Line = Line(num: nat, agent: string, text: Text)

  //
  // The text of a line.
  //

  function OneLine(s: Text): (r: Text)
    ensures |r| == |s| && forall i | 0 <= i < |r| :: r[i] != LF && r[i] != CR
  {
    seq(|s|, i requires 0 <= i < |s| => if s[i] == LF || s[i] == CR then SPACE else s[i])
  }

  /** "HH:MM who: text" in a buffer of WIDTH bytes, cut without splitting a character of `text`. */
  function LineText(prefix: Text, text: Text): (r: Text)
    ensures |r| < WIDTH && forall i | 0 <= i < |r| :: r[i] != LF && r[i] != CR
  {
    var head := if |prefix| < WIDTH then prefix else prefix[..WIDTH - 1];
    OneLine(head + text[..Utf8.PrefixLen(text, WIDTH - 1 - |head|)])
  }

  //
  // The log as a value.
  //

  datatype Log = Log(lines: seq<Line>, num: nat, id: nat, last: int, idle: int)

  function LastOf(s: seq<Line>): seq<Line> {
    if |s| <= LINES then s else s[|s| - LINES..]
  }

  function Expired(c: Log, now: int): Log {
    if c.lines != [] && now - c.last >= c.idle then c.(lines := [], id := c.id + 1) else c
  }

  function Added(c: Log, now: int, agent: string, text: Text): Log {
    var e := Expired(c, now);
    e.(lines := LastOf(e.lines + [Line(e.num + 1, agent, text)]), num := e.num + 1, last := now)
  }

  predicate Wanted(l: Line, after: nat, skip: Option<string>) {
    l.num > after && !(skip.Some? && l.agent == skip.value)
  }

  /** The lines that a render shows. */
  function Shown(lines: seq<Line>, after: nat, skip: Option<string>): seq<Line> {
    if lines == [] then []
    else
      var n := |lines| - 1;
      Shown(lines[..n], after, skip) + if Wanted(lines[n], after, skip) then [lines[n]] else []
  }

  function Joined(lines: seq<Line>): Text {
    if lines == [] then [] else Joined(lines[..|lines| - 1]) + lines[|lines| - 1].text + [LF]
  }

  /** buf_appendf: what fits in `sz` bytes, terminator included. */
  function Appended(out: Text, sz: nat, more: Text): (r: Text)
    requires |out| < sz
    ensures |r| < sz
  {
    if |out| + |more| < sz then out + more else (out + more)[..sz - 1]
  }

  //
  // The ring.
  //

  /** The n lines before slot `next`, oldest first. */
  function Ring(slots: seq<Line>, n: nat, next: nat): seq<Line>
    requires |slots| == LINES && n <= LINES && next < LINES
  {
    seq(n, i requires 0 <= i < n => slots[(next - n + i + LINES) % LINES])
  }

  function Bump(next: nat): (r: nat)
    requires next < LINES
    ensures r == if next + 1 == LINES then 0 else next + 1
  {
    (next + 1) % LINES
  }

  lemma SlotOf(next: nat, n: nat, i: nat)
    requires i < n <= LINES && next < LINES
    ensures (next - n + i + LINES) % LINES == if next - n + i < 0 then next - n + i + LINES else next - n + i
  {
  }

  lemma RingNth(slots: seq<Line>, n: nat, next: nat, i: nat)
    requires |slots| == LINES && i < n <= LINES && next < LINES
    ensures Ring(slots, n, next)[i] == slots[if next - n + i < 0 then next - n + i + LINES else next - n + i]
  {
    SlotOf(next, n, i);
  }

  predicate Narrow(slots: seq<Line>) {
    forall k | 0 <= k < |slots| :: |slots[k].text| < WIDTH
  }

  lemma PushRing(slots: seq<Line>, n: nat, next: nat, line: Line)
    requires |slots| == LINES && n <= LINES && next < LINES && (n < LINES ==> next == n)
    ensures var n' := if n < LINES then n + 1 else n;
            Ring(slots[next := line], n', Bump(next)) == LastOf(Ring(slots, n, next) + [line])
  {
    var n', next' := if n < LINES then n + 1 else n, Bump(next);
    var before, slots' := Ring(slots, n, next), slots[next := line];
    var r, l := Ring(slots', n', next'), LastOf(before + [line]);
    forall i | 0 <= i < n'
      ensures r[i] == l[i]
    {
      RingNth(slots', n', next', i);
      var j := if n < LINES then i else i + 1;
      assert l[i] == if j < n then before[j] else line;
      if j < n {
        RingNth(slots, n, next, j);
      }
    }
  }

  class ChatLog {
    const lines: array<Line>
    var n: nat
    var next: nat
    var num: nat
    var id: nat
    var last: int
    const idle: int

    ghost predicate Valid()
      reads this, lines
    {
      && lines.Length == LINES && n <= LINES && next < LINES
      && (n < LINES ==> next == n)
      && Narrow(lines[..])
    }

    ghost function Model(): Log
      requires Valid()
      reads this, lines
    {
      Log(Ring(lines[..], n, next), num, id, last, idle)
    }

    constructor (idleSeconds: int)
      ensures Valid() && Model() == Log([], 0, 0, 0, idleSeconds)
    {
      lines := new Line[LINES](_ => Line(0, "", []));
      n, next, num, id, last := 0, 0, 0, 0, 0;
      idle := idleSeconds;
    }

    method Expire(now: int)
      requires Valid()
      modifies this
      ensures Valid() && Model() == Expired(old(Model()), now)
    {
      if n > 0 && now - last >= idle {
        n, next, id := 0, 0, id + 1;
      }
    }

    /** The store into slot `next` and the two counters. */
    method Push(line: Line)
      requires Valid() && |line.text| < WIDTH
      modifies this`n, this`next, lines
      ensures Valid()
      ensures Model() == old(Model()).(lines := LastOf(old(Model()).lines + [line]))
    {
      ghost var slots := lines[..];
      lines[next] := line;
      assert lines[..] == slots[next := line];
      PushRing(slots, n, next, line);
      next := Bump(next);
      if n < LINES {
        n := n + 1;
      }
    }

    method Add(now: int, agent: string, prefix: Text, text: Text)
      requires Valid()
      modifies this, lines
      ensures Valid()
      ensures Model() == if text == [] then old(Model()) else Added(old(Model()), now, agent, LineText(prefix, text))
    {
      if text == [] {
        return;
      }
      Expire(now);
      last := now;
      num := num + 1;
      Push(Line(num, agent, LineText(prefix, text)));
    }

    method Id(now: int) returns (current: nat)
      requires Valid()
      modifies this
      ensures Valid() && Model() == Expired(old(Model()), now) && current == Model().id
    {
      Expire(now);
      current := id;
    }

    method LineAt(i: nat) returns (line: Line)
      requires Valid() && i < n
      ensures line == Model().lines[i] && |line.text| < WIDTH
    {
      var k := (next - n + i + LINES) % LINES;
      line := lines[k];
      assert lines[..][k] == line;
    }

    /** The loop with modular indices; a buffer for LINES lines of WIDTH bytes takes every line whole. */
    method Render(after: nat, skip: Option<string>, sz: nat) returns (out: Text, upto: nat)
      requires Valid() && sz > LINES * WIDTH
      ensures out == Joined(Shown(Model().lines, after, skip)) && upto == Model().num
    {
      out := [];
      ghost var all := Model().lines;
      for i := 0 to n
        invariant out == Joined(Shown(all[..i], after, skip)) && |out| <= i * WIDTH
      {
        var line := LineAt(i);
        assert all[..i + 1] == all[..i] + [line];
        out := RenderLine(out, line, after, skip, sz, all[..i]);
      }
      assert all[..n] == all;
      upto := num;
    }
  }

  method RenderLine(out: Text, line: Line, after: nat, skip: Option<string>, sz: nat, ghost before: seq<Line>)
    returns (out': Text)
    requires out == Joined(Shown(before, after, skip)) && |line.text| < WIDTH && |out| + WIDTH < sz
    ensures out' == Joined(Shown(before + [line], after, skip)) && |out'| <= |out| + WIDTH
  {
    ShownPush(before, line, after, skip);
    out' := out;
    if line.num > after && !(skip.Some? && line.agent == skip.value) {
      JoinedPush(Shown(before, after, skip), line);
      out' := Appended(out, sz, line.text + [LF]);
    }
  }

  lemma ShownPush(lines: seq<Line>, l: Line, after: nat, skip: Option<string>)
    ensures Wanted(l, after, skip) ==> Shown(lines + [l], after, skip) == Shown(lines, after, skip) + [l]
    ensures !Wanted(l, after, skip) ==> Shown(lines + [l], after, skip) == Shown(lines, after, skip)
  {
    assert (lines + [l])[..|lines|] == lines;
  }

  lemma JoinedPush(lines: seq<Line>, l: Line)
    ensures Joined(lines + [l]) == Joined(lines) + (l.text + [LF])
  {
    assert (lines + [l])[..|lines|] == lines;
  }

  //
  // Runs: the operations of all threads, one after another under the lock.
  //

  datatype Op =
    | Add(now: int, agent: string, text: Text)
    | Id(now: int)

  function Step(c: Log, op: Op): Log {
    match op
    case Add(now, agent, text) => Added(c, now, agent, text)
    case Id(now) => Expired(c, now)
  }

  /** Every line of the current conversation, in the order they were added. */
  function Conversation(conv: seq<Line>, c: Log, op: Op): seq<Line> {
    var kept := if Expired(c, op.now).id == c.id then conv else [];
    if op.Add? then kept + [Line(c.num + 1, op.agent, op.text)] else kept
  }

  predicate Consecutive(conv: seq<Line>, upto: nat) {
    forall i | 0 <= i < |conv| :: conv[i].num == upto - (|conv| - 1 - i)
  }

  predicate RingOk(c: Log, conv: seq<Line>) {
    c.lines == LastOf(conv) && Consecutive(conv, c.num) && |conv| <= c.num
  }

  lemma RingStep(c: Log, conv: seq<Line>, op: Op)
    requires RingOk(c, conv)
    ensures RingOk(Step(c, op), Conversation(conv, c, op))
  {
  }

  function RunLog(c: Log, ops: seq<Op>): Log {
    if ops == [] then c else Step(RunLog(c, ops[..|ops| - 1]), ops[|ops| - 1])
  }

  function RunConversation(c: Log, conv: seq<Line>, ops: seq<Op>): seq<Line> {
    if ops == [] then conv
    else
      var before := ops[..|ops| - 1];
      Conversation(RunConversation(c, conv, before), RunLog(c, before), ops[|ops| - 1])
  }

  /** After every run the ring holds the last LINES lines of the open conversation, numbered consecutively. */
  lemma {:induction false} RingIsTail(ops: seq<Op>, idle: int)
    ensures var c := Log([], 0, 0, 0, idle);
            RingOk(RunLog(c, ops), RunConversation(c, [], ops))
  {
    if ops != [] {
      var c, before := Log([], 0, 0, 0, idle), ops[..|ops| - 1];
      RingIsTail(before, idle);
      RingStep(RunLog(c, before), RunConversation(c, [], before), ops[|ops| - 1]);
    }
  }

  //
  // When a conversation ends.
  //

  /** At no operation had the last line been added `idle` seconds ago or more. */
  predicate StaysOpen(c: Log, ops: seq<Op>) {
    ops == [] ||
    var n := |ops| - 1;
    var before := RunLog(c, ops[..n]);
    StaysOpen(c, ops[..n]) && (before.lines != [] ==> ops[n].now - before.last < before.idle)
  }

  lemma StepTimes(c: Log, op: Op)
    ensures var c' := Step(c, op);
            && c'.last == (if op.Add? then op.now else c.last) && c'.idle == c.idle
            && c'.num == (if op.Add? then c.num + 1 else c.num)
            && c'.id == if c.lines != [] && op.now - c.last >= c.idle then c.id + 1 else c.id
  {
  }

  /** The id is the same exactly if the conversation stayed open, and then it has only grown. */
  lemma {:induction false} SameIdSameConversation(c: Log, conv: seq<Line>, ops: seq<Op>)
    ensures RunLog(c, ops).id >= c.id
    ensures RunLog(c, ops).id == c.id <==> StaysOpen(c, ops)
    ensures RunLog(c, ops).id == c.id ==> conv <= RunConversation(c, conv, ops)
  {
    if ops != [] {
      var n := |ops| - 1;
      SameIdSameConversation(c, conv, ops[..n]);
      StepTimes(RunLog(c, ops[..n]), ops[n]);
    }
  }

  /** An expired conversation is forgotten: nothing of it is left in the log. */
  lemma ExpiredIsForgotten(c: Log, op: Op)
    ensures c.lines != [] && op.now - c.last >= c.idle ==>
              Step(c, op).lines == if op.Add? then [Line(c.num + 1, op.agent, op.text)] else []
    ensures !(c.lines != [] && op.now - c.last >= c.idle) && op.Id? ==> Step(c, op) == c
  {
  }

  //
  // A chain of resumed sessions of one agent.
  //

  /** What the agent has been shown since the first render of the chain, and up to which line. */
  datatype View = View(log: Log, after: nat, shown: seq<Line>)

  datatype Event = Other(op: Op) | Resume

  function Next(v: View, e: Event, agent: string): View {
    match e
    case Other(op) => v.(log := Step(v.log, op))
    case Resume => View(v.log, v.log.num, v.shown + Shown(v.log.lines, v.after, Some(agent)))
  }

  function Exec(v: View, es: seq<Event>, agent: string): View {
    if es == [] then v else Next(Exec(v, es[..|es| - 1], agent), es[|es| - 1], agent)
  }

  predicate Increasing(lines: seq<Line>) {
    forall i, j | 0 <= i < j < |lines| :: lines[i].num < lines[j].num
  }

  predicate GoodLog(c: Log) {
    Increasing(c.lines) && forall i | 0 <= i < |c.lines| :: c.lines[i].num <= c.num
  }

  predicate GoodView(v: View) {
    && GoodLog(v.log) && v.after <= v.log.num
    && Increasing(v.shown) && forall i | 0 <= i < |v.shown| :: v.shown[i].num <= v.after
  }

  lemma {:induction false} ShownLines(lines: seq<Line>, after: nat, skip: Option<string>)
    requires Increasing(lines)
    ensures forall l :: l in Shown(lines, after, skip) <==> l in lines && Wanted(l, after, skip)
    ensures Increasing(Shown(lines, after, skip))
  {
    if lines != [] {
      var n := |lines| - 1;
      var init, last := lines[..n], lines[n];
      ShownLines(init, after, skip);
      assert lines == init + [last];
      ShownPush(init, last, after, skip);
      var rest := Shown(init, after, skip);
      forall i | 0 <= i < |rest|
        ensures rest[i].num < last.num
      {
        assert rest[i] in init;
      }
    }
  }

  lemma GoodStep(c: Log, op: Op)
    requires GoodLog(c)
    ensures GoodLog(Step(c, op)) && c.num <= Step(c, op).num
  {
  }

  lemma GoodNext(v: View, e: Event, agent: string)
    requires GoodView(v)
    ensures GoodView(Next(v, e, agent))
  {
    match e
    case Other(op) => GoodStep(v.log, op);
    case Resume =>
      ShownLines(v.log.lines, v.after, Some(agent));
      var more := Shown(v.log.lines, v.after, Some(agent));
      forall i | 0 <= i < |more|
        ensures v.after < more[i].num <= v.log.num
      {
        assert more[i] in more;
      }
  }

  /** A line up to `after` is shown later exactly if it has been shown already. */
  lemma {:induction false} ExecGood(v: View, es: seq<Event>, agent: string)
    requires GoodView(v)
    ensures var w := Exec(v, es, agent);
            && GoodView(w) && v.after <= w.after && v.log.num <= w.log.num
            && forall l: Line | l.num <= v.after :: l in w.shown <==> l in v.shown
  {
    if es != [] {
      var n := |es| - 1;
      ExecGood(v, es[..n], agent);
      var w := Exec(v, es[..n], agent);
      GoodNext(w, es[n], agent);
      if es[n].Resume? {
        ShownLines(w.log.lines, w.after, Some(agent));
      } else {
        GoodStep(w.log, es[n].op);
      }
    }
  }

  lemma {:induction false} ExecConcat(v: View, a: seq<Event>, b: seq<Event>, agent: string)
    ensures Exec(v, a + b, agent) == Exec(Exec(v, a, agent), b, agent)
  {
    if b == [] {
      assert a + b == a;
    } else {
      assert (a + b)[..|a + b| - 1] == a + b[..|b| - 1];
      ExecConcat(v, a, b[..|b| - 1], agent);
    }
  }

  lemma {:induction false} CountIncreasing(lines: seq<Line>, l: Line)
    requires Increasing(lines)
    ensures multiset(lines)[l] == if l in lines then 1 else 0
  {
    if lines != [] {
      var n := |lines| - 1;
      assert lines == lines[..n] + [lines[n]];
      CountIncreasing(lines[..n], l);
      assert lines[n] !in lines[..n];
    }
  }

  /** The first render of a chain shows everything, so nothing since has been shown. */
  predicate Start(v: View) {
    GoodLog(v.log) && v.after == v.log.num && v.shown == []
  }

  /** No line is shown twice over the whole chain. */
  lemma ShownAtMostOnce(v: View, es: seq<Event>, agent: string, l: Line)
    requires Start(v)
    ensures multiset(Exec(v, es, agent).shown)[l] <= 1
  {
    ExecGood(v, es, agent);
    CountIncreasing(Exec(v, es, agent).shown, l);
  }

  lemma {:induction false} NoResume(v: View, es: seq<Event>, agent: string)
    requires forall i | 0 <= i < |es| :: es[i].Other?
    ensures Exec(v, es, agent).after == v.after && Exec(v, es, agent).shown == v.shown
  {
    if es != [] {
      NoResume(v, es[..|es| - 1], agent);
    }
  }

  /** One render and what follows it, for a line that has not been shown before. */
  lemma ShownFromHere(v: View, l: Line, later: seq<Event>, agent: string)
    requires GoodView(v) && v.after < l.num <= v.log.num && l.agent != agent
    ensures multiset(Exec(Next(v, Resume, agent), later, agent).shown)[l] == if l in v.log.lines then 1 else 0
  {
    var w := Next(v, Resume, agent);
    ShownLines(v.log.lines, v.after, Some(agent));
    assert l in w.shown <==> l in v.log.lines;
    GoodNext(v, Resume, agent);
    ExecGood(w, later, agent);
    CountIncreasing(Exec(w, later, agent).shown, l);
  }

  lemma OneEvent(v: View, e: Event, agent: string)
    ensures Exec(v, [e], agent) == Next(v, e, agent)
  {
    assert [e][..0] == [];
  }

  /** An added line is numbered last, and not shown as long as there is no render. */
  lemma AddedThen(v: View, add: Op, between: seq<Event>, agent: string)
    requires GoodView(v) && add.Add?
    requires forall i | 0 <= i < |between| :: between[i].Other?
    ensures var w := Exec(Next(v, Other(add), agent), between, agent);
            GoodView(w) && w.after == v.after && v.log.num + 1 <= w.log.num
  {
    var v' := Next(v, Other(add), agent);
    GoodNext(v, Other(add), agent);
    ExecGood(v', between, agent);
    NoResume(v', between, agent);
  }

  /**
   * A line of another agent, added after the first render, is shown exactly once if it is still in the ring at
   * the next render of the chain, and never otherwise.
   */
  lemma ShownOnceIfInRing(
    v: View, before: seq<Event>, add: Op, between: seq<Event>, later: seq<Event>, agent: string, l: Line)
    requires Start(v)
    requires add.Add? && add.agent != agent
    requires forall i | 0 <= i < |between| :: between[i].Other?
    requires l == Line(Exec(v, before, agent).log.num + 1, add.agent, add.text)
    ensures var ring := Exec(v, before + [Other(add)] + between, agent).log.lines;
            var shown := Exec(v, before + [Other(add)] + between + [Resume] + later, agent).shown;
            multiset(shown)[l] == if l in ring then 1 else 0
  {
    var v1 := Exec(v, before, agent);
    ExecGood(v, before, agent);
    AddedThen(v1, add, between, agent);
    var v2 := Exec(Next(v1, Other(add), agent), between, agent);
    ShownFromHere(v2, l, later, agent);
    ExecConcat(v, before, [Other(add)], agent);
    OneEvent(v1, Other(add), agent);
    ResumeThen(v, before + [Other(add)], between, later, agent);
  }

  lemma ResumeThen(v: View, head: seq<Event>, between: seq<Event>, later: seq<Event>, agent: string)
    ensures var v2 := Exec(Exec(v, head, agent), between, agent);
            && Exec(v, head + between, agent) == v2
            && Exec(v, head + between + [Resume] + later, agent) == Exec(Next(v2, Resume, agent), later, agent)
  {
    ExecConcat(v, head, between, agent);
    ExecConcat(v, head + between, [Resume], agent);
    OneEvent(Exec(v, head + between, agent), Resume, agent);
    ExecConcat(v, head + between + [Resume], later, agent);
  }

  //
  // The text of a line, in the terms of what was said.
  //

  /** A line that fits holds the prefix and all of the text, with line breaks as spaces. */
  lemma ShortLineIsWhole(prefix: Text, text: Text)
    requires |prefix| + |text| < WIDTH
    ensures var r, all := LineText(prefix, text), prefix + text;
            && |r| == |all|
            && forall i | 0 <= i < |r| :: r[i] == if all[i] == LF || all[i] == CR then SPACE else all[i]
  {
    assert text[..|text|] == text;
  }

  /** A longer one holds the longest start of the text that fits and does not split a character. */
  lemma LongLineIsCut(prefix: Text, text: Text) returns (k: nat)
    requires |prefix| < WIDTH && Utf8.Valid(text)
    ensures k <= |text| && |prefix| + k < WIDTH && Utf8.Valid(text[..k])
    ensures forall m | k < m <= |text| && |prefix| + m < WIDTH :: !Utf8.Valid(text[..m])
    ensures var r, all := LineText(prefix, text), prefix + text[..k];
            && |r| == |all|
            && forall i | 0 <= i < |r| :: r[i] == if all[i] == LF || all[i] == CR then SPACE else all[i]
  {
    k := Utf8.PrefixLen(text, WIDTH - 1 - |prefix|);
    Utf8.PrefixLongest(text, WIDTH - 1 - |prefix|);
  }

  lemma NextLineOut(before: Text, text: Text)
    requires IrcLines.PlainLine(text) && IrcLines.Rest(before) == []
    ensures var all := before + (text + [LF]);
            IrcLines.Lines(all) == IrcLines.Lines(before) + [text] && IrcLines.Rest(all) == []
  {
    IrcLines.LinesConcat(before, text + [LF]);
    IrcLines.FirstLineOut(text, false, []);
    assert [] + (text + [LF]) == text + [LF] == text + [LF] + [];
    assert IrcLines.Lines([]) == [];
  }

  function TextsOf(lines: seq<Line>): (r: seq<Text>)
    ensures |r| == |lines| && forall i | 0 <= i < |r| :: r[i] == lines[i].text
  {
    if lines == [] then [] else TextsOf(lines[..|lines| - 1]) + [lines[|lines| - 1].text]
  }

  lemma LastText(lines: seq<Line>)
    requires lines != []
    ensures var n := |lines| - 1;
            && TextsOf(lines) == TextsOf(lines[..n]) + [lines[n].text]
            && Joined(lines) == Joined(lines[..n]) + (lines[n].text + [LF])
  {
  }

  lemma NothingReadsBack()
    ensures IrcLines.Lines([]) == [] && IrcLines.Rest([]) == []
  {
  }

  /** What a render shows reads back line by line: each has one line of its own. */
  lemma {:induction false} RenderReadsBack(lines: seq<Line>)
    requires forall i | 0 <= i < |lines| :: IrcLines.PlainLine(lines[i].text)
    ensures IrcLines.Lines(Joined(lines)) == TextsOf(lines) && IrcLines.Rest(Joined(lines)) == []
  {
    NothingReadsBack();
    if lines != [] {
      var n := |lines| - 1;
      LastText(lines);
      RenderReadsBack(lines[..n]);
      NextLineOut(Joined(lines[..n]), lines[n].text);
    }
  }
}
