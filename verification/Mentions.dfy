/** Routing an IRC line to the agents it mentions: src/irc_parse.c. */
module Mentions {
  import opened Bytes

  const MAX_MENTIONS: nat := 16  // m[16]
  const LINE_MAX: nat := 479     // mention_t.text without its terminator
  const AT: byte := 0x40
  const SPACE: byte := 0x20
  const TAB: byte := 9
  const COLON: byte := 0x3A
  const COMMA: byte := 0x2C
  const ALL: Text := [0x61, 0x6C, 0x6C]

  datatype Mention = Mention(at: nat, end: nat, name: Text)
  datatype Route = Route(agent: Text, text: Text)

  //
  // Words and names.
  //

  /** " \t@,:.!?;" */
  predicate IsBreak(c: byte) {
    c == SPACE || c == TAB || c == AT || c == COMMA || c == COLON || c == 0x2E || c == 0x21 || c == 0x3F || c == 0x3B
  }

  predicate IsWordChar(c: byte) {
    0x61 <= c <= 0x7A || 0x41 <= c <= 0x5A || 0x30 <= c <= 0x39 || c == 0x5F || c == 0x2D || c == 0x2E
  }

  function Lower(c: byte): byte {
    if 0x41 <= c <= 0x5A then c + 0x20 else c
  }

  predicate SameName(s: Text, t: Text) {
    |s| == |t| && forall i | 0 <= i < |s| :: Lower(s[i]) == Lower(t[i])
  }

  /** find_agent: the first agent with this name, -1 when there is none. */
  function FindAgent(s: Text, agents: seq<Text>): (i: int)
    ensures -1 <= i < |agents|
    ensures i >= 0 ==> SameName(s, agents[i])
  {
    if agents == [] then -1
    else
      var n := |agents| - 1;
      var i := FindAgent(s, agents[..n]);
      if i >= 0 then i else if SameName(s, agents[n]) then n else -1
  }

  /** The canonical name that `s` stands for, [] when it names nobody. */
  function NameOf(s: Text, agents: seq<Text>): Text {
    if SameName(s, ALL) then ALL
    else
      var i := FindAgent(s, agents);
      if i >= 0 then agents[i] else []
  }

  predicate Names(s: Text, agents: seq<Text>) {
    SameName(s, ALL) || FindAgent(s, agents) >= 0
  }

  /** Where the word that starts at `i` ends. */
  function WordEnd(msg: Text, i: nat): (e: nat)
    requires i <= |msg|
    ensures i <= e <= |msg|
    ensures forall k | i <= k < e :: !IsBreak(msg[k])
    decreases |msg| - i
  {
    if i < |msg| && !IsBreak(msg[i]) then WordEnd(msg, i + 1) else i
  }

  //
  // Finding mentions.
  //

  /** An "@name" at `p` that is not part of an address. */
  predicate MentionAt(msg: Text, p: nat, agents: seq<Text>)
    requires p < |msg|
  {
    && msg[p] == AT && !(p > 0 && IsWordChar(msg[p - 1]))
    && Names(msg[p + 1..WordEnd(msg, p + 1)], agents)
  }

  function MakeMention(msg: Text, p: nat, agents: seq<Text>): Mention
    requires p < |msg|
  {
    var e := WordEnd(msg, p + 1);
    Mention(p, e, NameOf(msg[p + 1..e], agents))
  }

  /** The IRC habit "name: ..." or "name, ..." at the start of the line. */
  predicate Addressed(msg: Text, agents: seq<Text>) {
    var e := WordEnd(msg, 0);
    0 < e < |msg| && (msg[e] == COLON || msg[e] == COMMA) && Names(msg[..e], agents)
  }

  /** The mentions from `p` on, at most `room` of them. */
  function Scan(msg: Text, p: nat, room: nat, agents: seq<Text>): seq<Mention>
    requires p <= |msg|
    decreases |msg| - p
  {
    if p == |msg| || room == 0 then []
    else if MentionAt(msg, p, agents) then
      var m := MakeMention(msg, p, agents);
      [m] + Scan(msg, m.end, room - 1, agents)
    else Scan(msg, p + 1, room, agents)
  }

  function AllMentions(msg: Text, agents: seq<Text>): seq<Mention> {
    if Addressed(msg, agents) then
      var e := WordEnd(msg, 0);
      [Mention(0, e, NameOf(msg[..e], agents))] + Scan(msg, e, MAX_MENTIONS - 1, agents)
    else Scan(msg, 0, MAX_MENTIONS, agents)
  }

  /** Disjoint and in increasing order, from `p` on. */
  predicate Ordered(ms: seq<Mention>, p: nat, len: nat) {
    && (forall i | 0 <= i < |ms| :: p <= ms[i].at < ms[i].end <= len)
    && (forall i, j | 0 <= i < j < |ms| :: ms[i].end <= ms[j].at)
  }

  lemma OrderedCons(m: Mention, ms: seq<Mention>, p: nat, len: nat)
    requires p <= m.at < m.end <= len && Ordered(ms, m.end, len)
    ensures Ordered([m] + ms, p, len)
  {
  }

  lemma {:induction false} ScanOrdered(msg: Text, p: nat, room: nat, agents: seq<Text>)
    requires p <= |msg|
    ensures Ordered(Scan(msg, p, room, agents), p, |msg|) && |Scan(msg, p, room, agents)| <= room
    decreases |msg| - p
  {
    if p < |msg| && room > 0 {
      if MentionAt(msg, p, agents) {
        var m := MakeMention(msg, p, agents);
        ScanOrdered(msg, m.end, room - 1, agents);
        OrderedCons(m, Scan(msg, m.end, room - 1, agents), p, |msg|);
      } else {
        ScanOrdered(msg, p + 1, room, agents);
      }
    }
  }

  /** What the scan finds are "@name" places. */
  lemma {:induction false} ScanFindsOnly(msg: Text, p: nat, room: nat, agents: seq<Text>)
    requires p <= |msg|
    ensures forall m | m in Scan(msg, p, room, agents) ::
              m.at < |msg| && MentionAt(msg, m.at, agents) && m == MakeMention(msg, m.at, agents)
    decreases |msg| - p
  {
    if p < |msg| && room > 0 {
      if MentionAt(msg, p, agents) {
        ScanFindsOnly(msg, MakeMention(msg, p, agents).end, room - 1, agents);
      } else {
        ScanFindsOnly(msg, p + 1, room, agents);
      }
    }
  }

  /** The scan misses no "@name" place from `p` on, as long as there is room. */
  lemma {:induction false} ScanFindsAll(msg: Text, p: nat, room: nat, agents: seq<Text>, q: nat)
    requires p <= q < |msg| && MentionAt(msg, q, agents)
    ensures |Scan(msg, p, room, agents)| < room ==> MakeMention(msg, q, agents) in Scan(msg, p, room, agents)
    decreases |msg| - p
  {
    if room > 0 {
      if MentionAt(msg, p, agents) {
        var m := MakeMention(msg, p, agents);
        assert forall k | p < k < m.end :: !IsBreak(msg[k]);
        if q >= m.end {
          ScanFindsAll(msg, m.end, room - 1, agents, q);
        }
      } else {
        ScanFindsAll(msg, p + 1, room, agents, q);
      }
    }
  }

  lemma MentionsOrdered(msg: Text, agents: seq<Text>)
    ensures Ordered(AllMentions(msg, agents), 0, |msg|) && |AllMentions(msg, agents)| <= MAX_MENTIONS
  {
    if Addressed(msg, agents) {
      ScanOrdered(msg, WordEnd(msg, 0), MAX_MENTIONS - 1, agents);
    } else {
      ScanOrdered(msg, 0, MAX_MENTIONS, agents);
    }
  }

  //
  // The text of a segment.
  //

  function DropLead(s: Text): (r: Text)
    ensures |r| <= |s|
  {
    if s != [] && (s[0] == SPACE || s[0] == TAB || s[0] == COLON || s[0] == COMMA) then DropLead(s[1..]) else s
  }

  function DropTail(s: Text): (r: Text)
    ensures |r| <= |s|
  {
    if s != [] && (s[|s| - 1] == SPACE || s[|s| - 1] == TAB) then DropTail(s[..|s| - 1]) else s
  }

  function Cut(s: Text): Text {
    if |s| > LINE_MAX then s[..LINE_MAX] else s
  }

  function SegmentText(s: Text): Text {
    Cut(DropTail(DropLead(s)))
  }

  /** set_text, with its two loops. */
  method SetText(s: Text) returns (r: Text)
    ensures r == SegmentText(s)
  {
    r := s;
    while r != [] && (r[0] == SPACE || r[0] == TAB || r[0] == COLON || r[0] == COMMA)
      invariant DropLead(r) == DropLead(s)
      decreases |r|
    {
      r := r[1..];
    }
    ghost var t := r;
    while r != [] && (r[|r| - 1] == SPACE || r[|r| - 1] == TAB)
      invariant DropTail(r) == DropTail(t)
      decreases |r|
    {
      r := r[..|r| - 1];
    }
    if |r| > LINE_MAX {
      r := r[..LINE_MAX];
    }
  }

  //
  // Fan-out.
  //

  /** Each name with the first non-empty text at or after it; trailing names without one are dropped. */
  function Filled(names: seq<Text>, texts: seq<Text>): (r: seq<Route>)
    requires |names| == |texts|
    ensures |r| <= |names|
  {
    if names == [] then []
    else
      var rest := Filled(names[1..], texts[1..]);
      if texts[0] != [] then [Route(names[0], texts[0])] + rest
      else if rest == [] then []
      else [Route(names[0], rest[0].text)] + rest
  }

  /** The first non-empty text from index `i` on. */
  function NextText(texts: seq<Text>, i: nat): (j: nat)
    requires i <= |texts|
    ensures i <= j <= |texts|
    ensures j < |texts| ==> texts[j] != []
    ensures forall k | i <= k < j :: texts[k] == []
    decreases |texts| - i
  {
    if i == |texts| || texts[i] != [] then i else NextText(texts, i + 1)
  }

  lemma NextShift(texts: seq<Text>, i: nat)
    requires 0 < i <= |texts|
    ensures NextText(texts, i) == 1 + NextText(texts[1..], i - 1)
    decreases |texts| - i
  {
    if i < |texts| && texts[i] == [] {
      NextShift(texts, i + 1);
    }
  }

  /** Route `i` of `r` has the first non-empty text at or after its mention. */
  predicate RouteOk(names: seq<Text>, texts: seq<Text>, r: seq<Route>, i: nat)
    requires i < |r| <= |names| == |texts|
  {
    NextText(texts, i) < |texts| && r[i] == Route(names[i], texts[NextText(texts, i)])
  }

  lemma RouteShift(names: seq<Text>, texts: seq<Text>, r: seq<Route>, i: nat)
    requires 0 < i < |r| <= |names| == |texts| && RouteOk(names[1..], texts[1..], r[1..], i - 1)
    ensures RouteOk(names, texts, r, i)
  {
    NextShift(texts, i);
  }

  lemma FirstRoute(names: seq<Text>, texts: seq<Text>)
    requires |names| == |texts| && Filled(names, texts) != []
    requires var rest := Filled(names[1..], texts[1..]); rest != [] ==> RouteOk(names[1..], texts[1..], rest, 0)
    ensures RouteOk(names, texts, Filled(names, texts), 0)
  {
    NextShift(texts, 1);
  }

  /** Every route has the first non-empty text at or after its mention, and only names without one are missing. */
  lemma {:induction false} FilledMeans(names: seq<Text>, texts: seq<Text>)
    requires |names| == |texts|
    ensures var r := Filled(names, texts);
            && (forall i | 0 <= i < |r| :: RouteOk(names, texts, r, i))
            && (forall i | |r| <= i < |texts| :: texts[i] == [])
  {
    if names != [] {
      FilledMeans(names[1..], texts[1..]);
      var r, rest := Filled(names, texts), Filled(names[1..], texts[1..]);
      assert r != [] ==> r[1..] == rest;
      forall i | 0 <= i < |r|
        ensures RouteOk(names, texts, r, i)
      {
        if i == 0 {
          FirstRoute(names, texts);
        } else {
          RouteShift(names, texts, r, i);
        }
      }
      assert forall i | 0 < i < |texts| :: texts[i] == texts[1..][i - 1];
    }
  }

  function Same(names: seq<Text>, text: Text): (r: seq<Route>)
    ensures |r| == |names|
  {
    seq(|names|, i requires 0 <= i < |names| => Route(names[i], text))
  }

  lemma SameCons(name: Text, names: seq<Text>, text: Text)
    ensures Same([name] + names, text) == [Route(name, text)] + Same(names, text)
  {
  }

  lemma {:induction false} FilledPushEmpty(names: seq<Text>, texts: seq<Text>, name: Text)
    requires |names| == |texts|
    ensures Filled(names + [name], texts + [[]]) == Filled(names, texts)
  {
    var ns, ts := names + [name], texts + [[]];
    if names != [] {
      assert ns[1..] == names[1..] + [name] && ts[1..] == texts[1..] + [[]];
      FilledPushEmpty(names[1..], texts[1..], name);
    }
  }

  /** A non-empty segment is shared with the names that wait for a text. */
  lemma {:induction false} FilledPush(names: seq<Text>, texts: seq<Text>, name: Text, text: Text)
    requires |names| == |texts| && text != []
    ensures var r := Filled(names, texts);
            Filled(names + [name], texts + [text]) == r + Same(names[|r|..] + [name], text)
  {
    var ns, ts := names + [name], texts + [text];
    if names == [] {
      SameCons(name, [], text);
      assert [] + [name] == [name] == [name] + [];
    } else {
      assert ns[1..] == names[1..] + [name] && ts[1..] == texts[1..] + [text];
      FilledPush(names[1..], texts[1..], name, text);
      var r, rest := Filled(names, texts), Filled(names[1..], texts[1..]);
      var waiting := names[1..][|rest|..] + [name];
      assert Filled(ns[1..], ts[1..]) == rest + Same(waiting, text);
      if r == [] {
        SameCons(names[0], waiting, text);
        assert [names[0]] + waiting == names[|r|..] + [name];
      } else {
        assert waiting == names[|r|..] + [name];
        assert [r[0]] + (rest + Same(waiting, text)) == r + Same(waiting, text);
      }
    }
  }

  function SegmentTexts(msg: Text, ms: seq<Mention>): (r: seq<Text>)
    requires Ordered(ms, 0, |msg|)
    ensures |r| == |ms|
  {
    seq(|ms|, i requires 0 <= i < |ms| =>
      SegmentText(msg[ms[i].end..if i + 1 < |ms| then ms[i + 1].at else |msg|]))
  }

  function MentionNames(ms: seq<Mention>): (r: seq<Text>)
    ensures |r| == |ms|
  {
    seq(|ms|, i requires 0 <= i < |ms| => ms[i].name)
  }

  /** The hub gets the leading text, if there is any. */
  function Lead(msg: Text, ms: seq<Mention>, hub: Text): seq<Route>
    requires ms != [] && Ordered(ms, 0, |msg|)
  {
    var text := SegmentText(msg[..ms[0].at]);
    if ms[0].at > 0 && text != [] then [Route(hub, text)] else []
  }

  /** As many mentions as fit behind the lead. */
  function FanOut(msg: Text, ms: seq<Mention>, hub: Text, max: nat): seq<Route>
    requires ms != [] && Ordered(ms, 0, |msg|) && max > 0
  {
    var lead := Lead(msg, ms, hub);
    var k := Min(|ms|, max - |lead|);
    lead + Filled(MentionNames(ms)[..k], SegmentTexts(msg, ms)[..k])
  }

  predicate IsAll(m: Mention) {
    m.name == ALL
  }

  function Routes(msg: Text, agents: seq<Text>, hub: Text, max: int): seq<Route> {
    var ms := AllMentions(msg, agents);
    if msg == [] || max <= 0 then []
    else if ms == [] then [Route(hub, SegmentText(msg))]
    else
      MentionsOrdered(msg, agents);
      var i := FirstAll(ms);
      if i < |ms| then [Route(ALL, AllText(msg, ms[i]))] else FanOut(msg, ms, hub, max)
  }

  function FirstAll(ms: seq<Mention>): (i: nat)
    ensures i <= |ms|
    ensures i < |ms| ==> IsAll(ms[i])
    ensures forall k | 0 <= k < i :: !IsAll(ms[k])
  {
    if ms == [] then 0
    else
      var n := |ms| - 1;
      var i := FirstAll(ms[..n]);
      if i < n || IsAll(ms[n]) then i else n + 1
  }

  /** "@all" is taken out of the message, unless nothing is left. */
  function AllText(msg: Text, m: Mention): Text
    requires m.at <= m.end <= |msg|
  {
    var text := SegmentText(Cut(msg[..m.at] + [SPACE] + msg[m.end..]));
    if text != [] then text else SegmentText(msg)
  }

  predicate AllTexts(r: seq<Route>) {
    forall i | 0 <= i < |r| :: r[i].text != []
  }

  lemma FilledTexts(names: seq<Text>, texts: seq<Text>)
    requires |names| == |texts|
    ensures AllTexts(Filled(names, texts))
  {
    var r := Filled(names, texts);
    FilledMeans(names, texts);
    forall i | 0 <= i < |r|
      ensures r[i].text != []
    {
      assert RouteOk(names, texts, r, i);
    }
  }

  lemma JoinTexts(a: seq<Route>, b: seq<Route>)
    requires AllTexts(a) && AllTexts(b)
    ensures AllTexts(a + b)
  {
  }

  /** In the fan-out case every returned text is non-empty and the output is not overrun. */
  lemma FanOutTexts(msg: Text, ms: seq<Mention>, hub: Text, max: nat)
    requires ms != [] && Ordered(ms, 0, |msg|) && max > 0
    ensures |FanOut(msg, ms, hub, max)| <= max && AllTexts(FanOut(msg, ms, hub, max))
  {
    var lead := Lead(msg, ms, hub);
    var k := Min(|ms|, max - |lead|);
    var names, texts := MentionNames(ms)[..k], SegmentTexts(msg, ms)[..k];
    FilledTexts(names, texts);
    JoinTexts(lead, Filled(names, texts));
  }

  //
  // The loops of parse_mentions.
  //

  /** The test at one position. */
  method Look(msg: Text, p: nat, agents: seq<Text>) returns (found: bool, m: Mention)
    requires p < |msg|
    ensures found <==> MentionAt(msg, p, agents)
    ensures found ==> m == MakeMention(msg, p, agents)
  {
    found, m := false, Mention(p, p, []);
    if msg[p] == AT && !(p > 0 && IsWordChar(msg[p - 1])) {
      var e := WordEnd(msg, p + 1);
      var s := msg[p + 1..e];
      if Names(s, agents) {
        found, m := true, Mention(p, e, NameOf(s, agents));
      }
    }
  }

  lemma Regroup(ms: seq<Mention>, m: Mention, rest: seq<Mention>)
    ensures ms + ([m] + rest) == (ms + [m]) + rest
  {
  }

  /** The name at the start of the line. */
  method FindAddressee(msg: Text, agents: seq<Text>) returns (ms: seq<Mention>, p: nat)
    ensures |ms| <= 1 && p <= |msg|
    ensures ms + Scan(msg, p, MAX_MENTIONS - |ms|, agents) == AllMentions(msg, agents)
  {
    ms, p := [], 0;
    var word := WordEnd(msg, 0);
    if word > 0 && word < |msg| && (msg[word] == COLON || msg[word] == COMMA) && Names(msg[..word], agents) {
      ms := [Mention(0, word, NameOf(msg[..word], agents))];
      p := word;
    }
  }

  method FindMentions(msg: Text, agents: seq<Text>) returns (ms: seq<Mention>)
    ensures ms == AllMentions(msg, agents)
  {
    var p;
    ghost var all := AllMentions(msg, agents);
    ms, p := FindAddressee(msg, agents);
    while p < |msg| && |ms| < MAX_MENTIONS
      invariant p <= |msg| && |ms| <= MAX_MENTIONS
      invariant ms + Scan(msg, p, MAX_MENTIONS - |ms|, agents) == all
      decreases |msg| - p
    {
      var found, m := Look(msg, p, agents);
      if found {
        Regroup(ms, m, Scan(msg, m.end, MAX_MENTIONS - |ms| - 1, agents));
        ms := ms + [m];
        p := m.end;
      } else {
        p := p + 1;
      }
    }
  }

  /** The inner loop: the routes that wait get the text. */
  method ShareText(routes: seq<Route>, from: nat, text: Text, ghost names: seq<Text>) returns (out: seq<Route>)
    requires from <= |routes| && routes[from..] == Same(names, [])
    ensures out == routes[..from] + Same(names, text)
  {
    out := routes;
    for j := from to |routes|
      invariant |out| == |routes|
      invariant forall k | 0 <= k < from || j <= k < |routes| :: out[k] == routes[k]
      invariant forall k | from <= k < j :: out[k] == Route(names[k - from], text)
    {
      assert routes[j] == routes[from..][j - from];
      out := out[j := Route(out[j].agent, text)];
    }
  }

  /** The last loop: `pending` is the number of routes that have their text. */
  method FillRoutes(names: seq<Text>, texts: seq<Text>) returns (out: seq<Route>, pending: nat)
    requires |names| == |texts|
    ensures pending <= |out| && out[..pending] == Filled(names, texts)
  {
    out, pending := [], 0;
    for i := 0 to |names|
      invariant pending == |Filled(names[..i], texts[..i])| <= i
      invariant out == Filled(names[..i], texts[..i]) + Same(names[pending..i], [])
    {
      ghost var done, waiting := Filled(names[..i], texts[..i]), names[pending..i];
      assert names[..i + 1] == names[..i] + [names[i]] && texts[..i + 1] == texts[..i] + [texts[i]];
      assert names[..i][pending..] == waiting && waiting + [names[i]] == names[pending..i + 1];
      assert Same(waiting + [names[i]], texts[i]) == Same(waiting, texts[i]) + [Route(names[i], texts[i])];
      if texts[i] != [] {
        FilledPush(names[..i], texts[..i], names[i], texts[i]);
        out := ShareText(out, pending, texts[i], waiting);
        pending := i + 1;
        assert names[i + 1..i + 1] == [];
      } else {
        FilledPushEmpty(names[..i], texts[..i], names[i]);
      }
      out := out + [Route(names[i], texts[i])];
    }
    assert names[..|names|] == names && texts[..|texts|] == texts;
  }

  method RouteAll(msg: Text, m: Mention) returns (r: seq<Route>)
    requires m.at <= m.end <= |msg|
    ensures r == [Route(ALL, AllText(msg, m))]
  {
    var text := SetText(Cut(msg[..m.at] + [SPACE] + msg[m.end..]));
    if text == [] {
      text := SetText(msg);
    }
    r := [Route(ALL, text)];
  }

  method RouteMany(msg: Text, ms: seq<Mention>, hub: Text, max: nat) returns (r: seq<Route>)
    requires ms != [] && Ordered(ms, 0, |msg|) && max > 0
    ensures r == FanOut(msg, ms, hub, max)
  {
    var lead := Lead(msg, ms, hub);
    var k := Min(|ms|, max - |lead|);
    var out, pending := FillRoutes(MentionNames(ms)[..k], SegmentTexts(msg, ms)[..k]);
    r := lead + out[..pending];
  }

  method ParseMentions(msg: Text, agents: seq<Text>, hub: Text, max: int) returns (r: seq<Route>)
    ensures r == Routes(msg, agents, hub, max)
  {
    if msg == [] || max <= 0 {
      return [];
    }
    var ms := FindMentions(msg, agents);
    if ms == [] {
      var text := SetText(msg);
      return [Route(hub, text)];
    }
    MentionsOrdered(msg, agents);
    var i := FirstAll(ms);
    if i < |ms| {
      r := RouteAll(msg, ms[i]);
    } else {
      r := RouteMany(msg, ms, hub, max);
    }
  }

  //
  // What the words above mean, in the terms of the message.
  //

  function Upper(c: byte): byte {
    if 0x61 <= c <= 0x7A then c - 0x20 else c
  }

  /** Names are the same in capitals. */
  lemma CapitalsAreTheSame(s: Text)
    ensures SameName(seq(|s|, i requires 0 <= i < |s| => Upper(s[i])), s)
  {
  }

  /** `name` is what `s` stands for: "all", or the first agent with this name, or nobody. */
  predicate StandsFor(s: Text, agents: seq<Text>, name: Text) {
    if SameName(s, ALL) then name == ALL
    else if exists i | 0 <= i < |agents| :: SameName(s, agents[i]) then
      exists i | 0 <= i < |agents| ::
        && name == agents[i] && SameName(s, agents[i])
        && forall j | 0 <= j < i :: !SameName(s, agents[j])
    else name == []
  }

  lemma {:induction false} FirstAgent(s: Text, agents: seq<Text>)
    ensures var i := FindAgent(s, agents);
            if i >= 0 then forall j | 0 <= j < i :: !SameName(s, agents[j])
            else forall j | 0 <= j < |agents| :: !SameName(s, agents[j])
  {
    if agents != [] {
      FirstAgent(s, agents[..|agents| - 1]);
    }
  }

  lemma NameStandsFor(s: Text, agents: seq<Text>)
    ensures StandsFor(s, agents, NameOf(s, agents))
    ensures Names(s, agents) <==> SameName(s, ALL) || exists i | 0 <= i < |agents| :: SameName(s, agents[i])
  {
    FirstAgent(s, agents);
  }

  /** What ends a name, and what may not stand before its "@". */
  lemma CharactersAre(c: byte)
    ensures var ch := c as int as char;
            && (IsBreak(c) <==> ch in " \t@,:.!?;")
            && (IsWordChar(c) <==> 'a' <= ch <= 'z' || 'A' <= ch <= 'Z' || '0' <= ch <= '9' || ch in "_-.")
  {
  }

  /** The longest stretch without a break from `p` on ends at `e`. */
  predicate WordAt(msg: Text, p: nat, e: nat) {
    && p <= e <= |msg| && (forall k | p <= k < e :: !IsBreak(msg[k])) && (e < |msg| ==> IsBreak(msg[e]))
  }

  /** A mention is "@" with the name of somebody behind it, not inside an address. */
  lemma MentionMeans(msg: Text, p: nat, agents: seq<Text>) returns (e: nat)
    requires p < |msg|
    ensures WordAt(msg, p + 1, e)
    ensures MentionAt(msg, p, agents)
       <==> && msg[p] == AT && (p == 0 || !IsWordChar(msg[p - 1]))
            && (SameName(msg[p + 1..e], ALL) || exists i | 0 <= i < |agents| :: SameName(msg[p + 1..e], agents[i]))
    ensures var m := MakeMention(msg, p, agents);
            m.at == p && m.end == e && StandsFor(msg[p + 1..e], agents, m.name)
  {
    e := WordEnd(msg, p + 1);
    WordEnds(msg, p + 1);
    NameStandsFor(msg[p + 1..e], agents);
  }

  lemma {:induction false} WordEnds(msg: Text, i: nat)
    requires i <= |msg|
    ensures WordAt(msg, i, WordEnd(msg, i))
    decreases |msg| - i
  {
    if i < |msg| && !IsBreak(msg[i]) {
      WordEnds(msg, i + 1);
    }
  }

  predicate IsLead(c: byte) {
    c == SPACE || c == TAB || c == COLON || c == COMMA
  }

  predicate IsBlank(c: byte) {
    c == SPACE || c == TAB
  }

  /** `r` is `s` from `p` to `q`, what stands before being separators, what stands behind blanks, as far as it fits. */
  predicate TrimmedAt(s: Text, r: Text, p: nat, q: nat) {
    && p <= q <= |s|
    && (forall k | 0 <= k < p :: IsLead(s[k])) && (forall k | q <= k < |s| :: IsBlank(s[k]))
    && (p < q ==> !IsLead(s[p]) && !IsBlank(s[q - 1]))
    && r == if q - p > LINE_MAX then s[p..p + LINE_MAX] else s[p..q]
  }

  lemma {:induction false} LeadIs(s: Text) returns (p: nat)
    ensures p <= |s| && DropLead(s) == s[p..] && (forall k | 0 <= k < p :: IsLead(s[k])) && (p < |s| ==> !IsLead(s[p]))
  {
    if s != [] && IsLead(s[0]) {
      var q := LeadIs(s[1..]);
      p := q + 1;
      assert forall k | 0 < k < p :: s[k] == s[1..][k - 1];
    } else {
      p := 0;
    }
  }

  lemma {:induction false} TailIs(s: Text) returns (q: nat)
    ensures q <= |s| && DropTail(s) == s[..q]
    ensures (forall k | q <= k < |s| :: IsBlank(s[k])) && (q > 0 ==> !IsBlank(s[q - 1]))
  {
    if s != [] && IsBlank(s[|s| - 1]) {
      q := TailIs(s[..|s| - 1]);
    } else {
      q := |s|;
    }
  }

  lemma TextIsTrimmed(s: Text) returns (p: nat, q: nat)
    ensures TrimmedAt(s, SegmentText(s), p, q)
  {
    p := LeadIs(s);
    var t := s[p..];
    var n := TailIs(t);
    q := p + n;
    assert t[..n] == s[p..q];
    assert forall k | q <= k < |s| :: s[k] == t[k - p];
    if p < q {
      assert t[n - 1] == s[q - 1];
    }
    assert q - p > LINE_MAX ==> s[p..q][..LINE_MAX] == s[p..p + LINE_MAX];
  }

  /** What stands between mention `i` and the next one, or the end of the message. */
  function Between(msg: Text, ms: seq<Mention>, i: nat): Text
    requires Ordered(ms, 0, |msg|) && i < |ms|
  {
    if i + 1 < |ms| then msg[ms[i].end..ms[i + 1].at] else msg[ms[i].end..]
  }

  lemma SegmentIsBetween(msg: Text, ms: seq<Mention>, i: nat)
    requires Ordered(ms, 0, |msg|) && i < |ms|
    ensures SegmentTexts(msg, ms)[i] == SegmentText(Between(msg, ms, i))
  {
    assert msg[ms[i].end..] == msg[ms[i].end..|msg|];
  }

  /** The text of a mention is that, trimmed. */
  lemma SegmentIs(msg: Text, ms: seq<Mention>, i: nat) returns (p: nat, q: nat)
    requires Ordered(ms, 0, |msg|) && i < |ms|
    ensures TrimmedAt(Between(msg, ms, i), SegmentTexts(msg, ms)[i], p, q)
  {
    SegmentIsBetween(msg, ms, i);
    p, q := TextIsTrimmed(Between(msg, ms, i));
  }

  /** Route `i` behind the hub names mention `i` and has the first text at or after it, in the list `texts`. */
  predicate TextFor(ms: seq<Mention>, texts: seq<Text>, i: nat, route: Route) {
    && i < |ms| == |texts| && route.agent == ms[i].name
    && exists n | i <= n < |texts| ::
         route.text == texts[n] && texts[n] != [] && forall m | i <= m < n :: texts[m] == []
  }

  lemma RouteIsTextFor(ms: seq<Mention>, texts: seq<Text>, k: nat, r: seq<Route>, i: nat)
    requires k <= |ms| == |texts| && i < |r| <= k && RouteOk(MentionNames(ms)[..k], texts[..k], r, i)
    ensures TextFor(ms, texts, i, r[i])
  {
    var n := NextText(texts[..k], i);
    assert texts[n] == texts[..k][n] && forall m | i <= m < n :: texts[m] == texts[..k][m];
  }

  /** The routes behind the hub, of the first `k` mentions. */
  predicate RoutesFor(ms: seq<Mention>, texts: seq<Text>, k: nat, rest: seq<Route>) {
    && |rest| <= k <= |ms| == |texts|
    && (forall i | 0 <= i < |rest| :: TextFor(ms, texts, i, rest[i]))
    && (forall i | |rest| <= i < k :: texts[i] == [])
  }

  lemma FilledFor(ms: seq<Mention>, texts: seq<Text>, k: nat)
    requires k <= |ms| == |texts|
    ensures RoutesFor(ms, texts, k, Filled(MentionNames(ms)[..k], texts[..k]))
  {
    var names, rest := MentionNames(ms)[..k], Filled(MentionNames(ms)[..k], texts[..k]);
    FilledMeans(names, texts[..k]);
    forall i | 0 <= i < |rest|
      ensures TextFor(ms, texts, i, rest[i])
    {
      RouteIsTextFor(ms, texts, k, rest, i);
    }
    forall i | |rest| <= i < k
      ensures texts[i] == []
    {
      assert texts[..k][i] == texts[i];
    }
  }

  /**
   * The fan-out: the hub with what stands before the first mention, if that is not empty, then the mentions in order,
   * each with its text, as many as fit; those at the end are missing only if no text is left for them.
   */
  lemma FanOutMeans(msg: Text, ms: seq<Mention>, hub: Text, max: nat)
    returns (lead: Text, p: nat, q: nat, first: seq<Route>, rest: seq<Route>)
    requires ms != [] && Ordered(ms, 0, |msg|) && max > 0
    ensures TrimmedAt(msg[..ms[0].at], lead, p, q)
    ensures first == if ms[0].at > 0 && lead != [] then [Route(hub, lead)] else []
    ensures FanOut(msg, ms, hub, max) == first + rest
    ensures RoutesFor(ms, SegmentTexts(msg, ms), Min(|ms|, max - |first|), rest)
  {
    lead := SegmentText(msg[..ms[0].at]);
    p, q := TextIsTrimmed(msg[..ms[0].at]);
    first := Lead(msg, ms, hub);
    var k := Min(|ms|, max - |first|);
    rest := Filled(MentionNames(ms)[..k], SegmentTexts(msg, ms)[..k]);
    FilledFor(ms, SegmentTexts(msg, ms), k);
  }

  /** Without a mention the hub gets the whole message. */
  lemma NoMentionGoesToHub(msg: Text, agents: seq<Text>, hub: Text, max: int) returns (text: Text, p: nat, q: nat)
    requires msg != [] && max > 0 && AllMentions(msg, agents) == []
    ensures TrimmedAt(msg, text, p, q) && Routes(msg, agents, hub, max) == [Route(hub, text)]
  {
    text := SegmentText(msg);
    p, q := TextIsTrimmed(msg);
  }

  /** A mention of "all" makes one route, with the message without that mention, or all of it if nothing is left. */
  lemma AllGoesToAll(msg: Text, agents: seq<Text>, hub: Text, max: int, k: nat)
    returns (i: nat, text: Text, p: nat, q: nat)
    requires msg != [] && max > 0 && k < |AllMentions(msg, agents)| && AllMentions(msg, agents)[k].name == ALL
    ensures i <= k && AllMentions(msg, agents)[i].name == ALL
    ensures Routes(msg, agents, hub, max) == [Route(ALL, text)]
    ensures var m := AllMentions(msg, agents)[i];
            && m.at <= m.end <= |msg|
            && var rest := msg[..m.at] + [SPACE] + msg[m.end..];
               || TrimmedAt(if |rest| > LINE_MAX then rest[..LINE_MAX] else rest, text, p, q)
               || TrimmedAt(msg, text, p, q)
  {
    MentionsOrdered(msg, agents);
    var ms := AllMentions(msg, agents);
    assert IsAll(ms[k]);
    i := FirstAll(ms);
    text := AllText(msg, ms[i]);
    var rest := Cut(msg[..ms[i].at] + [SPACE] + msg[ms[i].end..]);
    if SegmentText(rest) != [] {
      p, q := TextIsTrimmed(rest);
    } else {
      p, q := TextIsTrimmed(msg);
    }
  }

  /** "name: ..." or "name, ..." at the start of the line is a mention of that name; all others have an "@". */
  lemma AddressMeans(msg: Text, agents: seq<Text>) returns (e: nat)
    ensures WordAt(msg, 0, e)
    ensures var ms := AllMentions(msg, agents);
            if && 0 < e < |msg| && (msg[e] == COLON || msg[e] == COMMA)
               && (SameName(msg[..e], ALL) || exists i | 0 <= i < |agents| :: SameName(msg[..e], agents[i]))
            then ms != [] && ms[0].at == 0 && ms[0].end == e && StandsFor(msg[..e], agents, ms[0].name)
            else forall m | m in ms :: m.at < |msg| && msg[m.at] == AT
  {
    e := WordEnd(msg, 0);
    WordEnds(msg, 0);
    NameStandsFor(msg[..e], agents);
    ScanFindsOnly(msg, 0, MAX_MENTIONS, agents);
  }
}
