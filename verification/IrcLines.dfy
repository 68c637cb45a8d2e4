/** Reassembling lines from a byte stream: `irc_poll` of src/irc.c. */
module IrcLines {
  import opened Bytes

  const READBUF: nat := 4096  // irc_t.readbuf
  const READ: nat := 2048     // the most one read returns

  //
  // Splitting a whole stream.
  //

  /** The offset of the first newline, or -1. */
  function FindLf(s: Text): (e: int)
    ensures -1 <= e < |s|
  {
    if s == [] then -1
    else if s[0] == LF then 0
    else
      var e := FindLf(s[1..]);
      if e < 0 then -1 else e + 1
  }

  function StripCr(raw: Text): Text {
    if raw != [] && raw[|raw| - 1] == CR then raw[..|raw| - 1] else raw
  }

  /** What a C string function sees of `s`. */
  function UpToNul(s: Text): Text {
    if s == [] || s[0] == 0 then [] else [s[0]] + UpToNul(s[1..])
  }

  /** The line handed over for the bytes before a newline, if any: blank lines are skipped. */
  function Handed(raw: Text): seq<Text> {
    var line := UpToNul(StripCr(raw));
    if line == [] then [] else [line]
  }

  function HandedAll(raws: seq<Text>): seq<Text> {
    if raws == [] then [] else HandedAll(raws[..|raws| - 1]) + Handed(raws[|raws| - 1])
  }

  lemma {:induction false} HandedAllConcat(a: seq<Text>, b: seq<Text>)
    ensures HandedAll(a + b) == HandedAll(a) + HandedAll(b)
  {
    if b == [] {
      assert a + b == a;
    } else {
      assert (a + b)[..|a + b| - 1] == a + b[..|b| - 1];
      HandedAllConcat(a, b[..|b| - 1]);
    }
  }

  /** The stretches before each newline. */
  function Raw(s: Text): seq<Text>
    decreases |s|
  {
    var e := FindLf(s);
    if e < 0 then [] else [s[..e]] + Raw(s[e + 1..])
  }

  function Lines(s: Text): seq<Text> {
    HandedAll(Raw(s))
  }

  /** What follows the last newline. */
  function Rest(s: Text): (r: Text)
    ensures |r| <= |s| && FindLf(r) < 0
    decreases |s|
  {
    var e := FindLf(s);
    if e < 0 then s else Rest(s[e + 1..])
  }

  lemma {:induction false} FindLfConcat(a: Text, b: Text)
    ensures FindLf(a) >= 0 ==> FindLf(a + b) == FindLf(a)
    ensures FindLf(a) < 0 ==> FindLf(a + b) == (if FindLf(b) < 0 then -1 else |a| + FindLf(b))
  {
    if a == [] {
      assert a + b == b;
    } else {
      assert (a + b)[1..] == a[1..] + b;
      FindLfConcat(a[1..], b);
    }
  }

  lemma FirstLine(a: Text, b: Text)
    requires FindLf(a) >= 0
    ensures var e := FindLf(a);
            && FindLf(a + b) == e
            && (a + b)[..e] == a[..e]
            && (a + b)[e + 1..] == a[e + 1..] + b
  {
    FindLfConcat(a, b);
  }

  lemma {:induction false} RawConcat(a: Text, b: Text)
    ensures Raw(a + b) == Raw(a) + Raw(Rest(a) + b)
    decreases |a|
  {
    var e := FindLf(a);
    if e >= 0 {
      var rest := a[e + 1..];
      FirstLine(a, b);
      assert Raw(a + b) == [a[..e]] + Raw(rest + b);
      assert Raw(a) == [a[..e]] + Raw(rest) && Rest(a) == Rest(rest);
      RawConcat(rest, b);
    }
  }

  lemma {:induction false} RestConcat(a: Text, b: Text)
    ensures Rest(a + b) == Rest(Rest(a) + b)
    decreases |a|
  {
    if FindLf(a) >= 0 {
      FirstLine(a, b);
      RestConcat(a[FindLf(a) + 1..], b);
    }
  }

  /** Splitting in two steps, with the unfinished line carried over, loses nothing. */
  lemma LinesConcat(a: Text, b: Text)
    ensures Lines(a + b) == Lines(a) + Lines(Rest(a) + b)
    ensures Rest(a + b) == Rest(Rest(a) + b)
  {
    RawConcat(a, b);
    RestConcat(a, b);
    HandedAllConcat(Raw(a), Raw(Rest(a) + b));
  }

  //
  // Reads of any size, through the buffer.
  //

  /** One read: what is left in the buffer, and the lines handed over. */
  function Feed(buf: Text, read: Text): (Text, seq<Text>) {
    var kept := if |read| > READBUF - |buf| - 1 then [] else buf;
    (Rest(kept + read), Lines(kept + read))
  }

  function FeedAll(buf: Text, parts: seq<Text>): seq<Text>
    decreases |parts|
  {
    if parts == [] then []
    else Feed(buf, parts[0]).1 + FeedAll(Feed(buf, parts[0]).0, parts[1..])
  }

  /** Every complete line, newline included, has at most 2048 bytes. */
  predicate ShortLines(s: Text)
    decreases |s|
  {
    FindLf(s) >= 0 ==> FindLf(s) < READ && ShortLines(s[FindLf(s) + 1..])
  }

  lemma {:induction false} ShortLinesRest(a: Text, b: Text)
    requires ShortLines(a + b)
    ensures ShortLines(Rest(a) + b)
    decreases |a|
  {
    var e := FindLf(a);
    if e >= 0 {
      FirstLine(a, b);
      ShortLinesRest(a[e + 1..], b);
    }
  }

  lemma {:induction false} NoNewlineNoLines(buf: Text, parts: seq<Text>)
    requires FindLf(buf) < 0 && FindLf(Concat(parts)) < 0
    ensures FeedAll(buf, parts) == []
    decreases |parts|
  {
    if parts != [] {
      var r := parts[0];
      FindLfConcat(r, Concat(parts[1..]));
      FindLfConcat(buf, r);
      FindLfConcat([], r);
      assert [] + r == r;
      NoNewlineNoLines(Feed(buf, r).0, parts[1..]);
    }
  }

  lemma {:induction false} FeedFrom(buf: Text, parts: seq<Text>)
    requires FindLf(buf) < 0
    requires forall i | 0 <= i < |parts| :: |parts[i]| <= READ
    requires ShortLines(buf + Concat(parts))
    ensures FeedAll(buf, parts) == Lines(buf + Concat(parts))
    decreases |parts|
  {
    var whole := buf + Concat(parts);
    if parts == [] {
      assert whole == buf;
    } else {
      var r, later := parts[0], Concat(parts[1..]);
      if |r| > READBUF - |buf| - 1 {
        // the buffered line can only be one that never ends
        FindLfConcat(buf, Concat(parts));
        NoNewlineNoLines(buf, parts);
      } else {
        assert whole == (buf + r) + later;
        LinesConcat(buf + r, later);
        ShortLinesRest(buf + r, later);
        FeedFrom(Rest(buf + r), parts[1..]);
      }
    }
  }

  /** However the stream is cut into reads, the lines are those of the whole stream. */
  lemma AnySplitSameLines(parts: seq<Text>)
    requires forall i | 0 <= i < |parts| :: 1 <= |parts[i]| <= READ
    requires ShortLines(Concat(parts))
    ensures FeedAll([], parts) == Lines(Concat(parts))
  {
    assert [] + Concat(parts) == Concat(parts);
    FeedFrom([], parts);
  }

  //
  // In place.
  //

  class Link {
    const readbuf: array<byte>
    var readbufLen: nat

    ghost predicate Valid()
      reads this
    {
      readbuf.Length == READBUF && readbufLen < READBUF
    }

    ghost function Buffered(): Text
      requires Valid()
      reads this, readbuf
    {
      readbuf[..][..readbufLen]
    }

    constructor ()
      ensures Valid() && Buffered() == []
    {
      readbuf := new byte[READBUF];
      readbufLen := 0;
    }

    /** Terminates the line that ends `eol` bytes after `start` and hands it over. */
    method HandLine(start: nat, eol: nat, ghost end: nat, ghost rest: Text) returns (lines: seq<Text>)
      requires start + eol < end <= readbuf.Length && readbuf[..][start..end] == rest
      modifies readbuf
      ensures lines == Handed(rest[..eol])
      ensures readbuf[..][start + eol + 1..end] == rest[eol + 1..]
    {
      ghost var all, raw, at := readbuf[..], rest[..eol], start + eol;
      assert all[start..at] == raw;
      readbuf[start + eol] := 0;
      var cut := start + eol;
      if eol > 0 && readbuf[cut - 1] == CR {
        readbuf[cut - 1] := 0;
        cut := cut - 1;
      }
      assert readbuf[..][start..at + 1] == StripCr(raw) + readbuf[..][cut..at + 1];
      CutAtNul(StripCr(raw), readbuf[..][cut..at + 1]);
      var line := UpToNul(readbuf[..][start..start + eol + 1]);
      lines := if line == [] then [] else [line];
      assert readbuf[..][at + 1..] == all[at + 1..];
      NextLine(all, readbuf[..], start, eol, end, rest);
    }

    /** The loop over the lines in the buffer. */
    method HandLines(end: nat, ghost s: Text) returns (start: nat, lines: seq<Text>)
      requires end <= readbuf.Length && readbuf[..][..end] == s
      modifies readbuf
      ensures start <= end && readbuf[..][start..end] == Rest(s)
      ensures lines == Lines(s)
    {
      start, lines := 0, [];
      ghost var rest, raws := s, [];
      assert readbuf[..][0..end] == s;
      var eol := FindLf(readbuf[..][start..end]);
      while eol >= 0
        invariant start <= end && readbuf[..][start..end] == rest && eol == FindLf(rest)
        invariant Splits(s, raws, rest) && lines == HandedAll(raws)
        decreases end - start
      {
        var line := HandLine(start, eol, end, rest);
        SplitsMore(s, raws, rest, eol);
        start, lines := start + eol + 1, lines + line;
        raws, rest := raws + [rest[..eol]], rest[eol + 1..];
        eol := FindLf(readbuf[..][start..end]);
      }
      assert raws == Raw(s);
    }

    /** The read appended to the buffer, which is emptied first when it cannot take it. */
    method Append(read: Text) returns (end: nat)
      requires Valid() && |read| <= READ
      modifies this, readbuf
      ensures end < READBUF
      ensures readbuf[..][..end] == (if |read| > READBUF - old(readbufLen) - 1 then [] else old(Buffered())) + read
    {
      if |read| > readbuf.Length - readbufLen - 1 {
        readbufLen := 0;
      }
      var at := readbufLen;
      forall i | 0 <= i < |read| {
        readbuf[at + i] := read[i];
      }
      end := at + |read|;
    }

    /** memmove of the unfinished line to the front. */
    method MoveToFront(start: nat, n: nat)
      requires start + n <= readbuf.Length
      modifies readbuf
      ensures readbuf[..][..n] == old(readbuf[..])[start..start + n]
    {
      forall i | 0 <= i < n {
        readbuf[i] := readbuf[start + i];
      }
    }

    /** One read of at most 2048 bytes. */
    method Poll(read: Text) returns (lines: seq<Text>)
      requires Valid() && 1 <= |read| <= READ
      modifies this, readbuf
      ensures Valid()
      ensures (Buffered(), lines) == Feed(old(Buffered()), read)
    {
      ghost var fed := Feed(Buffered(), read);
      var end := Append(read);
      ghost var s := readbuf[..][..end];
      assert fed == (Rest(s), Lines(s));
      var start;
      start, lines := HandLines(end, s);
      readbufLen := end - start;
      MoveToFront(start, readbufLen);
      assert Buffered() == Rest(s);
    }
  }

  lemma HandedAllPush(raws: seq<Text>, raw: Text)
    ensures HandedAll(raws + [raw]) == HandedAll(raws) + Handed(raw)
  {
    assert (raws + [raw])[..|raws|] == raws;
  }

  lemma Regroup(raws: seq<Text>, raw: Text, later: seq<Text>)
    ensures (raws + [raw]) + later == raws + ([raw] + later)
  {
  }

  lemma {:induction false} RawStep(rest: Text)
    requires FindLf(rest) >= 0
    ensures Raw(rest) == [rest[..FindLf(rest)]] + Raw(rest[FindLf(rest) + 1..])
    ensures Rest(rest) == Rest(rest[FindLf(rest) + 1..])
  {
  }

  /** `raws` are the first stretches of `s`, `rest` is what follows. */
  predicate Splits(s: Text, raws: seq<Text>, rest: Text) {
    raws + Raw(rest) == Raw(s) && Rest(rest) == Rest(s)
  }

  lemma {:induction false} SplitsMore(s: Text, raws: seq<Text>, rest: Text, eol: nat)
    requires Splits(s, raws, rest) && FindLf(rest) == eol
    ensures Splits(s, raws + [rest[..eol]], rest[eol + 1..])
    ensures HandedAll(raws + [rest[..eol]]) == HandedAll(raws) + Handed(rest[..eol])
  {
    HandedAllPush(raws, rest[..eol]);
    RawStep(rest);
    Regroup(raws, rest[..eol], Raw(rest[eol + 1..]));
  }

  lemma NextLine(all: Text, all': Text, start: nat, eol: nat, end: nat, rest: Text)
    requires start + eol < end <= |all| == |all'| && all[start..end] == rest
    requires all'[start + eol + 1..] == all[start + eol + 1..]
    ensures all[start..start + eol] == rest[..eol]
    ensures all'[start + eol + 1..end] == rest[eol + 1..]
  {
    assert all'[start + eol + 1..end] == all'[start + eol + 1..][..end - start - eol - 1];
  }

  lemma {:induction false} CutAtNul(s: Text, t: Text)
    requires t != [] && t[0] == 0
    ensures UpToNul(s + t) == UpToNul(s)
  {
    if s == [] {
      assert s + t == t;
    } else {
      assert (s + t)[1..] == s[1..] + t;
      CutAtNul(s[1..], t);
    }
  }

  //
  // Lines as they are sent.
  //

  /** Neither empty nor with a byte that ends a line or a string. */
  predicate PlainLine(l: Text) {
    l != [] && forall i | 0 <= i < |l| :: l[i] != LF && l[i] != CR && l[i] != 0
  }

  /** The lines with their ends: CRLF where `crlf` says so, else LF. */
  function Sent(ls: seq<Text>, crlf: seq<bool>): Text
    requires |ls| == |crlf|
  {
    if ls == [] then [] else ls[0] + (if crlf[0] then [CR, LF] else [LF]) + Sent(ls[1..], crlf[1..])
  }

  lemma {:induction false} FindLfAfter(l: Text, rest: Text)
    requires forall i | 0 <= i < |l| :: l[i] != LF
    ensures FindLf(l + [LF] + rest) == |l|
  {
    var s := l + [LF] + rest;
    if l != [] {
      assert s[1..] == l[1..] + [LF] + rest;
      FindLfAfter(l[1..], rest);
    }
  }

  lemma {:induction false} NoNul(l: Text)
    requires forall i | 0 <= i < |l| :: l[i] != 0
    ensures UpToNul(l) == l
  {
    if l != [] {
      NoNul(l[1..]);
    }
  }

  lemma {:induction false} HandedPlain(l: Text)
    requires PlainLine(l)
    ensures Handed(l) == [l] && Handed(l + [CR]) == [l]
  {
    assert (l + [CR])[..|l|] == l;
    NoNul(l);
  }

  lemma {:induction false} FirstLineOut(l: Text, crlf: bool, rest: Text)
    requires PlainLine(l)
    ensures var s := l + (if crlf then [CR, LF] else [LF]) + rest;
            Lines(s) == [l] + Lines(rest) && Rest(s) == Rest(rest)
  {
    var raw := if crlf then l + [CR] else l;
    var s := l + (if crlf then [CR, LF] else [LF]) + rest;
    assert s == raw + [LF] + rest;
    FindLfAfter(raw, rest);
    assert s[..|raw|] == raw && s[|raw| + 1..] == rest;
    RawStep(s);
    HandedAllConcat([raw], Raw(rest));
    HandedPlain(l);
    HandedOne(raw);
  }

  lemma {:induction false} HandedOne(raw: Text)
    ensures HandedAll([raw]) == Handed(raw)
  {
    assert [raw][..0] == [];
  }

  /** Every stream of lines that end in LF or CRLF comes out as these lines. */
  lemma {:induction false} SentLinesComeOut(ls: seq<Text>, crlf: seq<bool>)
    requires |ls| == |crlf| && forall i | 0 <= i < |ls| :: PlainLine(ls[i])
    ensures Lines(Sent(ls, crlf)) == ls && Rest(Sent(ls, crlf)) == []
  {
    if ls != [] {
      SentLinesComeOut(ls[1..], crlf[1..]);
      FirstLineOut(ls[0], crlf[0], Sent(ls[1..], crlf[1..]));
    }
  }

  /** Whatever reads they arrive in. */
  lemma SentLinesArrive(ls: seq<Text>, crlf: seq<bool>, parts: seq<Text>)
    requires |ls| == |crlf| && forall i | 0 <= i < |ls| :: PlainLine(ls[i])
    requires Concat(parts) == Sent(ls, crlf) && ShortLines(Concat(parts))
    requires forall i | 0 <= i < |parts| :: 1 <= |parts[i]| <= READ
    ensures FeedAll([], parts) == ls
  {
    SentLinesComeOut(ls, crlf);
    AnySplitSameLines(parts);
  }

  lemma {:induction false} NulEnds(l: Text, after: Text)
    requires forall i | 0 <= i < |l| :: l[i] != 0
    ensures UpToNul(l + [0] + after) == l
  {
    if l != [] {
      assert (l + [0] + after)[1..] == l[1..] + [0] + after;
      NulEnds(l[1..], after);
    }
  }

  lemma HandedToNul(l: Text, after: Text)
    requires forall i | 0 <= i < |l| :: l[i] != 0
    ensures Handed(l + [0] + after) == if l == [] then [] else [l]
  {
    var raw := l + [0] + after;
    if after != [] && after[|after| - 1] == CR {
      assert StripCr(raw) == l + [0] + after[..|after| - 1];
      NulEnds(l, after[..|after| - 1]);
    } else {
      assert raw[|raw| - 1] == if after == [] then 0 else after[|after| - 1];
      NulEnds(l, after);
    }
  }

  /** A line with a NUL in it is handed over up to the NUL, and not at all if nothing is left. */
  lemma NulEndsLine(l: Text, after: Text, rest: Text)
    requires l == [] || PlainLine(l)
    requires forall i | 0 <= i < |after| :: after[i] != LF
    ensures Lines(l + [0] + after + [LF] + rest) == (if l == [] then [] else [l]) + Lines(rest)
  {
    var raw := l + [0] + after;
    var s := raw + [LF] + rest;
    FindLfAfter(raw, rest);
    assert s[..|raw|] == raw && s[|raw| + 1..] == rest;
    RawStep(s);
    HandedAllConcat([raw], Raw(rest));
    HandedOne(raw);
    HandedToNul(l, after);
  }
}
