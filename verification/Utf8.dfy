/** UTF-8 repair and truncation: `utf8_scrub` and `utf8_prefix` of src/util.c. */
module Utf8 {
  import opened Bytes

  const QUESTION: byte := 0x3F

  //
  // The grammar of section 4 of RFC 3629.
  //

  predicate Tail(b: byte) {
    0x80 <= b <= 0xBF
  }

  predicate IsChar(c: Text) {
    || (|c| == 1 && c[0] <= 0x7F)
    || (|c| == 2 && 0xC2 <= c[0] <= 0xDF && Tail(c[1]))
    || (|c| == 3 && c[0] == 0xE0 && 0xA0 <= c[1] <= 0xBF && Tail(c[2]))
    || (|c| == 3 && 0xE1 <= c[0] <= 0xEC && Tail(c[1]) && Tail(c[2]))
    || (|c| == 3 && c[0] == 0xED && 0x80 <= c[1] <= 0x9F && Tail(c[2]))
    || (|c| == 3 && 0xEE <= c[0] <= 0xEF && Tail(c[1]) && Tail(c[2]))
    || (|c| == 4 && c[0] == 0xF0 && 0x90 <= c[1] <= 0xBF && Tail(c[2]) && Tail(c[3]))
    || (|c| == 4 && 0xF1 <= c[0] <= 0xF3 && Tail(c[1]) && Tail(c[2]) && Tail(c[3]))
    || (|c| == 4 && c[0] == 0xF4 && 0x80 <= c[1] <= 0x8F && Tail(c[2]) && Tail(c[3]))
  }

  /** UTF8-octets: a concatenation of characters. */
  ghost predicate Valid(s: Text) {
    exists cs: seq<Text> :: (forall c | c in cs :: IsChar(c)) && Concat(cs) == s
  }

  //
  // Scanning character by character.
  //

  /** How many continuation bytes the first byte announces, -1 if it can start nothing. */
  function Announced(first: byte): int {
    if first < 0x80 then 0
    else if first < 0xC2 then -1
    else if first < 0xE0 then 1
    else if first < 0xF0 then 2
    else if first < 0xF5 then 3
    else -1
  }

  /** No overlong forms, surrogates or code points past U+10FFFF. */
  predicate SecondFits(first: byte, second: byte) {
    && !(first == 0xE0 && second < 0xA0) && !(first == 0xED && second > 0x9F)
    && !(first == 0xF0 && second < 0x90) && !(first == 0xF4 && second > 0x8F)
  }

  predicate StartsChar(s: Text) {
    && s != []
    && 0 <= Announced(s[0]) < |s|
    && (forall i | 1 <= i <= Announced(s[0]) :: Tail(s[i]))
    && (Announced(s[0]) >= 1 ==> SecondFits(s[0], s[1]))
  }

  /** The length of the character that `s` starts with, 0 when there is none. */
  function CharLen(s: Text): nat {
    if StartsChar(s) then Announced(s[0]) + 1 else 0
  }

  /** The byte tests decide the grammar: no character is a proper prefix of another. */
  lemma CharLenDecides(s: Text, k: nat)
    requires k <= |s|
    ensures IsChar(s[..k]) <==> k > 0 && CharLen(s) == k
  {
    var c := s[..k];
    assert |c| == k && forall i | 0 <= i < k :: c[i] == s[i];
  }

  predicate Scans(s: Text)
    decreases |s|
  {
    s == [] || (CharLen(s) > 0 && Scans(s[CharLen(s)..]))
  }

  lemma {:induction false} ConcatScans(cs: seq<Text>)
    requires forall c | c in cs :: IsChar(c)
    ensures Scans(Concat(cs))
  {
    if cs != [] {
      var s := Concat(cs);
      assert s[..|cs[0]|] == cs[0];
      CharLenDecides(s, |cs[0]|);
      assert s[|cs[0]|..] == Concat(cs[1..]);
      ConcatScans(cs[1..]);
    }
  }

  lemma {:induction false} ScansIsConcat(s: Text) returns (cs: seq<Text>)
    requires Scans(s)
    ensures (forall c | c in cs :: IsChar(c)) && Concat(cs) == s
    decreases |s|
  {
    if s == [] {
      cs := [];
    } else {
      var k := CharLen(s);
      CharLenDecides(s, k);
      var rest := ScansIsConcat(s[k..]);
      cs := [s[..k]] + rest;
      assert cs[1..] == rest && s[..k] + s[k..] == s;
    }
  }

  /** The left-to-right scan decides the grammar. */
  lemma ValidIffScans(s: Text)
    ensures Valid(s) <==> Scans(s)
  {
    if Valid(s) {
      var cs: seq<Text> :| (forall c | c in cs :: IsChar(c)) && Concat(cs) == s;
      ConcatScans(cs);
    }
    if Scans(s) {
      var cs := ScansIsConcat(s);
    }
  }

  //
  // Repair.
  //

  function Scrubbed(s: Text): (r: Text)
    ensures |r| == |s|
    decreases |s|
  {
    if s == [] then []
    else if CharLen(s) == 0 then [QUESTION] + Scrubbed(s[1..])
    else s[..CharLen(s)] + Scrubbed(s[CharLen(s)..])
  }

  lemma {:induction false} ScrubbedScans(s: Text)
    ensures Scans(Scrubbed(s))
    decreases |s|
  {
    if s != [] {
      var k := if CharLen(s) == 0 then 1 else CharLen(s);
      var r := Scrubbed(s);
      ScrubbedScans(s[k..]);
      assert r[..k] == (if CharLen(s) == 0 then [QUESTION] else s[..k]);
      CharLenDecides(r, k);
      assert r[k..] == Scrubbed(s[k..]);
    }
  }

  lemma {:induction false} ScrubbedIdentity(s: Text)
    requires Scans(s)
    ensures Scrubbed(s) == s
    decreases |s|
  {
    if s != [] {
      ScrubbedIdentity(s[CharLen(s)..]);
    }
  }

  /** Every byte is kept or becomes '?', and no ASCII byte changes. */
  lemma {:induction false} ScrubbedBytes(s: Text, i: nat)
    requires i < |s|
    ensures Scrubbed(s)[i] == s[i] || (Scrubbed(s)[i] == QUESTION && s[i] >= 0x80)
    decreases |s|
  {
    var k := if CharLen(s) == 0 then 1 else CharLen(s);
    if k <= i {
      ScrubbedBytes(s[k..], i - k);
    } else if CharLen(s) == 0 {
      assert s[..1][0] == s[0];
    }
  }

  /** The repair is valid, changes valid text nowhere, and is idempotent. */
  lemma ScrubRepairs(s: Text)
    ensures Valid(Scrubbed(s))
    ensures Valid(s) <==> Scrubbed(s) == s
    ensures Scrubbed(Scrubbed(s)) == Scrubbed(s)
    ensures forall i | 0 <= i < |s| ::
              Scrubbed(s)[i] == s[i] || (Scrubbed(s)[i] == QUESTION && s[i] >= 0x80)
  {
    ScrubbedScans(s);
    ValidIffScans(Scrubbed(s));
    ValidIffScans(s);
    if Scans(s) {
      ScrubbedIdentity(s);
    }
    ScrubbedIdentity(Scrubbed(s));
    forall i | 0 <= i < |s|
      ensures Scrubbed(s)[i] == s[i] || (Scrubbed(s)[i] == QUESTION && s[i] >= 0x80)
    {
      ScrubbedBytes(s, i);
    }
  }

  /** The tests on the sequence at `p`: whether it is a character, and its announced length. */
  method Test(a: array<byte>, p: nat, ghost rest: Text, ghost tail: Text) returns (ok: bool, n: int)
    requires p <= a.Length && a[..][p..] == rest + tail
    requires rest != [] && tail != [] && tail[0] == 0
    ensures ok <==> CharLen(rest) > 0
    ensures ok ==> CharLen(rest) == n + 1
  {
    assert forall i: nat | i <= |rest| :: a[p + i] == a[..][p..][i] == (rest + tail)[i];
    n := Announced(a[p]);
    ok := n >= 0;
    var i := 1;
    while ok && i <= n
      invariant 1 <= i
      invariant n >= 0 ==> i <= n + 1
      invariant ok ==> n >= 0 && i <= |rest| && forall j | 1 <= j < i :: Tail(rest[j])
      invariant !ok && n >= 0 ==> |rest| <= n || exists j :: 1 <= j <= n && !Tail(rest[j])
    {
      assert i <= |rest|;  // never past the terminator
      ok := Tail(a[p + i]);
      i := i + 1;
    }
    if ok && n == 2 {
      ok := !(a[p] == 0xE0 && a[p + 1] < 0xA0) && !(a[p] == 0xED && a[p + 1] > 0x9F);
    }
    if ok && n == 3 {
      ok := !(a[p] == 0xF0 && a[p + 1] < 0x90) && !(a[p] == 0xF4 && a[p + 1] > 0x8F);
    }
  }

  /** Replacing the unit at `p` moves the boundary between what is done and what is left. */
  lemma Shift(all: Text, p: nat, rest: Text, tail: Text, unit: Text, fixed: Text, all': Text)
    requires p + |unit| <= |all| && |unit| <= |rest|
    requires all[p..] == rest + tail
    requires all' == all[..p] + unit + all[p + |unit|..]
    ensures all'[p + |unit|..] == rest[|unit|..] + tail
    ensures all'[..p + |unit|] + fixed == all[..p] + (unit + fixed)
  {
    assert all[p + |unit|..] == all[p..][|unit|..];
  }

  /** One iteration: the unit at `p` is replaced, and `p` moves behind it. */
  method ScrubOne(a: array<byte>, p: nat, ghost rest: Text, ghost tail: Text)
    returns (p': nat, ghost unit: Text)
    requires p <= a.Length && a[..][p..] == rest + tail
    requires rest != [] && tail != [] && tail[0] == 0
    modifies a
    ensures p' == p + |unit| && 0 < |unit| <= |rest|
    ensures a[..] == old(a[..])[..p] + unit + old(a[..])[p'..]
    ensures Scrubbed(rest) == unit + Scrubbed(rest[|unit|..])
  {
    ghost var all := a[..];
    var ok, n := Test(a, p, rest, tail);
    if !ok {
      a[p] := QUESTION;
      p', unit := p + 1, [QUESTION];
    } else {
      p', unit := p + n + 1, rest[..n + 1];
      assert all == all[..p] + all[p..] && all[p..] == unit + all[p'..];
    }
  }

  /** The buffer holds the C string `s`; `tail` starts with its terminator. */
  method Scrub(a: array<byte>, ghost s: Text, ghost tail: Text)
    requires a[..] == s + tail && tail != [] && tail[0] == 0
    requires forall i | 0 <= i < |s| :: s[i] != 0
    modifies a
    ensures a[..] == Scrubbed(s) + tail
  {
    var p: nat := 0;
    ghost var rest, fixed, total := s, Scrubbed(s), Scrubbed(s);
    while a[p] != 0
      invariant p < a.Length && a[..][p..] == rest + tail
      invariant forall i | 0 <= i < |rest| :: rest[i] != 0
      invariant fixed == Scrubbed(rest) && a[..][..p] + fixed == total
      decreases |rest|
    {
      ghost var all, q, was := a[..], p, rest;
      assert a[p] == (rest + tail)[0];
      ghost var unit;
      p, unit := ScrubOne(a, p, rest, tail);
      rest, fixed := rest[|unit|..], Scrubbed(rest[|unit|..]);
      Shift(all, q, was, tail, unit, fixed, a[..]);
    }
    assert a[p] == (rest + tail)[0];
    assert a[..] == a[..][..p] + a[..][p..];
  }

  //
  // Truncation.
  //

  /** Back from `n` to the first byte that does not continue a sequence. */
  function BackUp(s: Text, n: nat): (k: nat)
    requires n <= |s|
    ensures k <= n
    ensures k == 0 || !Tail(At(s, k))
    ensures forall j | k < j <= n :: Tail(At(s, j))
  {
    if n > 0 && Tail(At(s, n)) then BackUp(s, n - 1) else n
  }

  function PrefixLen(s: Text, max: nat): (n: nat)
    ensures n <= max && n <= |s|
  {
    if |s| < max then |s| else BackUp(s, max)
  }

  /** In valid text, exactly the bytes that are no continuation start a character. */
  lemma {:induction false} CutIsValid(s: Text, n: nat)
    requires Scans(s) && n <= |s|
    ensures Scans(s[..n]) <==> n == 0 || !Tail(At(s, n))
    decreases |s|
  {
    if n > 0 {
      var k := CharLen(s);
      var c := s[..k];
      assert forall i | 0 <= i < k :: c[i] == s[i];
      if n < k {
        assert Tail(s[n]);
        var j := CharLen(s[..n]);
        assert s[..n][..j] == s[..j];
        if j > 0 {
          CharLenDecides(s, j);
        }
      } else {
        assert s[..n][..k] == s[..k];
        CharLenDecides(s[..n], k);
        assert s[..n][k..] == s[k..][..n - k];
        CutIsValid(s[k..], n - k);
        if n == k && n < |s| {
          assert s[k..][..CharLen(s[k..])][0] == s[k];
        }
      }
    }
  }

  /** On valid text `utf8_prefix` is the longest valid prefix within the bound. */
  lemma PrefixLongest(s: Text, max: nat)
    requires Valid(s)
    ensures Valid(s[..PrefixLen(s, max)])
    ensures forall m | 0 <= m <= max && m <= |s| && Valid(s[..m]) :: m <= PrefixLen(s, max)
  {
    ValidIffScans(s);
    var n := PrefixLen(s, max);
    CutIsValid(s, n);
    ValidIffScans(s[..n]);
    forall m | 0 <= m <= max && m <= |s| && Valid(s[..m])
      ensures m <= n
    {
      ValidIffScans(s[..m]);
      CutIsValid(s, m);
    }
  }

  /** strnlen, then the backwards loop. */
  method Prefix(s: Text, max: nat) returns (n: nat)
    requires 0 !in s
    ensures n == PrefixLen(s, max)
  {
    n := Min(|s|, max);
    if n == max {
      while n > 0 && Tail(At(s, n))
        invariant n <= |s|
        invariant BackUp(s, n) == BackUp(s, max)
      {
        n := n - 1;
      }
    }
  }
}
