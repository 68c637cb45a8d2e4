/** Decoding a chunked HTTP body in place: `http_dechunk` of src/http.c. */
module Dechunk {
  import opened Bytes

  const ULONG_MAX: nat := 0xFFFF_FFFF_FFFF_FFFF
  const CRLF: Text := [CR, LF]

  //
  // The C library calls.
  //

  predicate IsHex(b: byte) {
    0x30 <= b <= 0x39 || 0x41 <= b <= 0x46 || 0x61 <= b <= 0x66
  }

  function HexDigit(b: byte): nat
    requires IsHex(b)
  {
    if b <= 0x39 then b as nat - 0x30 else if b <= 0x46 then b as nat - 0x41 + 10 else b as nat - 0x61 + 10
  }

  predicate AllHex(s: Text) {
    forall i | 0 <= i < |s| :: IsHex(s[i])
  }

  function HexValue(digits: Text): nat
    requires AllHex(digits)
  {
    if digits == [] then 0
    else 16 * HexValue(digits[..|digits| - 1]) + HexDigit(digits[|digits| - 1])
  }

  function HexLen(s: Text): (k: nat)
    ensures k <= |s| && AllHex(s[..k])
  {
    if s == [] || !IsHex(s[0]) then 0
    else
      var k := HexLen(s[1..]);
      assert s[..k + 1] == [s[0]] + s[1..][..k];
      k + 1
  }

  function SkipSpaces(s: Text): (t: Text)
    ensures |t| <= |s|
  {
    if s != [] && (s[0] == 32 || 9 <= s[0] <= 13) then SkipSpaces(s[1..]) else s
  }

  /** strtoul(s, NULL, 16): spaces, a sign, "0x", then digits; overflow saturates. */
  function Strtoul16(s: Text): (n: nat)
    ensures n <= ULONG_MAX
  {
    var t := SkipSpaces(s);
    var minus := t != [] && t[0] == 0x2D;
    var u := if t != [] && (minus || t[0] == 0x2B) then t[1..] else t;
    var v := if |u| >= 2 && u[0] == 0x30 && (u[1] == 0x78 || u[1] == 0x58) then u[2..] else u;
    var value := HexValue(v[..HexLen(v)]);
    if value > ULONG_MAX then ULONG_MAX
    else if minus && value > 0 then ULONG_MAX + 1 - value
    else value
  }

  /** memmem(s, "\r\n"): the offset of the first CRLF, or -1. */
  function FindCrlf(s: Text): (e: int)
    ensures -1 <= e && (e >= 0 ==> e + 2 <= |s|)
  {
    if |s| < 2 then -1
    else if s[0] == CR && s[1] == LF then 0
    else
      var e := FindCrlf(s[1..]);
      if e < 0 then -1 else e + 1
  }

  //
  // The decoder, on a text that is not overwritten.
  //

  function AfterCrlf(s: Text): (t: Text)
    ensures |t| <= |s|
  {
    if |s| >= 2 && s[0] == CR && s[1] == LF then s[2..] else s
  }

  /** `num` reads the number at the start of a text, as `strtoul` does. */
  function Decode(s: Text, num: Text -> nat): (r: Text)
    ensures |r| <= |s|
    decreases |s|
  {
    var e := FindCrlf(s);
    if e < 0 || num(s) == 0 then []
    else
      var rest := s[e + 2..];
      var k := Min(num(s), |rest|);
      rest[..k] + Decode(AfterCrlf(rest[k..]), num)
  }

  /** A size beyond the data yields the data. */
  lemma OversizeIsClamped(s: Text, num: Text -> nat)
    requires FindCrlf(s) >= 0 && num(s) >= |s| - FindCrlf(s) - 2 && num(s) > 0
    ensures Decode(s, num) == s[FindCrlf(s) + 2..]
  {
    var rest := s[FindCrlf(s) + 2..];
    assert rest[..|rest|] == rest && AfterCrlf(rest[|rest|..]) == [] && Decode([], num) == [];
  }

  //
  // The chunked coding of section 7.1 of RFC 9112.
  //

  /** A chunk with the size field and the extensions as they were sent. */
  datatype Chunk = Chunk(size: Text, ext: Text, data: Text)

  /** Extensions start with ";" or white space and hold no control characters. */
  predicate IsExt(ext: Text) {
    && (ext != [] ==> ext[0] in {0x3B, 32, 9})
    && CR !in ext
  }

  predicate WellFormed(c: Chunk) {
    && c.data != []
    && c.size != [] && AllHex(c.size) && HexValue(c.size) == |c.data|
    && IsExt(c.ext)
  }

  function Line(size: Text, ext: Text): Text {
    size + ext + CRLF
  }

  function EncodeChunks(cs: seq<Chunk>, last: Text): Text {
    if cs == [] then last
    else Line(cs[0].size, cs[0].ext) + (cs[0].data + (CRLF + EncodeChunks(cs[1..], last)))
  }

  function Payload(cs: seq<Chunk>): Text {
    if cs == [] then [] else cs[0].data + Payload(cs[1..])
  }

  lemma {:induction false} FindCrlfAt(s: Text, rest: Text)
    requires CR !in s
    ensures FindCrlf(s + CRLF + rest) == |s|
  {
    var t := s + CRLF + rest;
    if s == [] {
      assert t == CRLF + rest;
    } else {
      assert t[0] == s[0] && t[1..] == s[1..] + CRLF + rest;
      FindCrlfAt(s[1..], rest);
    }
  }

  lemma {:induction false} HexLenAt(digits: Text, rest: Text)
    requires AllHex(digits)
    requires rest != [] && !IsHex(rest[0])
    ensures HexLen(digits + rest) == |digits|
  {
    var t := digits + rest;
    if digits == [] {
      assert t == rest;
    } else {
      assert t[0] == digits[0] && t[1..] == digits[1..] + rest;
      HexLenAt(digits[1..], rest);
    }
  }

  /** What a caller may expect of `num`: a hexadecimal number up to a byte that ends it. */
  ghost predicate ReadsHex(num: Text -> nat) {
    forall size: Text, after: Text ::
      Terminates(size, after) ==> num(size + after) == HexValue(size)
  }

  ghost predicate Terminates(size: Text, after: Text) {
    && size != [] && AllHex(size) && HexValue(size) <= ULONG_MAX
    && after != [] && after[0] in {0x3B, 32, 9, CR}
  }

  lemma Strtoul16ReadsHex()
    ensures ReadsHex(Strtoul16)
  {
    forall size: Text, after: Text | Terminates(size, after)
      ensures Strtoul16(size + after) == HexValue(size)
    {
      var s := size + after;
      HexLenAt(size, after);
      assert s[..|size|] == size;
      assert IsHex(s[0]) && SkipSpaces(s) == s;
      assert s[1] == if |size| > 1 then size[1] else after[0];
    }
  }

  /** A chunk line is found whole, and its size field is read back. */
  lemma LineSize(size: Text, ext: Text, rest: Text, num: Text -> nat)
    requires ReadsHex(num) && size != [] && AllHex(size) && HexValue(size) <= ULONG_MAX
    requires IsExt(ext)
    ensures num(Line(size, ext) + rest) == HexValue(size)
    ensures FindCrlf(Line(size, ext) + rest) == |size| + |ext|
  {
    var after := ext + CRLF + rest;
    assert Line(size, ext) + rest == size + after;
    assert Terminates(size, after);
    assert Line(size, ext) + rest == (size + ext) + CRLF + rest;
    FindCrlfAt(size + ext, rest);
  }

  /** One chunk at the start of the text. */
  lemma DecodeOne(c: Chunk, next: Text, num: Text -> nat)
    requires ReadsHex(num) && WellFormed(c) && |c.data| <= ULONG_MAX
    ensures Decode(Line(c.size, c.ext) + (c.data + (CRLF + next)), num) == c.data + Decode(next, num)
  {
    var body := c.data + (CRLF + next);
    var s := Line(c.size, c.ext) + body;
    LineSize(c.size, c.ext, body, num);
    assert s[|c.size| + |c.ext| + 2..] == body;
    assert body[..|c.data|] == c.data && body[|c.data|..] == CRLF + next;
    assert AfterCrlf(CRLF + next) == next;
  }

  /** Decoding inverts every chunked encoding, whatever follows the last chunk. */
  lemma {:induction false} DecodeInvertsEncode(cs: seq<Chunk>, zeros: Text, ext: Text, trailer: Text, num: Text -> nat)
    requires ReadsHex(num) && forall i | 0 <= i < |cs| :: WellFormed(cs[i]) && |cs[i].data| <= ULONG_MAX
    requires zeros != [] && (forall i | 0 <= i < |zeros| :: zeros[i] == 0x30) && IsExt(ext)
    ensures Decode(EncodeChunks(cs, Line(zeros, ext) + trailer), num) == Payload(cs)
    decreases |cs|
  {
    var last := Line(zeros, ext) + trailer;
    if cs == [] {
      ZerosValue(zeros);
      LineSize(zeros, ext, trailer, num);
    } else {
      DecodeOne(cs[0], EncodeChunks(cs[1..], last), num);
      DecodeInvertsEncode(cs[1..], zeros, ext, trailer, num);
    }
  }

  lemma {:induction false} ZerosValue(zeros: Text)
    requires forall i | 0 <= i < |zeros| :: zeros[i] == 0x30
    ensures HexValue(zeros) == 0
  {
    if zeros != [] {
      ZerosValue(zeros[..|zeros| - 1]);
    }
  }

  //
  // The encoding a plain sender produces: lower-case sizes, no extensions.
  //

  function HexText(n: nat): (digits: Text)
    ensures AllHex(digits) && HexValue(digits) == n
    ensures n > 0 ==> digits != []
  {
    if n == 0 then []
    else
      var d := n % 16;
      var digits := HexText(n / 16) + [(if d < 10 then 0x30 + d else 0x61 + d - 10) as byte];
      assert digits[..|digits| - 1] == HexText(n / 16);
      digits
  }

  function Plain(datas: seq<Text>): (cs: seq<Chunk>)
    ensures |cs| == |datas|
  {
    seq(|datas|, i requires 0 <= i < |datas| => Chunk(HexText(|datas[i]|), [], datas[i]))
  }

  lemma {:induction false} PayloadOfPlain(datas: seq<Text>)
    ensures Payload(Plain(datas)) == Concat(datas)
  {
    if datas != [] {
      assert Plain(datas)[1..] == Plain(datas[1..]);
      PayloadOfPlain(datas[1..]);
    }
  }

  lemma PlainRoundTrip(datas: seq<Text>)
    requires forall i | 0 <= i < |datas| :: 0 < |datas[i]| <= ULONG_MAX
    ensures Decode(EncodeChunks(Plain(datas), [0x30] + CRLF + CRLF), Strtoul16) == Concat(datas)
  {
    assert Line([0x30], []) + CRLF == [0x30] + CRLF + CRLF;
    Strtoul16ReadsHex();
    DecodeInvertsEncode(Plain(datas), [0x30], [], CRLF, Strtoul16);
    PayloadOfPlain(datas);
  }

  //
  // In place.
  //

  lemma Slice(all: Text, p: nat, rest: Text, tail: Text, k: nat)
    requires p <= |all| && all[p..] == rest + tail && k <= |rest|
    ensures p + |rest| <= |all| && all[p..p + |rest|] == rest
    ensures all[p + k..] == rest[k..] + tail
  {
    assert all[p + k..] == all[p..][k..];
    assert all[p..p + |rest|] == all[p..][..|rest|];
  }

  /** Copying `k` bytes down from `p` to `out` leaves what is still to be read. */
  lemma MoveKeeps(all: Text, p: nat, out: nat, k: nat, rest: Text, tail: Text, fixed: Text, all': Text)
    requires out <= p && k <= |rest| && p <= |all| && all[p..] == rest + tail
    requires p + k <= |all| && all' == all[..out] + all[p..p + k] + all[out + k..]
    ensures all'[p + k..] == rest[k..] + tail
    ensures all'[..out + k] + fixed == all[..out] + (rest[..k] + fixed)
  {
    Slice(all, p, rest, tail, k);
    assert all[p..p + k] == rest[..k];
    assert all'[p + k..] == all[p + k..];
  }

  /** memmove to a lower or equal address. */
  method Move(a: array<byte>, out: nat, p: nat, k: nat)
    requires out <= p && p + k <= a.Length
    modifies a
    ensures a[..] == old(a[..])[..out] + old(a[..])[p..p + k] + old(a[..])[out + k..]
  {
    forall i | 0 <= i < k {
      a[out + i] := a[p + i];
    }
  }

  /** The first chunk of a text with a size line. */
  lemma DecodeFirst(s: Text, num: Text -> nat, e: nat, data: Text, chunk: nat)
    requires FindCrlf(s) == e && num(s) != 0 && data == s[e + 2..] && chunk == Min(num(s), |data|)
    ensures Decode(s, num) == data[..chunk] + Decode(AfterCrlf(data[chunk..]), num)
  {
  }

  /** The size line at `p`; -1 stands for a missing one. */
  method SizeLine(a: array<byte>, p: nat, len: nat, num: Text -> nat, ghost rest: Text, ghost tail: Text)
    returns (e: int, size: nat)
    requires p < len < a.Length && |rest| == len - p && a[..][p..] == rest + tail
    ensures e == FindCrlf(rest) && size == num(rest)
  {
    Slice(a[..], p, rest, tail, 0);
    var s := a[..][p..len];
    e, size := FindCrlf(s), num(s);
  }

  /** One iteration up to the copy: where the data of the chunk starts, and its clamped size. */
  method ReadSize(a: array<byte>, p: nat, len: nat, num: Text -> nat, ghost rest: Text, ghost tail: Text)
    returns (more: bool, p': nat, chunk: nat)
    requires p < len < a.Length && |rest| == len - p && a[..][p..] == rest + tail
    ensures !more ==> Decode(rest, num) == []
    ensures more ==> p < p' <= len && chunk <= len - p'
    ensures more ==>
              var data := rest[p' - p..];
              && a[..][p'..] == data + tail
              && Decode(rest, num) == data[..chunk] + Decode(AfterCrlf(data[chunk..]), num)
  {
    var e, size := SizeLine(a, p, len, num, rest, tail);
    if e < 0 || size == 0 {
      return false, 0, 0;
    }
    Slice(a[..], p, rest, tail, e + 2);
    ghost var data := rest[e + 2..];
    more, p', chunk := true, p + e + 2, size;
    if chunk > len - p' {
      chunk := len - p';
    }
    DecodeFirst(rest, num, e, data, chunk);
  }

  /** The optional CRLF behind the data. */
  method SkipCrlf(a: array<byte>, p: nat, len: nat, ghost rest: Text, ghost tail: Text) returns (p': nat)
    requires p <= len < a.Length && |rest| == len - p && a[..][p..] == rest + tail
    ensures p <= p' <= len && |AfterCrlf(rest)| == len - p'
    ensures a[..][p'..] == AfterCrlf(rest) + tail
  {
    p' := p;
    assert forall i: nat | i < |rest| :: a[p + i] == a[..][p..][i] == rest[i];
    if len - p >= 2 && a[p] == CR && a[p + 1] == LF {
      p' := p + 2;
    }
    Slice(a[..], p, rest, tail, p' - p);
  }

  /** One iteration: what is still to be read keeps its place, and the result does not change. */
  method DechunkOne(a: array<byte>, p: nat, out: nat, len: nat, num: Text -> nat, ghost rest: Text, ghost tail: Text)
    returns (more: bool, p': nat, out': nat, ghost rest': Text)
    requires out <= p < len < a.Length && |rest| == len - p && a[..][p..] == rest + tail
    modifies a
    ensures !more ==> Decode(rest, num) == [] && a[..] == old(a[..])
    ensures more ==> p < p' <= len && out' <= p' && |rest'| == len - p'
    ensures more ==> a[..][p'..] == rest' + tail
    ensures more ==> a[..][..out'] + Decode(rest', num) == old(a[..])[..out] + Decode(rest, num)
  {
    p', out', rest' := p, out, rest;
    var q, chunk;
    more, q, chunk := ReadSize(a, p, len, num, rest, tail);
    if more {
      ghost var all, data := a[..], rest[q - p..];
      rest' := AfterCrlf(data[chunk..]);
      Move(a, out, q, chunk);
      MoveKeeps(all, q, out, chunk, data, tail, Decode(rest', num), a[..]);
      out' := out + chunk;
      p' := SkipCrlf(a, q + chunk, len, data[chunk..], tail);
    }
  }

  /** The loop; `s` is the body and `tail` starts with its terminator. */
  method DechunkLoop(a: array<byte>, len: nat, num: Text -> nat, ghost s: Text, ghost tail: Text) returns (out: nat)
    requires len < a.Length && a[..] == s + tail && |s| == len
    modifies a
    ensures out <= len && a[..][..out] == Decode(s, num)
    ensures a[..][len..] == tail
  {
    var p: nat := 0;
    out := 0;
    ghost var rest := s;
    while p < len
      invariant out <= p <= len && |rest| == len - p && a[..][p..] == rest + tail
      invariant a[..][..out] + Decode(rest, num) == Decode(s, num)
      decreases len - p
    {
      var more, p', out';
      ghost var rest';
      more, p', out', rest' := DechunkOne(a, p, out, len, num, rest, tail);
      if !more {
        break;
      }
      p, out, rest := p', out', rest';
    }
    Slice(a[..], p, rest, tail, |rest|);
    assert Decode(rest, num) == [];
  }

  /** The buffer holds `len` bytes and a terminator; the write position never passes the read position. */
  method HttpDechunk(a: array<byte>, len: nat, num: Text -> nat) returns (n: nat)
    requires len < a.Length && a[len] == 0
    modifies a
    ensures n <= len && a[..n] == Decode(old(a[..len]), num) && a[n] == 0
    ensures a[len..] == old(a[len..])
  {
    ghost var tail := a[len..];
    assert a[..] == a[..len] + tail;
    n := DechunkLoop(a, len, num, a[..len], tail);
    assert a[len..] == tail;
    a[n] := 0;
  }
}
