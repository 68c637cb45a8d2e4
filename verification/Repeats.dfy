/** Identical tool calls of a session: `repeated_call` of src/agent.c. */
module Repeats {
  import opened Bytes

  const SLOTS: nat := 64

  /** A tool call: the tool and its printed arguments. */
  datatype Key = Key(name: Text, args: Text)

  //
  // FNV-1a over the name, a zero byte as separator, and the arguments.
  //

  const BASIS: nat := 1469598103934665603
  const PRIME: nat := 1099511628211
  const WORD: nat := 0x1_0000_0000_0000_0000   // uint64_t wraps around here

  /** `x ^ y`, bit by bit. */
  function Xor(x: nat, y: nat): nat {
    if x == 0 && y == 0 then 0 else 2 * Xor(x / 2, y / 2) + (x + y) % 2
  }

  function Mix(h: nat, b: byte): nat {
    Xor(h, b as nat) * PRIME % WORD
  }

  function Fnv(h: nat, s: Text): nat {
    if s == [] then h else Mix(Fnv(h, s[..|s| - 1]), s[|s| - 1])
  }

  function Hash(k: Key): nat {
    Fnv(Mix(Fnv(BASIS, k.name), 0), k.args)
  }

  method FnvLoop(h: nat, s: Text) returns (r: nat)
    ensures r == Fnv(h, s)
  {
    r := h;
    for i := 0 to |s|
      invariant r == Fnv(h, s[..i])
    {
      assert s[..i + 1][..i] == s[..i];
      r := Mix(r, s[i]);
    }
    assert s[..|s|] == s;
  }

  //
  // What the hash tells apart.
  //

  lemma XorIs(x: nat, y: nat)
    ensures Xor(x, y) / 2 == Xor(x / 2, y / 2) && Xor(x, y) % 2 == (x + y) % 2
  {
  }

  lemma HalvesTell(x: nat, x': nat)
    requires x / 2 == x' / 2 && x % 2 == x' % 2
    ensures x == x'
  {
  }

  lemma SumsTell(x: nat, y: nat, y': nat)
    requires (x + y) % 2 == (x + y') % 2
    ensures y % 2 == y' % 2
  {
  }

  lemma {:induction false} XorTellsApart(x: nat, y: nat, y': nat)
    requires Xor(x, y) == Xor(x, y')
    ensures y == y'
    decreases x + y + y'
  {
    if x + y + y' > 0 {
      XorIs(x, y);
      XorIs(x, y');
      XorTellsApart(x / 2, y / 2, y' / 2);
      SumsTell(x, y, y');
      HalvesTell(y, y');
    }
  }

  lemma {:induction false} XorTurns(x: nat, y: nat)
    ensures Xor(x, y) == Xor(y, x)
    decreases x + y
  {
    if x + y > 0 {
      XorTurns(x / 2, y / 2);
    }
  }

  lemma {:induction false} XorIsWord(x: nat, y: nat, bits: nat)
    requires x < Power(bits) && y < Power(bits)
    ensures Xor(x, y) < Power(bits)
  {
    if bits > 0 && x + y > 0 {
      XorIsWord(x / 2, y / 2, bits - 1);
    }
  }

  function Power(n: nat): nat {
    if n == 0 then 1 else 2 * Power(n - 1)
  }

  lemma PowerOf8(n: nat)
    ensures Power(n + 8) == 256 * Power(n)
  {
    assert Power(n + 4) == 16 * Power(n) by {
      assert Power(n + 2) == 4 * Power(n);
    }
    assert Power(n + 6) == 64 * Power(n);
  }

  lemma WordIsPower()
    ensures WORD == Power(64)
  {
    PowerOf8(0);
    PowerOf8(8);
    PowerOf8(16);
    PowerOf8(24);
    PowerOf8(32);
    PowerOf8(40);
    PowerOf8(48);
    PowerOf8(56);
  }

  /** The prime is odd: multiplying by it can be undone. */
  lemma TimesTellsApart(x: nat, y: nat)
    requires x < WORD && y < WORD && x * PRIME % WORD == y * PRIME % WORD
    ensures x == y
  {
    var inverse, k := 14886173955864302971, x * PRIME / WORD - y * PRIME / WORD;
    assert (x - y) * PRIME == k * WORD;
    assert PRIME * inverse == 1 + (PRIME * inverse / WORD) * WORD;
    assert x - y == (k * inverse - (x - y) * (PRIME * inverse / WORD)) * WORD;
  }

  lemma MixTellsApart(h: nat, h': nat, b: byte, b': byte)
    requires h < WORD && h' < WORD && Mix(h, b) == Mix(h', b')
    ensures b == b' ==> h == h'
    ensures h == h' ==> b == b'
  {
    WordIsPower();
    XorIsWord(h, b as nat, 64);
    XorIsWord(h', b' as nat, 64);
    TimesTellsApart(Xor(h, b as nat), Xor(h', b' as nat));
    if b == b' {
      XorTurns(h, b as nat);
      XorTurns(h', b as nat);
      XorTellsApart(b as nat, h, h');
    }
    if h == h' {
      XorTellsApart(h, b as nat, b' as nat);
    }
  }

  lemma FnvIsWord(h: nat, s: Text)
    requires h < WORD
    ensures Fnv(h, s) < WORD
  {
  }

  lemma {:induction false} FnvTellsApart(h: nat, h': nat, s: Text)
    requires h < WORD && h' < WORD && Fnv(h, s) == Fnv(h', s)
    ensures h == h'
  {
    if s != [] {
      var n := |s| - 1;
      FnvIsWord(h, s[..n]);
      FnvIsWord(h', s[..n]);
      MixTellsApart(Fnv(h, s[..n]), Fnv(h', s[..n]), s[n], s[n]);
      FnvTellsApart(h, h', s[..n]);
    }
  }

  lemma {:induction false} FnvOneByte(h: nat, s: Text, i: nat, b: byte)
    requires h < WORD && i < |s| && Fnv(h, s[i := b]) == Fnv(h, s)
    ensures b == s[i]
  {
    var n, s' := |s| - 1, s[i := b];
    FnvIsWord(h, s'[..n]);
    FnvIsWord(h, s[..n]);
    MixTellsApart(Fnv(h, s'[..n]), Fnv(h, s[..n]), s'[n], s[n]);
    if i == n {
      assert s'[..n] == s[..n];
    } else {
      assert s'[..n] == s[..n][i := b];
      FnvOneByte(h, s[..n], i, b);
    }
  }

  lemma ArgsTellApart(name: Text, args: Text, i: nat, b: byte)
    requires i < |args| && b != args[i]
    ensures Hash(Key(name, args[i := b])) != Hash(Key(name, args))
  {
    var h := Mix(Fnv(BASIS, name), 0);
    if Hash(Key(name, args[i := b])) == Hash(Key(name, args)) {
      FnvOneByte(h, args, i, b);
    }
  }

  lemma NamesTellApart(name: Text, args: Text, i: nat, b: byte)
    requires i < |name| && b != name[i]
    ensures Hash(Key(name[i := b], args)) != Hash(Key(name, args))
  {
    var h, h' := Fnv(BASIS, name), Fnv(BASIS, name[i := b]);
    if Hash(Key(name[i := b], args)) == Hash(Key(name, args)) {
      FnvIsWord(BASIS, name);
      FnvIsWord(BASIS, name[i := b]);
      FnvTellsApart(Mix(h', 0), Mix(h, 0), args);
      MixTellsApart(h', h, 0, 0);
      FnvOneByte(BASIS, name, i, b);
    }
  }

  /** Calls that differ in one byte, of the name or of the arguments, never count as identical. */
  lemma OneByteCounts(k: Key, i: nat, b: byte)
    ensures i < |k.args| && b != k.args[i] ==> Hash(k.(args := k.args[i := b])) != Hash(k)
    ensures i < |k.name| && b != k.name[i] ==> Hash(k.(name := k.name[i := b])) != Hash(k)
  {
    if i < |k.args| && b != k.args[i] {
      ArgsTellApart(k.name, k.args, i, b);
    }
    if i < |k.name| && b != k.name[i] {
      NamesTellApart(k.name, k.args, i, b);
    }
  }

  //
  // The table.
  //

  datatype Entry = Entry(hash: nat, count: nat)

  /** The first slot with hash `h` from slot `i` on, or the end. */
  function Slot(t: seq<Entry>, h: nat, i: nat): (k: nat)
    requires i <= |t|
    ensures i <= k <= |t| && (k < |t| ==> t[k].hash == h)
    ensures forall j | i <= j < k :: t[j].hash != h
    decreases |t| - i
  {
    if i == |t| || t[i].hash == h then i else Slot(t, h, i + 1)
  }

  predicate Recorded(t: seq<Entry>, h: nat) {
    Slot(t, h, 0) < |t|
  }

  /** How often a call with this hash came up, as far as the table knows. */
  function Count(t: seq<Entry>, h: nat): nat {
    if Recorded(t, h) then t[Slot(t, h, 0)].count else 0
  }

  function Counted(t: seq<Entry>, h: nat): seq<Entry> {
    if Recorded(t, h) then t[Slot(t, h, 0) := Entry(h, Count(t, h) + 1)]
    else if |t| < SLOTS then t + [Entry(h, 1)]
    else t
  }

  predicate Exceeds(t: seq<Entry>, h: nat, limit: nat) {
    Recorded(t, h) && Count(t, h) + 1 > limit
  }

  lemma SlotIs(t: seq<Entry>, h: nat, k: nat)
    requires k <= |t| && (k < |t| ==> t[k].hash == h) && forall j | 0 <= j < k :: t[j].hash != h
    ensures Slot(t, h, 0) == k
  {
  }

  /** Only the count of `h` changes. */
  lemma CountedIs(t: seq<Entry>, h: nat, h': nat)
    ensures var t' := Counted(t, h);
            && (h' != h ==> Recorded(t', h') == Recorded(t, h') && Count(t', h') == Count(t, h'))
            && (h' == h && (Recorded(t, h) || |t| < SLOTS) ==> Recorded(t', h) && Count(t', h) == Count(t, h) + 1)
  {
    var t' := Counted(t, h);
    var s := Slot(t, h', 0);
    if s < |t| {
      SlotIs(t', h', s);
    } else if h' == h && |t| < SLOTS {
      SlotIs(t', h', |t|);
    } else {
      SlotIs(t', h', |t'|);
    }
  }

  method CallHash(k: Key) returns (h: nat)
    ensures h == Hash(k)
  {
    var name := FnvLoop(BASIS, k.name);
    h := FnvLoop(Mix(name, 0), k.args);
  }

  method CountCall(t: seq<Entry>, h: nat, limit: nat) returns (t': seq<Entry>, blocked: bool)
    ensures t' == Counted(t, h) && blocked == Exceeds(t, h, limit)
  {
    for i := 0 to |t|
      invariant Slot(t, h, 0) == Slot(t, h, i)
    {
      if t[i].hash == h {
        var count := t[i].count + 1;
        return t[i := Entry(h, count)], count > limit;
      }
    }
    if |t| < SLOTS {
      return t + [Entry(h, 1)], false;
    }
    return t, false;
  }

  method RepeatedCall(t: seq<Entry>, k: Key, limit: nat) returns (t': seq<Entry>, blocked: bool)
    ensures t' == Counted(t, Hash(k)) && blocked == Exceeds(t, Hash(k), limit)
  {
    var h := CallHash(k);
    t', blocked := CountCall(t, h, limit);
  }

  //
  // How often a call runs.
  //

  type Limit = Key -> nat

  /**
   * A recorded call has run at most as often as it came up and at most `limit` times; while the table has room,
   * a call that is not recorded has not run.
   */
  ghost predicate TableOk(t: seq<Entry>, ran: multiset<Key>, limit: Limit) {
    && |t| <= SLOTS
    && forall k :: RunsOk(t, ran, limit, k)
  }

  predicate RunsOk(t: seq<Entry>, ran: multiset<Key>, limit: Limit, k: Key) {
    if Recorded(t, Hash(k)) then ran[k] <= Count(t, Hash(k)) && ran[k] <= limit(k)
    else |t| < SLOTS ==> ran[k] == 0
  }

  function Ran(t: seq<Entry>, ran: multiset<Key>, limit: Limit, k: Key): multiset<Key> {
    if Exceeds(t, Hash(k), limit(k)) then ran else ran + multiset{k}
  }

  lemma AttemptKeeps(t: seq<Entry>, ran: multiset<Key>, limit: Limit, k: Key)
    requires TableOk(t, ran, limit) && limit(k) >= 1
    ensures TableOk(Counted(t, Hash(k)), Ran(t, ran, limit, k), limit)
  {
    var t', ran' := Counted(t, Hash(k)), Ran(t, ran, limit, k);
    forall k'
      ensures RunsOk(t', ran', limit, k')
    {
      assert RunsOk(t, ran, limit, k');
      CountedIs(t, Hash(k), Hash(k'));
    }
  }

  //
  // The verdict over a sequence of calls.
  //

  /** The table after calls with these hashes. */
  function TableAfter(hs: seq<nat>): seq<Entry> {
    if hs == [] then [] else Counted(TableAfter(hs[..|hs| - 1]), hs[|hs| - 1])
  }

  function Seen(hs: seq<nat>): set<nat> {
    set h | h in hs
  }

  function Hashes(t: seq<Entry>): set<nat> {
    set i | 0 <= i < |t| :: t[i].hash
  }

  lemma RecordedIs(t: seq<Entry>, h: nat)
    ensures Recorded(t, h) <==> h in Hashes(t)
  {
    if h in Hashes(t) {
      var i :| 0 <= i < |t| && t[i].hash == h;
    }
  }

  /** A recorded call has been counted every time; one that is not recorded never came, or the table is full. */
  predicate Tally(t: seq<Entry>, hs: seq<nat>, h: nat) {
    if Recorded(t, h) then Count(t, h) == multiset(hs)[h] else multiset(hs)[h] == 0 || |t| == SLOTS
  }

  lemma TallyNext(t: seq<Entry>, hs: seq<nat>, h: nat, h': nat)
    requires |t| <= SLOTS && Tally(t, hs, h')
    ensures Tally(Counted(t, h), hs + [h], h')
  {
    CountedIs(t, h, h');
  }

  lemma {:induction false} TableTallies(hs: seq<nat>)
    ensures |TableAfter(hs)| <= SLOTS && forall h :: Tally(TableAfter(hs), hs, h)
  {
    if hs != [] {
      var n := |hs| - 1;
      TableTallies(hs[..n]);
      assert hs == hs[..n] + [hs[n]];
      forall h
        ensures Tally(TableAfter(hs), hs, h)
      {
        TallyNext(TableAfter(hs[..n]), hs[..n], hs[n], h);
      }
    }
  }

  lemma CountedHashes(t: seq<Entry>, h: nat)
    ensures Hashes(Counted(t, h)) <= Hashes(t) + {h}
    ensures |Hashes(t)| == |t| ==> |Hashes(Counted(t, h))| == |Counted(t, h)|
  {
    var t' := Counted(t, h);
    RecordedIs(t, h);
    if Recorded(t, h) {
      forall i | 0 <= i < |t|
        ensures t'[i].hash == t[i].hash
      {
      }
      assert Hashes(t') == Hashes(t);
    } else if |t| < SLOTS {
      assert forall i | 0 <= i < |t| :: t'[i] == t[i];
      assert t'[|t|].hash == h;
      assert Hashes(t') == Hashes(t) + {h};
    }
  }

  lemma {:induction false} TableHashes(hs: seq<nat>)
    ensures Hashes(TableAfter(hs)) <= Seen(hs)
    ensures |Hashes(TableAfter(hs))| == |TableAfter(hs)|
  {
    if hs != [] {
      var n := |hs| - 1;
      TableHashes(hs[..n]);
      CountedHashes(TableAfter(hs[..n]), hs[n]);
      assert hs == hs[..n] + [hs[n]];
    }
  }

  lemma Fewer(a: set<nat>, b: set<nat>, h: nat)
    requires a <= b && h in b && h !in a
    ensures |a| < |b|
  {
    assert a <= b - {h};
    Cardinality(a, b - {h});
  }

  lemma Cardinality(a: set<nat>, b: set<nat>)
    requires a <= b
    ensures |a| <= |b|
  {
    assert b == a + (b - a);
  }

  /**
   * A call is blocked only if it came `limit` times before; and it is then, as long as there were at most 64
   * different calls.
   */
  lemma BlockedExactly(hs: seq<nat>, h: nat, limit: nat)
    requires limit >= 1
    ensures Exceeds(TableAfter(hs), h, limit) ==> multiset(hs)[h] >= limit
    ensures |Seen(hs)| <= SLOTS ==> (Exceeds(TableAfter(hs), h, limit) <==> multiset(hs)[h] >= limit)
  {
    var t := TableAfter(hs);
    TableTallies(hs);
    assert Tally(t, hs, h);
    if |Seen(hs)| <= SLOTS && multiset(hs)[h] >= limit && !Recorded(t, h) {
      TableHashes(hs);
      RecordedIs(t, h);
      assert h in multiset(hs) && h in hs;
      Fewer(Hashes(t), Seen(hs), h);
    }
  }
}
