/** The n most relevant entries of a log: `memory_search` of src/memory.c. */
module MemorySearch {
  const SLOTS: nat := 50  // top[], score[]

  /** Entries are named by their index in the log; the score is how many query words each matches. */
  type Score = int -> int

  predicate Before(sc: Score, a: int, b: int) {
    sc(a) > sc(b) || (sc(a) == sc(b) && a > b)
  }

  predicate Sorted(sc: Score, l: seq<int>) {
    forall i, j | 0 <= i < j < |l| :: Before(sc, l[i], l[j])
  }

  /** The full ranking of entries `from..total`: all that match, most words first, then newest first. */
  ghost predicate IsRanking(sc: Score, l: seq<int>, from: int, total: int) {
    && Sorted(sc, l)
    && forall e :: e in l <==> from <= e < total && sc(e) > 0
  }

  lemma SameAt(sc: Score, l: seq<int>, m: seq<int>, k: nat)
    requires Sorted(sc, l) && Sorted(sc, m) && forall e :: e in l <==> e in m
    requires k < |l| && k <= |m| && forall i | 0 <= i < k :: l[i] == m[i]
    ensures k < |m| && l[k] == m[k]
  {
    var e := l[k];
    assert e in m;
    var j :| 0 <= j < |m| && m[j] == e;
    assert forall i | 0 <= i < k :: Before(sc, l[i], e);
    var f := m[k];
    assert f in l;
    var i :| 0 <= i < |l| && l[i] == f;
    assert forall i | 0 <= i < k :: Before(sc, m[i], f);
    assert j > k ==> Before(sc, f, e);
    assert i > k ==> Before(sc, e, f);
  }

  lemma {:induction false} PrefixUnique(sc: Score, l: seq<int>, m: seq<int>, k: nat)
    requires Sorted(sc, l) && Sorted(sc, m) && forall e :: e in l <==> e in m
    requires k <= |l|
    ensures k <= |m| && forall i | 0 <= i < k :: l[i] == m[i]
  {
    if k > 0 {
      PrefixUnique(sc, l, m, k - 1);
      SameAt(sc, l, m, k - 1);
    }
  }

  /** There is only one. */
  lemma RankingUnique(sc: Score, l: seq<int>, m: seq<int>, from: int, total: int)
    requires IsRanking(sc, l, from, total) && IsRanking(sc, m, from, total)
    ensures l == m
  {
    PrefixUnique(sc, l, m, |l|);
    PrefixUnique(sc, m, l, |m|);
  }

  //
  // Insertion without a bound.
  //

  /** Where an entry that matches `s` words goes: behind all that match as many, searched from the end. */
  function Pos(sc: Score, l: seq<int>, s: int): (p: nat)
    ensures p <= |l|
  {
    if l == [] || sc(l[|l| - 1]) >= s then |l| else Pos(sc, l[..|l| - 1], s)
  }

  function Insert(l: seq<int>, p: nat, e: int): seq<int>
    requires p <= |l|
  {
    l[..p] + [e] + l[p..]
  }

  function Ranked(sc: Score, l: seq<int>, e: int): seq<int> {
    if sc(e) <= 0 then l else Insert(l, Pos(sc, l, sc(e)), e)
  }

  function Rank(sc: Score, from: int, total: int): seq<int>
    requires from <= total
    decreases total - from
  {
    if from == total then [] else Ranked(sc, Rank(sc, from + 1, total), from)
  }

  /** In a sorted list, exactly the entries before the position match at least `s` words. */
  lemma {:induction false} PosSplits(sc: Score, l: seq<int>, s: int)
    requires Sorted(sc, l)
    ensures forall i | 0 <= i < |l| :: sc(l[i]) >= s <==> i < Pos(sc, l, s)
  {
    if l != [] {
      var n := |l| - 1;
      if sc(l[n]) >= s {
        assert forall i | 0 <= i < n :: Before(sc, l[i], l[n]);
      } else {
        PosSplits(sc, l[..n], s);
        assert forall i | 0 <= i < n :: l[..n][i] == l[i];
      }
    }
  }

  lemma InsertSorted(sc: Score, l: seq<int>, e: int)
    requires Sorted(sc, l) && forall i | 0 <= i < |l| :: e < l[i]
    ensures Sorted(sc, Insert(l, Pos(sc, l, sc(e)), e))
  {
    PosSplits(sc, l, sc(e));
    var p := Pos(sc, l, sc(e));
    var r := Insert(l, p, e);
    forall i, j | 0 <= i < j < |r|
      ensures Before(sc, r[i], r[j])
    {
      if i != p && j != p {
        assert Before(sc, l[if i < p then i else i - 1], l[if j < p then j else j - 1]);
      }
    }
  }

  lemma InsertMembers(l: seq<int>, p: nat, e: int)
    requires p <= |l|
    ensures forall x :: x in Insert(l, p, e) <==> x == e || x in l
  {
    var r := Insert(l, p, e);
    assert r[p] == e;
    forall x | x in l
      ensures x in r
    {
      var i :| 0 <= i < |l| && l[i] == x;
      assert r[if i < p then i else i + 1] == x;
    }
  }

  lemma {:induction false} RankIsRanking(sc: Score, from: int, total: int)
    requires from <= total
    ensures IsRanking(sc, Rank(sc, from, total), from, total)
    decreases total - from
  {
    if from < total {
      RankIsRanking(sc, from + 1, total);
      var l := Rank(sc, from + 1, total);
      if sc(from) > 0 {
        forall i | 0 <= i < |l|
          ensures from < l[i]
        {
          assert l[i] in l;
        }
        InsertSorted(sc, l, from);
        InsertMembers(l, Pos(sc, l, sc(from)), from);
      }
    }
  }

  //
  // Insertion into the first n slots.
  //

  function Take(l: seq<int>, n: nat): seq<int> {
    if |l| <= n then l else l[..n]
  }

  lemma PosOfTake(sc: Score, l: seq<int>, s: int, n: nat)
    requires Sorted(sc, l)
    ensures Pos(sc, Take(l, n), s) == if Pos(sc, l, s) <= n then Pos(sc, l, s) else n
  {
    PosSplits(sc, l, s);
    var t := Take(l, n);
    PosSplits(sc, t, s);
    var p, q := Pos(sc, l, s), Pos(sc, t, s);
    assert q < |t| ==> t[q] == l[q];
    assert q > 0 ==> t[q - 1] == l[q - 1];
  }

  /** Cutting to n before an insertion or after it is the same: an entry that goes behind slot n is dropped. */
  lemma InsertThenTake(l: seq<int>, p: nat, e: int, n: nat)
    requires p <= |l|
    ensures p >= n ==> Take(Insert(l, p, e), n) == Take(l, n)
    ensures p < n ==> Take(Insert(l, p, e), n) == Take(Insert(Take(l, n), p, e), n)
  {
  }

  lemma InsertIndex(l: seq<int>, p: nat, e: int, n: nat)
    requires p <= |l| <= n
    ensures var r := Take(Insert(l, p, e), n);
            && |r| == (if |l| < n then |l| + 1 else n)
            && forall i | 0 <= i < |r| :: r[i] == if i < p then l[i] else if i == p then e else l[i - 1]
  {
  }

  /** An entry that matches no more words than the n there are goes behind them. */
  lemma FullStep(sc: Score, l: seq<int>, e: int, n: nat)
    requires Sorted(sc, l) && |l| >= n && forall i | 0 <= i < |l| :: sc(l[i]) >= sc(e)
    ensures |Ranked(sc, l, e)| >= n && Take(Ranked(sc, l, e), n) == Take(l, n)
  {
    PosSplits(sc, l, sc(e));
    InsertThenTake(l, |l|, e, n);
  }

  lemma AllMatchOne(sc: Score, from: int, total: int)
    requires 0 <= from <= total && forall e | 0 <= e < total :: sc(e) == 1
    ensures var l := Rank(sc, from, total); Sorted(sc, l) && forall i | 0 <= i < |l| :: sc(l[i]) == 1
  {
    RankIsRanking(sc, from, total);
    var l := Rank(sc, from, total);
    forall i | 0 <= i < |l|
      ensures sc(l[i]) == 1
    {
      assert l[i] in l;
    }
  }

  /** A full list of entries that match one word each stays as it is. */
  lemma {:induction false} FullStays(sc: Score, from: int, upto: int, total: int, n: nat)
    requires 0 <= from <= upto <= total && forall e | 0 <= e < total :: sc(e) == 1
    requires |Rank(sc, upto, total)| >= n
    ensures |Rank(sc, from, total)| >= n && Take(Rank(sc, from, total), n) == Take(Rank(sc, upto, total), n)
    decreases upto - from
  {
    if from < upto {
      FullStays(sc, from + 1, upto, total, n);
      AllMatchOne(sc, from + 1, total);
      FullStep(sc, Rank(sc, from + 1, total), from, n);
    }
  }

  //
  // The loop.
  //

  class Top {
    const top: array<int>
    const score: array<int>
    var found: nat

    constructor ()
      ensures Valid() && found == 0 && fresh(top) && fresh(score)
    {
      top := new int[SLOTS];
      score := new int[SLOTS];
      found := 0;
    }

    ghost predicate Valid()
      reads this
    {
      top.Length == score.Length == SLOTS && top != score && found <= SLOTS
    }

    ghost predicate Holds(sc: Score, l: seq<int>)
      reads this, top, score
    {
      Valid() && |l| == found && forall i | 0 <= i < found :: top[i] == l[i] && score[i] == sc(l[i])
    }

    method FindPos(s: int, ghost sc: Score, ghost l: seq<int>) returns (pos: nat)
      requires Holds(sc, l)
      ensures pos == Pos(sc, l, s)
    {
      pos := found;
      assert l[..found] == l;
      while pos > 0 && score[pos - 1] < s
        invariant pos <= found && Pos(sc, l[..pos], s) == Pos(sc, l, s)
      {
        assert l[..pos][..pos - 1] == l[..pos - 1];
        pos := pos - 1;
      }
      assert pos > 0 ==> l[..pos][pos - 1] == l[pos - 1];
    }

    /** The two memmoves and the stores: only the first n slots are written. */
    method InsertAt(pos: nat, e: int, s: int, n: nat, ghost sc: Score, ghost l: seq<int>)
      requires Holds(sc, l) && pos <= found <= n <= SLOTS && pos < n && s == sc(e)
      modifies this, top, score
      ensures Holds(sc, Take(Insert(l, pos, e), n))
      ensures forall i | n <= i < SLOTS :: top[i] == old(top[i]) && score[i] == old(score[i])
    {
      InsertIndex(l, pos, e, n);
      var last := if found < n then found else n - 1;
      forall i | pos < i <= last {
        top[i] := top[i - 1];
      }
      forall i | pos < i <= last {
        score[i] := score[i - 1];
      }
      top[pos] := e;
      score[pos] := s;
      if found < n {
        found := found + 1;
      }
    }

    method Result(ghost sc: Score, ghost l: seq<int>) returns (r: seq<int>)
      requires Holds(sc, l)
      ensures r == l
    {
      r := top[..found];
    }

    /** One entry: it is inserted among the first n, or behind them and dropped. */
    method Offer(e: int, s: int, n: nat, ghost sc: Score, ghost l: seq<int>) returns (full: bool)
      requires Holds(sc, Take(l, n)) && 1 <= n <= SLOTS && s == sc(e) > 0 && Sorted(sc, l)
      modifies this, top, score
      ensures Holds(sc, Take(Ranked(sc, l, e), n))
      ensures full ==> |l| >= n
    {
      PosOfTake(sc, l, s, n);
      InsertThenTake(l, Pos(sc, l, s), e, n);
      var pos := FindPos(s, sc, Take(l, n));
      full := pos >= n;
      if !full {
        InsertAt(pos, e, s, n, sc, Take(l, n));
      }
    }
  }

  /** The list of the first n once the entries from `from` on are ranked. */
  ghost function First(sc: Score, from: int, total: int, n: nat): seq<int>
    requires from <= total
  {
    Take(Rank(sc, from, total), n)
  }

  /** One entry of the log: the list of the first n, and whether it is the final one already. */
  method Visit(t: Top, i: int, total: int, words: bool, sc: Score, n: nat, ghost l: seq<int>)
    returns (stop: bool, ghost l': seq<int>)
    requires 1 <= n <= SLOTS && 0 <= i < total && sc(i) >= 0
    requires !words ==> forall e | 0 <= e < total :: sc(e) == 1
    requires l == First(sc, i + 1, total, n) && t.Holds(sc, l)
    modifies t, t.top, t.score
    ensures l' == First(sc, i, total, n) && t.Holds(sc, l')
    ensures stop ==> l' == First(sc, 0, total, n)
  {
    ghost var ranked := Rank(sc, i + 1, total);
    stop, l' := false, First(sc, i, total, n);
    assert l == Take(ranked, n) && l' == Take(Ranked(sc, ranked, i), n);
    var s := sc(i);
    if s != 0 {
      RankSorted(sc, i + 1, total);
      var full := t.Offer(i, s, n, sc, ranked);
      stop := full && !words;
      if stop {
        FullIsFinal(sc, i, total, n);
      }
    }
  }

  lemma FullIsFinal(sc: Score, i: int, total: int, n: nat)
    requires 0 <= i < total && forall e | 0 <= e < total :: sc(e) == 1
    requires |Rank(sc, i + 1, total)| >= n
    ensures First(sc, i, total, n) == First(sc, 0, total, n)
  {
    FullStays(sc, i, i + 1, total, n);
    FullStays(sc, 0, i + 1, total, n);
  }

  lemma RankSorted(sc: Score, from: int, total: int)
    requires from <= total
    ensures Sorted(sc, Rank(sc, from, total))
  {
    RankIsRanking(sc, from, total);
  }

  /** Entries from the newest to the oldest; with no query words the first n end the search. */
  method TopN(total: nat, words: bool, sc: Score, n: nat) returns (r: seq<int>)
    requires 1 <= n <= SLOTS && forall e | 0 <= e < total :: sc(e) >= 0
    requires !words ==> forall e | 0 <= e < total :: sc(e) == 1
    ensures r == First(sc, 0, total, n)
  {
    var t := new Top();
    var i: int, stop := total, false;
    ghost var l := [];
    while i > 0 && !stop
      invariant 0 <= i <= total && l == First(sc, i, total, n)
      invariant stop ==> l == First(sc, 0, total, n)
      invariant t.Holds(sc, l) && fresh(t) && fresh(t.top) && fresh(t.score)
    {
      i := i - 1;
      stop, l := Visit(t, i, total, words, sc, n, l);
    }
    r := t.Result(sc, l);
  }

  function Clamp(n: int): nat {
    if n <= 0 then 20 else if n > 50 then 50 else n
  }

  function Scores<E>(log: seq<E>, words: bool, matchScore: E -> nat): Score {
    (i: int) => if words && 0 <= i < |log| then matchScore(log[i]) else 1
  }

  /** The first n entries of a list of indices. */
  predicate FirstOf<E(==)>(found: seq<E>, log: seq<E>, ranking: seq<int>, n: nat) {
    && |found| == (if |ranking| <= n then |ranking| else n)
    && forall k | 0 <= k < |found| :: 0 <= ranking[k] < |log| && found[k] == log[ranking[k]]
  }

  /** memory_search: the first n entries of the full ranking of the log, of which there is exactly one. */
  method MemorySearch<E(==)>(log: seq<E>, words: bool, matchScore: E -> nat, n: int) returns (found: seq<E>)
    ensures FirstOf(found, log, Rank(Scores(log, words, matchScore), 0, |log|), Clamp(n))
    ensures forall l | IsRanking(Scores(log, words, matchScore), l, 0, |log|) :: FirstOf(found, log, l, Clamp(n))
    ensures |found| <= if 1 <= n <= 50 then n else if n <= 0 then 20 else 50
    ensures !words ==> IsRecent(found, log, if 1 <= n <= 50 then n else if n <= 0 then 20 else 50)
  {
    var sc := Scores(log, words, matchScore);
    ghost var ranking := Rank(sc, 0, |log|);
    RankIsRanking(sc, 0, |log|);
    var top := TopN(|log|, words, sc, Clamp(n));
    forall k | 0 <= k < |top|
      ensures 0 <= top[k] == ranking[k] < |log|
    {
      assert ranking[k] in ranking;
    }
    found := seq(|top|, k requires 0 <= k < |top| => log[top[k]]);
    forall l | IsRanking(sc, l, 0, |log|)
      ensures FirstOf(found, log, l, Clamp(n))
    {
      RankingUnique(sc, l, ranking, 0, |log|);
    }
    if !words {
      NewestFirst(sc, |log|);
      Recent(found, log, Clamp(n));
    }
  }

  /** How an entry of the log is ranked: by the words it matches, all alike when there are none to match. */
  lemma ScoresAre<E>(log: seq<E>, words: bool, matchScore: E -> nat, i: nat)
    requires i < |log|
    ensures Scores(log, words, matchScore)(i) == if words then matchScore(log[i]) else 1
  {
  }

  /** The newest `max` entries, newest first. */
  predicate IsRecent<E(==)>(found: seq<E>, log: seq<E>, max: nat) {
    && |found| == (if |log| <= max then |log| else max)
    && forall k | 0 <= k < |found| :: found[k] == log[|log| - 1 - k]
  }

  function Backwards(total: nat): seq<int> {
    seq(total, k requires 0 <= k < total => total - 1 - k)
  }

  lemma Recent<E>(found: seq<E>, log: seq<E>, max: nat)
    requires FirstOf(found, log, Backwards(|log|), max)
    ensures IsRecent(found, log, max)
  {
  }

  /** With nothing to match, from the newest entry to the oldest. */
  lemma NewestFirst(sc: Score, total: nat)
    requires forall e | 0 <= e < total :: sc(e) == 1
    ensures IsRanking(sc, Backwards(total), 0, total)
  {
    var l := Backwards(total);
    forall e
      ensures e in l <==> 0 <= e < total && sc(e) > 0
    {
      if 0 <= e < total {
        assert l[total - 1 - e] == e;
      }
    }
  }
}
