/**
 * Sequence combinators behind the `filter`, `map`, `find`, `reduce`, `sort`,
 * `slice`, `includes` and `Set`-dedupe calls of the ledger, each with the
 * property the screens rely on.
 */
module Seqs {
  import opened Types

  function Min(a: int, b: int): int { if a < b then a else b }

  /** `r` is `s` with some elements deleted: an order-preserving sub-list. */
  predicate IsSubsequence<T(==)>(r: seq<T>, s: seq<T>)
    decreases |s|
  {
    || r == []
    || (&& s != []
        && (|| (r[|r| - 1] == s[|s| - 1] && IsSubsequence(r[..|r| - 1], s[..|s| - 1]))
            || IsSubsequence(r, s[..|s| - 1])))
  }

  /** `Array.prototype.filter`. */
  function Filter<T>(s: seq<T>, keep: T -> bool): (r: seq<T>)
    ensures |r| <= |s|
    ensures forall i :: 0 <= i < |r| ==> keep(r[i])
    decreases |s|
  {
    if s == [] then []
    else
      var r' := Filter(s[..|s| - 1], keep);
      if keep(s[|s| - 1]) then r' + [s[|s| - 1]] else r'
  }

  /** What `filter` keeps: exactly the elements satisfying `keep`. */
  lemma {:induction false} FilterMembers<T>(s: seq<T>, keep: T -> bool)
    ensures forall i :: 0 <= i < |Filter(s, keep)| ==> Filter(s, keep)[i] in s
    ensures forall i :: 0 <= i < |s| && keep(s[i]) ==> s[i] in Filter(s, keep)
    decreases |s|
  {
    if s != [] {
      var front, last := s[..|s| - 1], s[|s| - 1];
      assert s == front + [last];
      FilterMembers(front, keep);
    }
  }

  /** `filter` keeps the order of what it keeps, and everything when everything satisfies `keep`. */
  lemma {:induction false} FilterOrder<T>(s: seq<T>, keep: T -> bool)
    ensures IsSubsequence(Filter(s, keep), s)
    ensures (forall i :: 0 <= i < |s| ==> keep(s[i])) ==> Filter(s, keep) == s
    decreases |s|
  {
    if s != [] {
      var front, last := s[..|s| - 1], s[|s| - 1];
      assert s == front + [last];
      FilterOrder(front, keep);
      var r' := Filter(front, keep);
      if keep(last) {
        assert (r' + [last])[..|r'|] == r';
      }
    }
  }

  /** `filter` keeps every occurrence of an element satisfying `keep` and no occurrence of any other. */
  lemma {:induction false} FilterMultiplicity<T>(s: seq<T>, keep: T -> bool)
    ensures forall x :: multiset(Filter(s, keep))[x] == if keep(x) then multiset(s)[x] else 0
    decreases |s|
  {
    if s != [] {
      var front, last := s[..|s| - 1], s[|s| - 1];
      assert s == front + [last];
      FilterMultiplicity(front, keep);
      assert multiset(s) == multiset(front) + multiset{last};
    }
  }

  /** No two elements of `s` share a key. */
  predicate DistinctBy<T, K(==)>(s: seq<T>, key: T -> K) {
    forall i, j :: 0 <= i < j < |s| ==> key(s[i]) != key(s[j])
  }

  /** Filtering a list whose keys are distinct leaves them distinct. */
  lemma {:induction false} FilterDistinctBy<T, K>(s: seq<T>, keep: T -> bool, key: T -> K)
    requires DistinctBy(s, key)
    ensures DistinctBy(Filter(s, keep), key)
    decreases |s|
  {
    if s != [] {
      var front, last := s[..|s| - 1], s[|s| - 1];
      FilterDistinctBy(front, keep, key);
      if keep(last) {
        var r' := Filter(front, keep);
        FilterMembers(front, keep);
        forall i | 0 <= i < |r'| ensures key(r'[i]) != key(last) {
          var m :| 0 <= m < |front| && front[m] == r'[i];
        }
      }
    }
  }

  lemma {:induction false} FilterNone<T>(s: seq<T>, keep: T -> bool)
    requires forall i :: 0 <= i < |s| ==> !keep(s[i])
    ensures Filter(s, keep) == []
    decreases |s|
  {
    if s != [] {
      FilterNone(s[..|s| - 1], keep);
    }
  }

  /** The negation of a `filter` predicate. */
  function Not<T>(p: T -> bool): T -> bool { (x: T) => !p(x) }

  lemma {:induction false} FilterConcat<T>(a: seq<T>, b: seq<T>, keep: T -> bool)
    ensures Filter(a + b, keep) == Filter(a, keep) + Filter(b, keep)
    decreases |b|
  {
    if b == [] {
      assert a + b == a;
    } else {
      var b' := b[..|b| - 1];
      assert (a + b)[..|a + b| - 1] == a + b';
      assert (a + b)[|a + b| - 1] == b[|b| - 1];
      FilterConcat(a, b', keep);
    }
  }

  lemma FilterCons<T>(x: T, s: seq<T>, keep: T -> bool)
    ensures Filter([x] + s, keep) == (if keep(x) then [x] else []) + Filter(s, keep)
  {
    FilterConcat([x], s, keep);
    assert [x][..0] == [];
  }

  /** A `filter` of a prefix is a prefix of the `filter`. */
  lemma FilterOfPrefix<T>(s: seq<T>, k: nat, keep: T -> bool)
    requires k <= |s|
    ensures Filter(s[..k], keep) <= Filter(s, keep)
  {
    assert s == s[..k] + s[k..];
    FilterConcat(s[..k], s[k..], keep);
    var a, b := Filter(s[..k], keep), Filter(s[k..], keep);
    assert a <= a + b;
  }

  /** `Array.prototype.map` applied only where `matches` holds (the `id === x ? {...} : item` idiom). */
  function MapWhere<T>(s: seq<T>, matches: T -> bool, f: T -> T): seq<T>
  {
    seq(|s|, i requires 0 <= i < |s| => if matches(s[i]) then f(s[i]) else s[i])
  }

  lemma MapWhereNoMatch<T>(s: seq<T>, matches: T -> bool, f: T -> T)
    requires forall i :: 0 <= i < |s| ==> !matches(s[i])
    ensures MapWhere(s, matches, f) == s
  {
  }

  /** The index of the first element satisfying `p` (`findIndex`), or `|s|` when there is none. */
  function FirstIndex<T>(s: seq<T>, p: T -> bool): (k: nat)
    ensures k <= |s|
    ensures k < |s| ==> p(s[k])
    ensures forall i :: 0 <= i < k ==> !p(s[i])
    decreases |s|
  {
    if s == [] then 0
    else if p(s[0]) then 0
    else 1 + FirstIndex(s[1..], p)
  }

  /** `Array.prototype.find`: the first element satisfying `p`, if any. */
  function Find<T>(s: seq<T>, p: T -> bool): (r: Option<T>)
    ensures r.None? <==> forall i :: 0 <= i < |s| ==> !p(s[i])
    ensures r.Some? ==> p(r.value)
  {
    var k := FirstIndex(s, p);
    if k < |s| then Some(s[k]) else None
  }

  /** The sum of `f` over `s`, accumulated left to right as `reduce` does. */
  function SumReal<T>(s: seq<T>, f: T -> real): real
    decreases |s|
  {
    if s == [] then 0.0 else SumReal(s[..|s| - 1], f) + f(s[|s| - 1])
  }

  lemma {:induction false} SumRealConcat<T>(a: seq<T>, b: seq<T>, f: T -> real)
    ensures SumReal(a + b, f) == SumReal(a, f) + SumReal(b, f)
    decreases |b|
  {
    if b == [] {
      assert a + b == a;
    } else {
      var b' := b[..|b| - 1];
      assert (a + b)[..|a + b| - 1] == a + b';
      assert (a + b)[|a + b| - 1] == b[|b| - 1];
      SumRealConcat(a, b', f);
    }
  }

  /** Rewriting the single element at `k` changes the sum by the difference at `k`. */
  lemma {:induction false} SumMapWhereOne<T>(s: seq<T>, matches: T -> bool, g: T -> T, f: T -> real, k: nat)
    requires k < |s| && matches(s[k])
    requires forall i :: 0 <= i < |s| && i != k ==> !matches(s[i])
    ensures SumReal(MapWhere(s, matches, g), f) == SumReal(s, f) - f(s[k]) + f(g(s[k]))
    decreases |s|
  {
    var m := MapWhere(s, matches, g);
    var n := |s| - 1;
    assert m[..n] == MapWhere(s[..n], matches, g);
    if k == n {
      MapWhereNoMatch(s[..n], matches, g);
    } else {
      SumMapWhereOne(s[..n], matches, g, f, k);
    }
  }

  /** Filtering out the single element at `k` lowers the sum by its share. */
  lemma {:induction false} SumFilterOutOne<T>(s: seq<T>, keep: T -> bool, f: T -> real, k: nat)
    requires k < |s| && !keep(s[k])
    requires forall i :: 0 <= i < |s| && i != k ==> keep(s[i])
    ensures SumReal(Filter(s, keep), f) == SumReal(s, f) - f(s[k])
    decreases |s|
  {
    var n := |s| - 1;
    assert s == s[..n] + [s[n]];
    if k == n {
      FilterOrder(s[..n], keep);
    } else {
      SumFilterOutOne(s[..n], keep, f, k);
    }
  }

  /** True on the elements whose `key` is `v`. */
  function KeyIs<T>(key: T -> int, v: int): T -> bool { (x: T) => key(x) == v }

  predicate SortedDesc<T>(s: seq<T>, key: T -> int) {
    forall i, j :: 0 <= i < j < |s| ==> key(s[i]) >= key(s[j])
  }

  /** Inserts `x` in front of the first element whose key is not larger. */
  function Insert<T>(x: T, s: seq<T>, key: T -> int): seq<T>
    decreases |s|
  {
    if s == [] || key(x) >= key(s[0]) then [x] + s
    else [s[0]] + Insert(x, s[1..], key)
  }

  /** `sort((a, b) => key(b) - key(a))`: a stable sort by non-increasing key. */
  function SortDesc<T>(s: seq<T>, key: T -> int): seq<T>
    decreases |s|
  {
    if s == [] then [] else Insert(s[0], SortDesc(s[1..], key), key)
  }

  lemma {:induction false} InsertPermutes<T>(x: T, s: seq<T>, key: T -> int)
    ensures multiset(Insert(x, s, key)) == multiset([x] + s)
    decreases |s|
  {
    if s != [] && key(x) < key(s[0]) {
      assert s == [s[0]] + s[1..];
      InsertPermutes(x, s[1..], key);
    }
  }

  /** `SortDesc` rearranges its input: nothing is added, lost or duplicated. */
  lemma {:induction false} SortDescPermutes<T>(s: seq<T>, key: T -> int)
    ensures multiset(SortDesc(s, key)) == multiset(s)
    decreases |s|
  {
    if s != [] {
      assert s == [s[0]] + s[1..];
      SortDescPermutes(s[1..], key);
      InsertPermutes(s[0], SortDesc(s[1..], key), key);
    }
  }

  /** Inserting below a bound keeps every key below the bound. */
  lemma {:induction false} InsertBounded<T>(x: T, s: seq<T>, key: T -> int, b: int)
    requires key(x) <= b
    requires forall i :: 0 <= i < |s| ==> key(s[i]) <= b
    ensures forall i :: 0 <= i < |Insert(x, s, key)| ==> key(Insert(x, s, key)[i]) <= b
    decreases |s|
  {
    if s != [] && key(x) < key(s[0]) {
      InsertBounded(x, s[1..], key, b);
    }
  }

  lemma {:induction false} InsertSorted<T>(x: T, s: seq<T>, key: T -> int)
    requires SortedDesc(s, key)
    ensures SortedDesc(Insert(x, s, key), key)
    decreases |s|
  {
    if s != [] && key(x) < key(s[0]) {
      InsertSorted(x, s[1..], key);
      InsertBounded(x, s[1..], key, key(s[0]));
    }
  }

  /** Inserting keeps the relative order among elements of equal key. */
  lemma {:induction false} InsertStable<T>(x: T, s: seq<T>, key: T -> int, v: int)
    ensures Filter(Insert(x, s, key), KeyIs(key, v)) == Filter([x] + s, KeyIs(key, v))
    decreases |s|
  {
    if s != [] && key(x) < key(s[0]) {
      var p := KeyIs(key, v);
      var s0, rest := s[0], s[1..];
      var tail := Insert(x, rest, key);
      assert Insert(x, s, key) == [s0] + tail;
      assert s == [s0] + rest;
      var fx: seq<T> := if p(x) then [x] else [];
      var f0: seq<T> := if p(s0) then [s0] else [];
      InsertStable(x, rest, key, v);
      FilterCons(s0, tail, p);
      FilterCons(x, rest, p);
      FilterCons(x, s, p);
      FilterCons(s0, rest, p);
      assert fx == [] || f0 == [];
      assert f0 + (fx + Filter(rest, p)) == fx + (f0 + Filter(rest, p));
    }
  }

  /** The result of `SortDesc` is ordered by non-increasing key. */
  lemma {:induction false} SortDescSorted<T>(s: seq<T>, key: T -> int)
    ensures SortedDesc(SortDesc(s, key), key)
    decreases |s|
  {
    if s != [] {
      SortDescSorted(s[1..], key);
      InsertSorted(s[0], SortDesc(s[1..], key), key);
    }
  }

  /** Stability: the elements of each key value keep their input order. */
  lemma {:induction false} SortDescStable<T>(s: seq<T>, key: T -> int, v: int)
    ensures Filter(SortDesc(s, key), KeyIs(key, v)) == Filter(s, KeyIs(key, v))
    decreases |s|
  {
    if s != [] {
      var p := KeyIs(key, v);
      SortDescStable(s[1..], key, v);
      InsertStable(s[0], SortDesc(s[1..], key), key, v);
      FilterCons(s[0], SortDesc(s[1..], key), p);
      FilterCons(s[0], s[1..], p);
      assert s == [s[0]] + s[1..];
    }
  }

  /** `sort((a, b) => key(b) - key(a)).slice(0, n)`: the `n` elements of largest key. */
  function TopN<T>(s: seq<T>, key: T -> int, n: nat): seq<T> {
    var sorted := SortDesc(s, key);
    sorted[..Min(n, |sorted|)]
  }

  /** `TopN` keeps at most `n` elements of `s`, ordered by non-increasing key. */
  lemma TopNShape<T>(s: seq<T>, key: T -> int, n: nat)
    ensures |TopN(s, key, n)| == Min(n, |s|)
    ensures SortedDesc(TopN(s, key, n), key)
    ensures multiset(TopN(s, key, n)) <= multiset(s)
  {
    var sorted := SortDesc(s, key);
    SortDescPermutes(s, key);
    SortDescSorted(s, key);
    assert |sorted| == |multiset(sorted)| == |multiset(s)| == |s|;
    var m := Min(n, |sorted|);
    assert sorted == sorted[..m] + sorted[m..];
    assert multiset(sorted) == multiset(sorted[..m]) + multiset(sorted[m..]);
  }

  /** Nothing `TopN` leaves out has a larger key than anything it keeps. */
  lemma TopNLeftOut<T>(s: seq<T>, key: T -> int, n: nat, x: T)
    requires x in s && x !in TopN(s, key, n)
    ensures forall i :: 0 <= i < |TopN(s, key, n)| ==> key(x) <= key(TopN(s, key, n)[i])
  {
    var sorted := SortDesc(s, key);
    SortDescPermutes(s, key);
    SortDescSorted(s, key);
    var m := Min(n, |sorted|);
    var r := sorted[..m];
    assert x in multiset(sorted);
    var idx :| 0 <= idx < |sorted| && sorted[idx] == x;
    assert forall i :: 0 <= i < m ==> r[i] == sorted[i];
  }

  /** Among elements of equal key, `TopN` keeps the first ones in input order. */
  lemma TopNStable<T>(s: seq<T>, key: T -> int, n: nat, v: int)
    ensures Filter(TopN(s, key, n), KeyIs(key, v)) <= Filter(s, KeyIs(key, v))
  {
    var sorted := SortDesc(s, key);
    SortDescStable(s, key, v);
    FilterOfPrefix(sorted, Min(n, |sorted|), KeyIs(key, v));
  }

  /** The first index of `x` in `s`, or `|s|`. */
  function IndexOf<T(==)>(s: seq<T>, x: T): (k: nat)
    ensures k <= |s|
    ensures k < |s| <==> x in s
    ensures k < |s| ==> s[k] == x
    ensures forall i :: 0 <= i < k ==> s[i] != x
    decreases |s|
  {
    if s == [] then 0
    else if s[0] == x then 0
    else 1 + IndexOf(s[1..], x)
  }

  /** `[...new Set(s)]`: each element once, in order of first occurrence. */
  function Dedupe<T(==)>(s: seq<T>): (r: seq<T>)
    ensures forall i :: 0 <= i < |r| ==> r[i] in s
    ensures forall i :: 0 <= i < |s| ==> s[i] in r
    ensures forall i, j :: 0 <= i < j < |r| ==> r[i] != r[j]
    decreases |s|
  {
    if s == [] then []
    else
      var front, last := s[..|s| - 1], s[|s| - 1];
      assert s == front + [last];
      var d := Dedupe(front);
      if last in d then d else d + [last]
  }

  lemma IndexOfInPrefix<T>(s: seq<T>, m: nat, x: T)
    requires m <= |s| && x in s[..m]
    ensures IndexOf(s, x) == IndexOf(s[..m], x) < m
  {
    var a, b := IndexOf(s, x), IndexOf(s[..m], x);
    assert s[..m][b] == s[b];
  }

  /** The deduplicated elements appear in the order of their first occurrence in `s`. */
  lemma {:induction false} DedupeFirstOccurrenceOrder<T>(s: seq<T>)
    ensures forall i, j :: 0 <= i < j < |Dedupe(s)| ==> IndexOf(s, Dedupe(s)[i]) < IndexOf(s, Dedupe(s)[j])
    decreases |s|
  {
    if s != [] {
      var n := |s| - 1;
      var front, last := s[..n], s[n];
      assert s == front + [last];
      var d := Dedupe(front);
      DedupeFirstOccurrenceOrder(front);
      forall x | x in d ensures IndexOf(s, x) == IndexOf(front, x) < n {
        IndexOfInPrefix(s, n, x);
      }
      if last !in d {
        assert last !in front;
        assert IndexOf(s, last) == n;
      }
    }
  }

  /** `String.prototype.includes`: `t` occurs in `s` as a contiguous block. */
  predicate Contains<T(==)>(s: seq<T>, t: seq<T>) {
    exists i :: 0 <= i <= |s| && OccursAt(s, t, i)
  }

  predicate OccursAt<T(==)>(s: seq<T>, t: seq<T>, i: nat) {
    i + |t| <= |s| && s[i..i + |t|] == t
  }

  lemma ContainsEmpty<T>(s: seq<T>)
    ensures Contains(s, [])
  {
    assert OccursAt(s, [], 0);
  }
}
