/**
 * Sequence combinators with the semantics of JavaScript's `filter`, `reduce` (sum),
 * `slice(0, n)` and the stable `sort`.
 */
module Seqs {
  import opened Wrappers

  // ---------------------------------------------------------------- find

  /** `s.find(p)`: the first element satisfying `p`, or `None` (undefined) when there is none. */
  function FindFirst<T>(s: seq<T>, p: T -> bool): (r: Option<T>)
    ensures r.None? <==> forall i :: 0 <= i < |s| ==> !p(s[i])
    ensures r.Some? ==> exists i :: 0 <= i < |s| && s[i] == r.value && p(s[i])
                                    && forall j :: 0 <= j < i ==> !p(s[j])
  {
    if s == [] then None
    else if p(s[0]) then Some(s[0])
    else
      var r := FindFirst(s[1..], p);
      assert r.Some? ==> exists i :: 1 <= i < |s| && s[i] == r.value && p(s[i])
                                     && forall j :: 0 <= j < i ==> !p(s[j]) by {
        if r.Some? {
          var i :| 0 <= i < |s[1..]| && s[1..][i] == r.value && p(s[1..][i])
                   && forall j :: 0 <= j < i ==> !p(s[1..][j]);
          assert s[i + 1] == r.value && p(s[i + 1]);
          forall j | 0 <= j < i + 1 ensures !p(s[j]) {
            if j > 0 { assert s[j] == s[1..][j - 1]; }
          }
        }
      }
      r
  }

  // ---------------------------------------------------------------- filter

  /** `s.filter(p)`. */
  function Filter<T>(s: seq<T>, p: T -> bool): (r: seq<T>)
    ensures |r| <= |s|
  {
    if s == [] then [] else
      var r := Filter(s[..|s| - 1], p);
      if p(s[|s| - 1]) then r + [s[|s| - 1]] else r
  }

  /** Exactly the elements satisfying `p` are kept, and none is added. */
  lemma {:induction false} FilterMembers<T>(s: seq<T>, p: T -> bool)
    ensures forall i :: 0 <= i < |Filter(s, p)| ==> p(Filter(s, p)[i]) && Filter(s, p)[i] in s
    ensures forall i :: 0 <= i < |s| && p(s[i]) ==> s[i] in Filter(s, p)
    ensures multiset(Filter(s, p)) <= multiset(s)
    decreases |s|
  {
    if s != [] {
      var init := s[..|s| - 1];
      FilterMembers(init, p);
      assert s == init + [s[|s| - 1]];
      forall i | 0 <= i < |s| && p(s[i]) ensures s[i] in Filter(s, p) {
        if i < |init| {
          assert s[i] == init[i];
        }
      }
    }
  }

  /** Nothing is kept when no element satisfies `p`. */
  lemma {:induction false} FilterNone<T>(s: seq<T>, p: T -> bool)
    requires forall k :: 0 <= k < |s| ==> !p(s[k])
    ensures Filter(s, p) == []
    decreases |s|
  {
    if s != [] {
      FilterNone(s[..|s| - 1], p);
    }
  }

  lemma FilterAppend<T>(a: seq<T>, b: seq<T>, p: T -> bool)
    ensures Filter(a + b, p) == Filter(a, p) + Filter(b, p)
    decreases |b|
  {
    if b == [] {
      assert a + b == a;
    } else {
      assert (a + b)[..|a + b| - 1] == a + b[..|b| - 1];
      FilterAppend(a, b[..|b| - 1], p);
    }
  }

  /** `a` is an order-preserving subsequence of `b`. */
  predicate IsSubsequence<T(==)>(a: seq<T>, b: seq<T>)
    decreases |b|
  {
    if a == [] then true
    else if b == [] then false
    else if a[|a| - 1] == b[|b| - 1] then IsSubsequence(a[..|a| - 1], b[..|b| - 1])
    else IsSubsequence(a, b[..|b| - 1])
  }

  lemma {:induction false} FilterIsSubsequence<T>(s: seq<T>, p: T -> bool)
    ensures IsSubsequence(Filter(s, p), s)
    decreases |s|
  {
    if s != [] {
      FilterIsSubsequence(s[..|s| - 1], p);
      FilterMembers(s[..|s| - 1], p);
      var r := Filter(s, p);
      if p(s[|s| - 1]) {
        assert r[..|r| - 1] == Filter(s[..|s| - 1], p);
      }
    }
  }

  /** The complement of a predicate. */
  function Not<T>(p: T -> bool): T -> bool { (x: T) => !p(x) }

  /** Everything is kept when every element satisfies `p`. */
  lemma {:induction false} FilterAll<T>(s: seq<T>, p: T -> bool)
    requires forall k :: 0 <= k < |s| ==> p(s[k])
    ensures Filter(s, p) == s
    decreases |s|
  {
    if s != [] {
      FilterAll(s[..|s| - 1], p);
      assert s == s[..|s| - 1] + [s[|s| - 1]];
    }
  }

  /** A filter drops nothing exactly when every element satisfies `p`. */
  lemma {:induction false} FilterKeepsAllIff<T>(s: seq<T>, p: T -> bool)
    ensures |Filter(s, p)| == |s| <==> forall k :: 0 <= k < |s| ==> p(s[k])
    decreases |s|
  {
    if s != [] {
      var init := s[..|s| - 1];
      FilterKeepsAllIff(init, p);
      assert forall k :: 0 <= k < |init| ==> s[k] == init[k];
    }
  }

  /** Filtering by `q` and then by `p` is filtering by their conjunction `r`. */
  lemma {:induction false} FilterConj<T>(s: seq<T>, p: T -> bool, q: T -> bool, r: T -> bool)
    requires forall x :: r(x) == (q(x) && p(x))
    ensures Filter(Filter(s, q), p) == Filter(s, r)
    decreases |s|
  {
    if s != [] {
      FilterConj(s[..|s| - 1], p, q, r);
      var fq := Filter(s, q);
      if q(s[|s| - 1]) {
        assert fq[..|fq| - 1] == Filter(s[..|s| - 1], q);
      }
    }
  }

  /** `s` in reverse order. */
  function Reverse<T>(s: seq<T>): (r: seq<T>)
    ensures |r| == |s| && forall i :: 0 <= i < |s| ==> r[i] == s[|s| - 1 - i]
  {
    seq(|s|, i requires 0 <= i < |s| => s[|s| - 1 - i])
  }

  /** `s.map(f)`. */
  function Map<T, U>(s: seq<T>, f: T -> U): (r: seq<U>)
    ensures |r| == |s| && forall i :: 0 <= i < |s| ==> r[i] == f(s[i])
  {
    seq(|s|, i requires 0 <= i < |s| => f(s[i]))
  }

  function Count<T>(s: seq<T>, p: T -> bool): nat { |Filter(s, p)| }

  // ---------------------------------------------------------------- flat map

  /** `s.forEach(x => out.push(...f(x)))`: the entries of each element in turn. */
  function FlatMap<T, U>(s: seq<T>, f: T -> seq<U>): seq<U> {
    if s == [] then [] else FlatMap(s[..|s| - 1], f) + f(s[|s| - 1])
  }

  /** Something is in the flat map exactly when it is among the entries of some element. */
  lemma {:induction false} FlatMapMembership<T, U>(s: seq<T>, f: T -> seq<U>, x: U)
    ensures x in FlatMap(s, f) <==> exists k :: 0 <= k < |s| && x in f(s[k])
    decreases |s|
  {
    if s != [] {
      var init := s[..|s| - 1];
      var last := |s| - 1;
      FlatMapMembership(init, f, x);
      if x in FlatMap(s, f) {
        if x in FlatMap(init, f) {
          var k :| 0 <= k < |init| && x in f(init[k]);
          assert s[k] == init[k];
        } else {
          assert x in f(s[last]);
        }
      }
      if exists k :: 0 <= k < |s| && x in f(s[k]) {
        var k :| 0 <= k < |s| && x in f(s[k]);
        if k < |init| {
          assert s[k] == init[k];
        }
      }
    }
  }

  lemma FlatMapStep<T, U>(s: seq<T>, f: T -> seq<U>, i: nat)
    requires i < |s|
    ensures FlatMap(s[..i + 1], f) == FlatMap(s[..i], f) + f(s[i])
  {
    assert s[..i + 1][..i] == s[..i];
  }

  // ---------------------------------------------------------------- sums

  /** `s.reduce((sum, x) => sum + f(x), 0)`. */
  function Sum<T>(s: seq<T>, f: T -> real): real {
    if s == [] then 0.0 else Sum(s[..|s| - 1], f) + f(s[|s| - 1])
  }

  lemma SumAppend<T>(a: seq<T>, b: seq<T>, f: T -> real)
    ensures Sum(a + b, f) == Sum(a, f) + Sum(b, f)
    decreases |b|
  {
    if b == [] {
      assert a + b == a;
    } else {
      assert (a + b)[..|a + b| - 1] == a + b[..|b| - 1];
      SumAppend(a, b[..|b| - 1], f);
    }
  }

  /** Filtering by a weaker predicate first does not change a filter by a stronger one. */
  lemma {:induction false} FilterSubsumed<T>(s: seq<T>, p: T -> bool, q: T -> bool)
    requires forall x :: p(x) ==> q(x)
    ensures Filter(Filter(s, q), p) == Filter(s, p)
    decreases |s|
  {
    if s != [] {
      FilterSubsumed(s[..|s| - 1], p, q);
      var fq := Filter(s, q);
      if q(s[|s| - 1]) {
        assert fq[..|fq| - 1] == Filter(s[..|s| - 1], q);
      }
    }
  }

  /** A sum splits into the sum over the elements satisfying `p` and over the rest. */
  lemma {:induction false} SumPartition<T>(s: seq<T>, f: T -> real, p: T -> bool)
    ensures Sum(s, f) == Sum(Filter(s, p), f) + Sum(Filter(s, Not(p)), f)
    decreases |s|
  {
    if s != [] {
      SumPartition(s[..|s| - 1], f, p);
      var last := s[|s| - 1];
      var a := Filter(s, p);
      var b := Filter(s, Not(p));
      if p(last) {
        assert a[..|a| - 1] == Filter(s[..|s| - 1], p);
      } else {
        assert b[..|b| - 1] == Filter(s[..|s| - 1], Not(p));
      }
    }
  }

  // ---------------------------------------------------------------- slice

  /** `s.slice(0, n)`. */
  function Take<T>(s: seq<T>, n: nat): (r: seq<T>)
    ensures |r| == if |s| < n then |s| else n
    ensures r == s[..|r|]
  {
    if |s| <= n then s else s[..n]
  }

  // ---------------------------------------------------------------- stable sort

  /** `before(a, b)`: `a` must come strictly before `b` (a comparator returning < 0). */
  ghost predicate StrictOrder<T(!new)>(before: (T, T) -> bool) {
    (forall x :: !before(x, x))
    && (forall x, y, z :: before(x, y) && before(y, z) ==> before(x, z))
  }

  /** No element is placed after one it must come before. */
  ghost predicate SortedBy<T>(s: seq<T>, before: (T, T) -> bool) {
    forall i, j :: 0 <= i < j < |s| ==> !before(s[j], s[i])
  }

  /** Inserts `x` after every element it does not have to precede (keeps ties in order). */
  function Insert<T>(x: T, s: seq<T>, before: (T, T) -> bool): (r: seq<T>)
    ensures |r| == |s| + 1
    ensures multiset(r) == multiset(s) + multiset{x}
  {
    if s == [] then [x]
    else if before(x, s[0]) then [x] + s
    else
      assert s == [s[0]] + s[1..];
      [s[0]] + Insert(x, s[1..], before)
  }

  /** Insertion sort in the order elements arrive: JavaScript's stable `sort`. */
  function Sort<T>(s: seq<T>, before: (T, T) -> bool): (r: seq<T>)
    ensures |r| == |s|
    ensures multiset(r) == multiset(s)
  {
    if s == [] then []
    else
      assert s == s[..|s| - 1] + [s[|s| - 1]];
      Insert(s[|s| - 1], Sort(s[..|s| - 1], before), before)
  }

  lemma {:induction false} InsertSorted<T(!new)>(x: T, s: seq<T>, before: (T, T) -> bool)
    requires StrictOrder(before) && SortedBy(s, before)
    ensures SortedBy(Insert(x, s, before), before)
    decreases |s|
  {
    if s != [] && !before(x, s[0]) {
      InsertSorted(x, s[1..], before);
      var r := Insert(x, s, before);
      assert r[1..] == Insert(x, s[1..], before);
      forall j | 0 < j < |r| ensures !before(r[j], r[0]) {
        assert r[j] in multiset(s[1..]) + multiset{x};
        if r[j] == x {
        } else {
          assert r[j] in s[1..];
          var k :| 0 <= k < |s[1..]| && s[1..][k] == r[j];
          assert s[k + 1] == r[j];
        }
      }
    }
  }

  lemma {:induction false} SortSorted<T(!new)>(s: seq<T>, before: (T, T) -> bool)
    requires StrictOrder(before)
    ensures SortedBy(Sort(s, before), before)
  {
    if s != [] {
      SortSorted(s[..|s| - 1], before);
      InsertSorted(s[|s| - 1], Sort(s[..|s| - 1], before), before);
    }
  }

  /** Orders by a numeric key, largest first (`sort((a, b) => key(b) - key(a))`). */
  function ByKeyDesc<T>(key: T -> real): (T, T) -> bool {
    (a: T, b: T) => key(a) > key(b)
  }

  lemma ByKeyDescIsStrict<T(!new)>(key: T -> real)
    ensures StrictOrder(ByKeyDesc(key))
  {
  }

  /** The result of sorting by a descending key is ordered by that key, largest first. */
  lemma SortByKeyDesc<T(!new)>(s: seq<T>, key: T -> real)
    ensures forall i, j :: 0 <= i < j < |Sort(s, ByKeyDesc(key))| ==>
      key(Sort(s, ByKeyDesc(key))[i]) >= key(Sort(s, ByKeyDesc(key))[j])
  {
    ByKeyDescIsStrict(key);
    SortSorted(s, ByKeyDesc(key));
  }

  /** Of a list sorted by a descending key, the first `n` have keys at least those of the rest. */
  lemma TakeSortedIsTop<T(!new)>(s: seq<T>, key: T -> real, n: nat)
    ensures var sorted := Sort(s, ByKeyDesc(key));
      && multiset(Take(sorted, n)) + multiset(sorted[|Take(sorted, n)|..]) == multiset(s)
      && forall i, j :: 0 <= i < |Take(sorted, n)| <= j < |sorted| ==> key(sorted[i]) >= key(sorted[j])
  {
    var sorted := Sort(s, ByKeyDesc(key));
    SortByKeyDesc(s, key);
    var k := |Take(sorted, n)|;
    assert Take(sorted, n) == sorted[..k];
    SplitMultiset(sorted, k);
  }

  /** The elements whose key is `k`. */
  function WithKey<T>(key: T -> real, k: real): T -> bool { (x: T) => key(x) == k }

  /** Inserting into a list sorted by a descending key puts `x` after every element with its key. */
  lemma {:induction false} InsertStable<T(!new)>(x: T, s: seq<T>, key: T -> real, k: real)
    requires SortedBy(s, ByKeyDesc(key))
    ensures Filter(Insert(x, s, ByKeyDesc(key)), WithKey(key, k))
            == Filter(s, WithKey(key, k)) + Filter([x], WithKey(key, k))
    decreases |s|
  {
    var p := WithKey(key, k);
    var before := ByKeyDesc(key);
    assert [x][..0] == [];
    if s == [] {
    } else if before(x, s[0]) {
      FilterAppend([x], s, p);
      if key(x) == k {
        forall j | 0 <= j < |s| ensures !p(s[j]) {
          if j > 0 { assert !before(s[j], s[0]); }
        }
        FilterNone(s, p);
      }
    } else {
      assert s == [s[0]] + s[1..];
      assert SortedBy(s[1..], before) by {
        forall i, j | 0 <= i < j < |s[1..]| ensures !before(s[1..][j], s[1..][i]) {
          assert s[1..][j] == s[j + 1] && s[1..][i] == s[i + 1];
        }
      }
      InsertStable(x, s[1..], key, k);
      FilterAppend([s[0]], Insert(x, s[1..], before), p);
      FilterAppend([s[0]], s[1..], p);
    }
  }

  /** Sorting by a descending key keeps the elements of each key in their original order. */
  lemma {:induction false} SortStable<T(!new)>(s: seq<T>, key: T -> real, k: real)
    ensures Filter(Sort(s, ByKeyDesc(key)), WithKey(key, k)) == Filter(s, WithKey(key, k))
    decreases |s|
  {
    if s != [] {
      var init, last := s[..|s| - 1], s[|s| - 1];
      assert s == init + [last];
      var p := WithKey(key, k);
      var sortedInit := Sort(init, ByKeyDesc(key));
      assert Sort(s, ByKeyDesc(key)) == Insert(last, sortedInit, ByKeyDesc(key));
      SortStable(init, key, k);
      SortIsSortedByKeyDesc(init, key);
      InsertStable(last, sortedInit, key, k);
      FilterAppend(init, [last], p);
    }
  }

  lemma SortIsSortedByKeyDesc<T(!new)>(s: seq<T>, key: T -> real)
    ensures SortedBy(Sort(s, ByKeyDesc(key)), ByKeyDesc(key))
  {
    ByKeyDescIsStrict(key);
    SortSorted(s, ByKeyDesc(key));
  }

  /** `SortStable` for every key at once. */
  lemma SortKeepsTies<T(!new)>(s: seq<T>, key: T -> real)
    ensures forall k :: Filter(Sort(s, ByKeyDesc(key)), WithKey(key, k)) == Filter(s, WithKey(key, k))
  {
    forall k ensures Filter(Sort(s, ByKeyDesc(key)), WithKey(key, k)) == Filter(s, WithKey(key, k)) {
      SortStable(s, key, k);
    }
  }

  lemma SplitMultiset<T>(s: seq<T>, k: nat)
    requires k <= |s|
    ensures multiset(s[..k]) + multiset(s[k..]) == multiset(s)
  {
    assert s == s[..k] + s[k..];
  }
}
