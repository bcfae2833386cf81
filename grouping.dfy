/**
 * Grouping by a key with JavaScript's `reduce` into a record: `acc[key(x)]` is created on the
 * first element with that key and then updated in place; `Object.entries(acc)` lists the keys
 * in order of first insertion.
 */
module Grouping {
  import opened Wrappers
  import opened Seqs

  /** One entry of the accumulator: the key, the sum of the weights and the number of elements. */
  datatype Group<K> = Group(key: K, sum: real, count: nat)

  function IndexOfKey<K(==)>(acc: seq<Group<K>>, k: K): (r: Option<nat>)
    ensures r.Some? ==> r.value < |acc| && acc[r.value].key == k
    ensures r.None? ==> forall i :: 0 <= i < |acc| ==> acc[i].key != k
  {
    if acc == [] then None
    else if acc[|acc| - 1].key == k then Some(|acc| - 1)
    else IndexOfKey(acc[..|acc| - 1], k)
  }

  /** The reduce step: adds `x` to the entry of its key, creating it at the end if new. */
  function AddTo<T, K(==)>(acc: seq<Group<K>>, x: T, key: T -> K, w: T -> real): seq<Group<K>> {
    match IndexOfKey(acc, key(x))
    case Some(i) => acc[i := Group(acc[i].key, acc[i].sum + w(x), acc[i].count + 1)]
    case None => acc + [Group(key(x), w(x), 1)]
  }

  function GroupBy<T, K(==)>(s: seq<T>, key: T -> K, w: T -> real): seq<Group<K>> {
    if s == [] then [] else AddTo(GroupBy(s[..|s| - 1], key, w), s[|s| - 1], key, w)
  }

  function KeyIs<T, K(==)>(key: T -> K, k: K): T -> bool { (x: T) => key(x) == k }

  /** The elements whose key is `k`, in order. */
  function Members<T, K(==)>(s: seq<T>, key: T -> K, k: K): seq<T> {
    Filter(s, KeyIs(key, k))
  }

  /** The step keeps the existing keys in place and adds the new key at most once, at the end. */
  lemma AddToKeys<T, K>(acc: seq<Group<K>>, x: T, key: T -> K, w: T -> real)
    ensures var r := AddTo(acc, x, key, w);
      && |acc| <= |r| <= |acc| + 1
      && (forall i :: 0 <= i < |acc| ==> r[i].key == acc[i].key)
      && (|r| == |acc| + 1 ==> r[|acc|].key == key(x)
                               && forall i :: 0 <= i < |acc| ==> acc[i].key != key(x))
      && (exists i :: 0 <= i < |r| && r[i].key == key(x))
  {
    match IndexOfKey(acc, key(x))
    case Some(i) =>
    case None => assert AddTo(acc, x, key, w)[|acc|].key == key(x);
  }

  ghost predicate HasEntry<K>(g: seq<Group<K>>, k: K) {
    exists i :: 0 <= i < |g| && g[i].key == k
  }

  /** The key of the `k`-th element has an entry. */
  lemma {:induction false} GroupByCoversOne<T, K>(s: seq<T>, key: T -> K, w: T -> real, k: nat)
    requires k < |s|
    ensures HasEntry(GroupBy(s, key, w), key(s[k]))
    decreases |s|
  {
    var init := s[..|s| - 1];
    var acc := GroupBy(init, key, w);
    AddToKeys(acc, s[|s| - 1], key, w);
    assert GroupBy(s, key, w) == AddTo(acc, s[|s| - 1], key, w);
    if k < |init| {
      GroupByCoversOne(init, key, w, k);
      assert s[k] == init[k];
      var i :| 0 <= i < |acc| && acc[i].key == key(init[k]);
      assert GroupBy(s, key, w)[i].key == acc[i].key;
    }
  }

  /** Every key of the input has an entry. */
  lemma GroupByCovers<T, K>(s: seq<T>, key: T -> K, w: T -> real)
    ensures forall k :: 0 <= k < |s| ==> HasEntry(GroupBy(s, key, w), key(s[k]))
  {
    forall k | 0 <= k < |s| ensures HasEntry(GroupBy(s, key, w), key(s[k])) {
      GroupByCoversOne(s, key, w, k);
    }
  }

  /** No key has two entries. */
  lemma {:induction false} GroupByDistinct<T, K>(s: seq<T>, key: T -> K, w: T -> real)
    ensures forall i, j :: 0 <= i < j < |GroupBy(s, key, w)| ==> GroupBy(s, key, w)[i].key != GroupBy(s, key, w)[j].key
    decreases |s|
  {
    if s != [] {
      GroupByDistinct(s[..|s| - 1], key, w);
      AddToKeys(GroupBy(s[..|s| - 1], key, w), s[|s| - 1], key, w);
    }
  }

  lemma MembersLast<T, K>(s: seq<T>, key: T -> K, k: K)
    requires s != []
    ensures Members(s, key, k) ==
      if key(s[|s| - 1]) == k then Members(s[..|s| - 1], key, k) + [s[|s| - 1]] else Members(s[..|s| - 1], key, k)
  {
  }

  lemma SumSnoc<T>(a: seq<T>, x: T, w: T -> real)
    ensures Sum(a + [x], w) == Sum(a, w) + w(x)
  {
    assert (a + [x])[..|a|] == a;
  }

  /** The entry `e` holds the weight sum and the number of the elements of `s` with its key. */
  ghost predicate EntryRight<T, K>(s: seq<T>, key: T -> K, w: T -> real, e: Group<K>) {
    e.sum == Sum(Members(s, key, e.key), w) && e.count == |Members(s, key, e.key)| && e.count > 0
  }

  /** An entry whose key is not the new element's is unchanged, and so are its members. */
  lemma StepOther<T, K>(s: seq<T>, key: T -> K, w: T -> real, e: Group<K>)
    requires s != [] && key(s[|s| - 1]) != e.key && EntryRight(s[..|s| - 1], key, w, e)
    ensures EntryRight(s, key, w, e)
  {
    MembersLast(s, key, e.key);
  }

  /** The entry of the new element's key gains its weight and one more member. */
  lemma StepHit<T, K>(s: seq<T>, key: T -> K, w: T -> real, e: Group<K>)
    requires s != [] && key(s[|s| - 1]) == e.key && EntryRight(s[..|s| - 1], key, w, e)
    ensures EntryRight(s, key, w, Group(e.key, e.sum + w(s[|s| - 1]), e.count + 1))
  {
    MembersLast(s, key, e.key);
    SumSnoc(Members(s[..|s| - 1], key, e.key), s[|s| - 1], w);
  }

  /** A key seen for the first time has the new element as its only member. */
  lemma StepNew<T, K>(s: seq<T>, key: T -> K, w: T -> real, acc: seq<Group<K>>)
    requires s != [] && forall k :: 0 <= k < |s| - 1 ==> HasEntry(acc, key(s[k]))
    requires !HasEntry(acc, key(s[|s| - 1]))
    ensures EntryRight(s, key, w, Group(key(s[|s| - 1]), w(s[|s| - 1]), 1))
  {
    var init := s[..|s| - 1];
    var k := key(s[|s| - 1]);
    forall j | 0 <= j < |init| ensures !KeyIs(key, k)(init[j]) {
      assert HasEntry(acc, key(s[j]));
    }
    FilterNone(init, KeyIs(key, k));
    MembersLast(s, key, k);
    SumSnoc([], s[|s| - 1], w);
  }

  /** One entry after one more element, given the entries of all elements before it. */
  lemma GroupByStep<T, K>(s: seq<T>, key: T -> K, w: T -> real, acc: seq<Group<K>>, i: nat)
    requires s != []
    requires forall j :: 0 <= j < |acc| ==> EntryRight(s[..|s| - 1], key, w, acc[j])
    requires forall k :: 0 <= k < |s| - 1 ==> HasEntry(acc, key(s[k]))
    requires forall a, b :: 0 <= a < b < |acc| ==> acc[a].key != acc[b].key
    requires i < |AddTo(acc, s[|s| - 1], key, w)|
    ensures EntryRight(s, key, w, AddTo(acc, s[|s| - 1], key, w)[i])
  {
    var x := s[|s| - 1];
    match IndexOfKey(acc, key(x))
    case Some(j) =>
      if i == j {
        StepHit(s, key, w, acc[i]);
      } else {
        StepOther(s, key, w, acc[i]);
      }
    case None =>
      if i < |acc| {
        StepOther(s, key, w, acc[i]);
      } else {
        StepNew(s, key, w, acc);
      }
  }

  /** Each entry holds the weight sum and the number of the elements with its key. */
  lemma {:induction false} GroupByTotals<T, K>(s: seq<T>, key: T -> K, w: T -> real)
    ensures forall i :: 0 <= i < |GroupBy(s, key, w)| ==> EntryRight(s, key, w, GroupBy(s, key, w)[i])
    decreases |s|
  {
    if s != [] {
      var init := s[..|s| - 1];
      GroupByTotals(init, key, w);
      GroupByCovers(init, key, w);
      GroupByDistinct(init, key, w);
      var acc := GroupBy(init, key, w);
      forall k | 0 <= k < |s| - 1 ensures HasEntry(acc, key(s[k])) {
        assert s[k] == init[k];
      }
      forall i | 0 <= i < |GroupBy(s, key, w)| ensures EntryRight(s, key, w, GroupBy(s, key, w)[i]) {
        GroupByStep(s, key, w, acc, i);
      }
    }
  }

  function SumCounts<K>(g: seq<Group<K>>): int {
    if g == [] then 0 else SumCounts(g[..|g| - 1]) + g[|g| - 1].count
  }

  lemma {:induction false} SumCountsBump<K>(g: seq<Group<K>>, i: nat, e: Group<K>)
    requires i < |g| && e.count == g[i].count + 1
    ensures SumCounts(g[i := e]) == SumCounts(g) + 1
    decreases |g|
  {
    var n := |g| - 1;
    if i == n {
      assert g[i := e][..n] == g[..n];
    } else {
      SumCountsBump(g[..n], i, e);
      assert g[i := e][..n] == g[..n][i := e];
    }
  }

  /** The counts add up to the number of elements: every element lands in exactly one entry. */
  lemma {:induction false} GroupByCountsSum<T, K>(s: seq<T>, key: T -> K, w: T -> real)
    ensures SumCounts(GroupBy(s, key, w)) == |s|
    decreases |s|
  {
    if s != [] {
      var acc := GroupBy(s[..|s| - 1], key, w);
      GroupByCountsSum(s[..|s| - 1], key, w);
      var x := s[|s| - 1];
      match IndexOfKey(acc, key(x))
      case Some(i) =>
        SumCountsBump(acc, i, Group(acc[i].key, acc[i].sum + w(x), acc[i].count + 1));
      case None =>
        var r := acc + [Group(key(x), w(x), 1)];
        assert r[..|acc|] == acc;
    }
  }
}
