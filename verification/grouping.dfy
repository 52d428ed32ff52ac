/**
 * The converters' "group by name" loops: each element joins the first group
 * whose leading element has the same key, or opens a new group at the end.
 * Groups therefore appear in order of their key's first appearance and keep
 * their elements in input order.
 */
module Grouping {

  /** The keys of `xs` in order of first appearance. */
  function FirstKeys<T, K(==)>(xs: seq<T>, key: T -> K): seq<K>
  {
    if xs == [] then []
    else
      var ks := FirstKeys(xs[..|xs| - 1], key);
      if key(xs[|xs| - 1]) in ks then ks else ks + [key(xs[|xs| - 1])]
  }

  /** The elements of `xs` with key `k`, in input order. */
  function Filter<T, K(==)>(xs: seq<T>, key: T -> K, k: K): seq<T>
  {
    if xs == [] then []
    else Filter(xs[..|xs| - 1], key, k) + (if key(xs[|xs| - 1]) == k then [xs[|xs| - 1]] else [])
  }

  predicate Matches<T, K(==)>(group: seq<T>, key: T -> K, k: K)
  {
    group != [] && key(group[0]) == k
  }

  /** The index of the first group led by key `k`, or `|groups|` when there is none. */
  function FindGroup<T, K(==)>(groups: seq<seq<T>>, key: T -> K, k: K): (j: nat)
    ensures j <= |groups|
    ensures j < |groups| ==> Matches(groups[j], key, k)
    ensures forall i :: 0 <= i < j ==> !Matches(groups[i], key, k)
  {
    if groups == [] then 0
    else if Matches(groups[0], key, k) then 0
    else 1 + FindGroup(groups[1..], key, k)
  }

  /** One iteration of the grouping loop. */
  function AddToGroups<T, K(==)>(groups: seq<seq<T>>, key: T -> K, x: T): seq<seq<T>>
  {
    var j := FindGroup(groups, key, key(x));
    if j < |groups| then groups[j := groups[j] + [x]] else groups + [[x]]
  }

  function GroupBy<T, K(==)>(xs: seq<T>, key: T -> K): (r: seq<seq<T>>)
    ensures forall j :: 0 <= j < |r| ==> r[j] != []
  {
    if xs == [] then [] else AddToGroups(GroupBy(xs[..|xs| - 1], key), key, xs[|xs| - 1])
  }

  /**
   * What grouping produces, stated without the loop: one group per distinct
   * key, in order of first appearance, group j holding exactly the elements
   * with the j-th key in input order.
   */
  lemma {:induction false} GroupByIsFilter<T, K>(xs: seq<T>, key: T -> K)
    ensures |GroupBy(xs, key)| == |FirstKeys(xs, key)|
    ensures forall j :: 0 <= j < |FirstKeys(xs, key)| ==>
      GroupBy(xs, key)[j] == Filter(xs, key, FirstKeys(xs, key)[j]) && Matches(GroupBy(xs, key)[j], key, FirstKeys(xs, key)[j])
    ensures forall i, j :: 0 <= i < j < |FirstKeys(xs, key)| ==> FirstKeys(xs, key)[i] != FirstKeys(xs, key)[j]
    ensures forall k :: k !in FirstKeys(xs, key) ==> Filter(xs, key, k) == []
  {
    if xs != [] {
      var init := xs[..|xs| - 1];
      var x := xs[|xs| - 1];
      GroupByIsFilter(init, key);
      var g := GroupBy(init, key);
      var ks := FirstKeys(init, key);
      var k0 := key(x);
      var j := FindGroup(g, key, k0);
      forall k ensures Filter(xs, key, k) == Filter(init, key, k) + (if k0 == k then [x] else []) {
      }
      if k0 in ks {
        var j0 :| 0 <= j0 < |ks| && ks[j0] == k0;
        assert Matches(g[j0], key, k0);
        assert j == j0;
        assert GroupBy(xs, key) == g[j := g[j] + [x]];
      } else {
        assert j == |g|;
        assert GroupBy(xs, key) == g + [[x]];
        assert FirstKeys(xs, key) == ks + [k0];
      }
    }
  }

  /** There are no more distinct keys than elements. */
  lemma {:induction false} FirstKeysBound<T, K>(xs: seq<T>, key: T -> K)
    ensures |FirstKeys(xs, key)| <= |xs|
  {
    if xs != [] {
      FirstKeysBound(xs[..|xs| - 1], key);
    }
  }

  /** Filtering keeps only elements of the input, with the key asked for. */
  lemma {:induction false} FilterWithin<T, K>(xs: seq<T>, key: T -> K, k: K)
    ensures |Filter(xs, key, k)| <= |xs|
    ensures forall i :: 0 <= i < |Filter(xs, key, k)| ==> Filter(xs, key, k)[i] in xs && key(Filter(xs, key, k)[i]) == k
  {
    if xs != [] {
      FilterWithin(xs[..|xs| - 1], key, k);
      assert forall y :: y in xs[..|xs| - 1] ==> y in xs;
    }
  }

  /** `f` applied to every element, in order. */
  function Mapped<T, U>(xs: seq<T>, f: T -> U): (r: seq<U>)
    ensures |r| == |xs| && forall i :: 0 <= i < |xs| ==> r[i] == f(xs[i])
  {
    seq(|xs|, i requires 0 <= i < |xs| => f(xs[i]))
  }

  /** A change that keeps every key keeps the keys' order of first appearance. */
  lemma {:induction false} MappedFirstKeys<T, K>(xs: seq<T>, f: T -> T, key: T -> K)
    requires forall x :: key(f(x)) == key(x)
    ensures FirstKeys(Mapped(xs, f), key) == FirstKeys(xs, key)
  {
    if xs != [] {
      assert Mapped(xs, f)[..|xs| - 1] == Mapped(xs[..|xs| - 1], f);
      MappedFirstKeys(xs[..|xs| - 1], f, key);
    }
  }

  /** A change that keeps every key can be made before or after filtering. */
  lemma {:induction false} MappedFilter<T, K>(xs: seq<T>, f: T -> T, key: T -> K, k: K)
    requires forall x :: key(f(x)) == key(x)
    ensures Filter(Mapped(xs, f), key, k) == Mapped(Filter(xs, key, k), f)
  {
    if xs != [] {
      var n := |xs| - 1;
      assert Mapped(xs, f)[..n] == Mapped(xs[..n], f);
      MappedFilter(xs[..n], f, key, k);
      var g := Filter(xs[..n], key, k);
      if key(xs[n]) == k {
        assert Mapped(g + [xs[n]], f) == Mapped(g, f) + [f(xs[n])];
      }
    }
  }

  /**
   * Grouping changed elements, when the change keeps every key: one group per
   * distinct key of the original elements, in order of first appearance, the
   * j-th holding exactly the changed elements with the j-th key, in input order.
   */
  lemma GroupByMapped<T, K>(xs: seq<T>, f: T -> T, key: T -> K)
    requires forall x :: key(f(x)) == key(x)
    ensures |GroupBy(Mapped(xs, f), key)| == |FirstKeys(xs, key)|
    ensures forall j :: 0 <= j < |FirstKeys(xs, key)| ==>
      Filter(xs, key, FirstKeys(xs, key)[j]) != []
      && GroupBy(Mapped(xs, f), key)[j] == Mapped(Filter(xs, key, FirstKeys(xs, key)[j]), f)
    ensures forall i, j :: 0 <= i < j < |FirstKeys(xs, key)| ==> FirstKeys(xs, key)[i] != FirstKeys(xs, key)[j]
  {
    var ks := FirstKeys(xs, key);
    MappedFirstKeys(xs, f, key);
    GroupByIsFilter(Mapped(xs, f), key);
    forall j | 0 <= j < |ks|
      ensures Filter(xs, key, ks[j]) != []
      ensures GroupBy(Mapped(xs, f), key)[j] == Mapped(Filter(xs, key, ks[j]), f)
    {
      MappedFilter(xs, f, key, ks[j]);
    }
  }

  /** Every element lands in the group of its key. */
  lemma {:induction false} GroupedElement<T, K>(xs: seq<T>, key: T -> K, i: nat)
    requires i < |xs|
    ensures key(xs[i]) in FirstKeys(xs, key)
  {
    var init := xs[..|xs| - 1];
    var ks := FirstKeys(init, key);
    assert FirstKeys(xs, key) == if key(xs[|xs| - 1]) in ks then ks else ks + [key(xs[|xs| - 1])];
    if i < |xs| - 1 {
      GroupedElement(init, key, i);
      assert init[i] == xs[i];
    }
  }

  /** The converters' nested loop: look for the element's group, append to it or open a new one. */
  method Group<T, K(==)>(xs: seq<T>, key: T -> K) returns (groups: seq<seq<T>>)
    ensures groups == GroupBy(xs, key)
  {
    groups := [];
    var i := 0;
    while i < |xs|
      invariant 0 <= i <= |xs|
      invariant groups == GroupBy(xs[..i], key)
    {
      var x := xs[i];
      var j := 0;
      while j < |groups| && !(groups[j] != [] && key(groups[j][0]) == key(x))
        invariant 0 <= j <= FindGroup(groups, key, key(x))
      {
        j := j + 1;
      }
      if j < |groups| {
        groups := groups[j := groups[j] + [x]];
      } else {
        groups := groups + [[x]];
      }
      assert xs[..i + 1][..i] == xs[..i];
      i := i + 1;
    }
    assert xs[..i] == xs;
  }
}
