/**
 * Reordering a sequence by a list of positions. The source shuffles with
 * `[...xs].sort(() => 0.5 - Math.random())`; whatever the random numbers,
 * the sort returns the same elements in some order, so the model takes that
 * order as an input: a list of positions that names each position once.
 */
module Shuffles {

  predicate InRange(order: seq<nat>, n: nat) {
    forall k :: 0 <= k < |order| ==> order[k] < n
  }

  predicate Injective(order: seq<nat>) {
    forall j, k :: 0 <= j < k < |order| ==> order[j] != order[k]
  }

  /** order names each of the positions 0 .. n-1 exactly once. */
  predicate IsIndexPermutation(order: seq<nat>, n: nat) {
    |order| == n && InRange(order, n) && Injective(order)
  }

  /** The elements of s at the positions listed in order, in that order. */
  function Reorder<T>(s: seq<T>, order: seq<nat>): (r: seq<T>)
    requires InRange(order, |s|)
    ensures |r| == |order|
  {
    seq(|order|, k requires 0 <= k < |order| => s[order[k]])
  }

  /** Picking elements at distinct positions picks each element at most as often as it occurs. */
  lemma {:induction false} ReorderSubMultiset<T>(s: seq<T>, order: seq<nat>)
    requires InRange(order, |s|) && Injective(order)
    ensures multiset(Reorder(s, order)) <= multiset(s)
    decreases |order|
  {
    if order != [] {
      var last := |order| - 1;
      var j := order[last];
      var init := order[..last];
      var rest := s[..j] + s[j + 1..];
      var shifted := seq(|init|, k requires 0 <= k < |init| => if init[k] < j then init[k] else init[k] - 1);
      forall k | 0 <= k < |init| ensures init[k] != j && shifted[k] < |rest| {
        assert order[k] != order[last];
      }
      assert Reorder(rest, shifted) == Reorder(s, init);
      ReorderSubMultiset(rest, shifted);
      assert Reorder(s, order) == Reorder(s, init) + [s[j]];
      assert s == s[..j] + [s[j]] + s[j + 1..];
      assert multiset(s) == multiset(rest) + multiset{s[j]};
    }
  }

  lemma SubMultisetOfSameSize<T>(a: multiset<T>, b: multiset<T>)
    requires a <= b && |a| == |b|
    ensures a == b
  {
    var c := b - a;
    assert b == a + c;
    assert |c| == 0;
  }

  /** Reordering by a permutation of the positions keeps exactly the same elements. */
  lemma ReorderPermutes<T>(s: seq<T>, order: seq<nat>)
    requires IsIndexPermutation(order, |s|)
    ensures multiset(Reorder(s, order)) == multiset(s)
  {
    ReorderSubMultiset(s, order);
    SubMultisetOfSameSize(multiset(Reorder(s, order)), multiset(s));
  }

  /**
   * The first count elements of a shuffle (`shuffled.slice(0, count)`): distinct
   * positions of s, hence a sub-multiset of s, of length min(count, |s|).
   */
  function Sample<T>(s: seq<T>, count: nat, order: seq<nat>): (r: seq<T>)
    requires IsIndexPermutation(order, |s|)
    ensures |r| == if count <= |s| then count else |s|
    ensures multiset(r) <= multiset(s)
    ensures forall k :: 0 <= k < |r| ==> r[k] == s[order[k]]
  {
    var picked := if count <= |s| then order[..count] else order;
    ReorderSubMultiset(s, picked);
    Reorder(s, picked)
  }
}
