/** Index sequences and the view of a list through one. */
module Permutation {

  /** The identity order [0, 1, ..., n-1]. */
  function Iota(n: nat): (r: seq<int>)
    ensures |r| == n
    ensures forall i :: 0 <= i < n ==> r[i] == i
  {
    if n == 0 then [] else Iota(n - 1) + [n - 1]
  }

  /** `s` holds every index of [0, n) exactly once. */
  ghost predicate IsPermutation(s: seq<int>, n: nat) {
    multiset(s) == multiset(Iota(n))
  }

  /** Every entry of `s` is an index into a list of length `n`. */
  ghost predicate InRange(s: seq<int>, n: nat) {
    forall k :: 0 <= k < |s| ==> 0 <= s[k] < n
  }

  /** Each index below n occurs once in the identity order, every other value never. */
  lemma {:induction false} IotaMultiplicity(n: nat, x: int)
    ensures multiset(Iota(n))[x] == if 0 <= x < n then 1 else 0
  {
    if n > 0 {
      IotaMultiplicity(n - 1, x);
      assert Iota(n) == Iota(n - 1) + [n - 1];
    }
  }

  /** A permutation of [0, n) has length n and only entries in [0, n). */
  lemma PermutationBounds(s: seq<int>, n: nat)
    requires IsPermutation(s, n)
    ensures |s| == n && InRange(s, n)
  {
    assert |multiset(s)| == |s| && |multiset(Iota(n))| == n;
    forall k | 0 <= k < |s| ensures 0 <= s[k] < n {
      assert s[k] in multiset(s);
      IotaMultiplicity(n, s[k]);
    }
  }

  /** A permutation of [0, n) has no duplicate entries. */
  lemma PermutationDistinct(s: seq<int>, n: nat, i: int, j: int)
    requires IsPermutation(s, n)
    requires 0 <= i < j < |s|
    ensures s[i] != s[j]
  {
    if s[i] == s[j] {
      var x := s[i];
      assert s == s[..j] + [s[j]] + s[j+1..];
      assert s[..j][i] == x;
      assert multiset(s[..j])[x] >= 1;
      assert multiset(s)[x] >= 2;
      IotaMultiplicity(n, x);
      assert false;
    }
  }

  /** The list seen through an index order: entry i of the result is list[order[i]]. */
  function Permute<T>(list: seq<T>, order: seq<int>): (r: seq<T>)
    requires InRange(order, |list|)
    ensures |r| == |order|
    ensures forall i :: 0 <= i < |order| ==> r[i] == list[order[i]]
  {
    seq(|order|, i requires 0 <= i < |order| => list[order[i]])
  }

  /** Viewing through the identity order gives the list back. */
  lemma PermuteIota<T>(list: seq<T>)
    ensures InRange(Iota(|list|), |list|) && Permute(list, Iota(|list|)) == list
  {
  }

  /** Taking one element out of a sequence takes it out of its multiset. */
  lemma MultisetRemove<U>(t: seq<U>, k: int)
    requires 0 <= k < |t|
    ensures multiset(t) == multiset(t[..k] + t[k+1..]) + multiset{t[k]}
  {
    assert t == t[..k] + [t[k]] + t[k+1..];
  }

  /** Removing equal elements from sequences with equal multisets keeps the multisets equal. */
  lemma MultisetRemoveBoth<U>(s: seq<U>, t: seq<U>, k: int)
    requires |s| > 0 && 0 <= k < |t| && t[k] == s[0]
    requires multiset(s) == multiset(t)
    ensures multiset(s[1..]) == multiset(t[..k] + t[k+1..])
  {
    MultisetRemove(t, k);
    MultisetRemove(s, 0);
    assert s[..0] + s[1..] == s[1..];
    assert multiset(s[1..]) == multiset(s) - multiset{s[0]};
  }

  /** Removing entry k from an order removes list[order[k]] from its view. */
  lemma PermuteRemove<T>(list: seq<T>, order: seq<int>, k: int)
    requires InRange(order, |list|) && 0 <= k < |order|
    ensures InRange(order[..k] + order[k+1..], |list|)
    ensures multiset(Permute(list, order))
         == multiset(Permute(list, order[..k] + order[k+1..])) + multiset{list[order[k]]}
  {
    var p := Permute(list, order);
    MultisetRemove(p, k);
    assert p[..k] + p[k+1..] == Permute(list, order[..k] + order[k+1..]);
  }

  /** Two orders holding the same indices give views with the same elements. */
  lemma {:induction false} PermuteSameMultiset<T>(list: seq<T>, s: seq<int>, t: seq<int>)
    requires InRange(s, |list|) && InRange(t, |list|)
    requires multiset(s) == multiset(t)
    ensures multiset(Permute(list, s)) == multiset(Permute(list, t))
    decreases |s|
  {
    if s == [] {
      assert |multiset(t)| == 0;
    } else {
      assert s[0] in multiset(t);
      var k :| 0 <= k < |t| && t[k] == s[0];
      MultisetRemoveBoth(s, t, k);
      PermuteRemove(list, s, 0);
      PermuteRemove(list, t, k);
      assert s[..0] + s[1..] == s[1..];
      PermuteSameMultiset(list, s[1..], t[..k] + t[k+1..]);
    }
  }

  /** Viewing a list through a permutation of its indices keeps the multiset of its elements. */
  lemma PermuteMultiset<T>(list: seq<T>, order: seq<int>)
    requires IsPermutation(order, |list|)
    ensures InRange(order, |list|)
    ensures |Permute(list, order)| == |list|
    ensures multiset(Permute(list, order)) == multiset(list)
  {
    PermutationBounds(order, |list|);
    PermuteIota(list);
    PermuteSameMultiset(list, order, Iota(|list|));
  }
}
