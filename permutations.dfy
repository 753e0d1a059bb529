/**
 * Permutations of [0, n): the reference definition both tensor metadata
 * validators are proved against, and the sort of a copied vector that the
 * fixed-shape validator uses to decide it.
 */
module Permutations {

  /** The sequence 0, 1, ..., n-1. */
  function Range(n: nat): (r: seq<int>)
    ensures |r| == n
    ensures forall i :: 0 <= i < n ==> r[i] == i
  {
    seq(n, i => i)
  }

  predicate InRange(p: seq<int>, n: int) {
    forall i :: 0 <= i < |p| ==> 0 <= p[i] < n
  }

  predicate Distinct(p: seq<int>) {
    forall i, j :: 0 <= i < j < |p| ==> p[i] != p[j]
  }

  /** p is a bijection of [0, |p|): every entry is in range and none repeats. */
  predicate IsPermutation(p: seq<int>) {
    InRange(p, |p|) && Distinct(p)
  }

  /** s[i] == i at every index: s is 0, 1, ..., |s|-1. */
  predicate IsIdentity(s: seq<int>) {
    forall i :: 0 <= i < |s| ==> s[i] == i
  }

  predicate Sorted(s: seq<int>) {
    forall i, j :: 0 <= i < j < |s| ==> s[i] <= s[j]
  }

  /** Inserts x into a sorted sequence, keeping it sorted. */
  function Insert(x: int, s: seq<int>): (r: seq<int>)
    requires Sorted(s)
    ensures multiset(r) == multiset(s) + multiset{x}
  {
    if s == [] || x <= s[0] then
      [x] + s
    else
      assert s == [s[0]] + s[1..];
      [s[0]] + Insert(x, s[1..])
  }

  lemma {:induction false} InsertSorted(x: int, s: seq<int>)
    requires Sorted(s)
    ensures Sorted(Insert(x, s))
  {
    if s != [] && x > s[0] {
      var tail := Insert(x, s[1..]);
      InsertSorted(x, s[1..]);
      forall e | e in tail ensures s[0] <= e {
        assert e in multiset(tail);
      }
      var r := [s[0]] + tail;
      forall i, j | 0 <= i < j < |r| ensures r[i] <= r[j] {
        if i == 0 {
          assert r[j] == tail[j - 1];
          assert r[j] in tail;
        } else {
          assert r[i] == tail[i - 1] && r[j] == tail[j - 1];
        }
      }
    }
  }

  /**
   * The sorted copy of p. The source sorts a copy of the permutation with a
   * library sort; this is that sort's contract: sorted and a rearrangement.
   */
  function SortCopy(p: seq<int>): (r: seq<int>)
    ensures Sorted(r)
    ensures multiset(r) == multiset(p)
    ensures |r| == |p|
  {
    if p == [] then []
    else
      assert p == [p[0]] + p[1..];
      InsertSorted(p[0], SortCopy(p[1..]));
      var r := Insert(p[0], SortCopy(p[1..]));
      assert |r| == |multiset(r)|;
      r
  }

  lemma {:induction false} DistinctCountsAtMostOne(s: seq<int>, v: int)
    requires Distinct(s)
    ensures multiset(s)[v] <= 1
  {
    if s != [] {
      assert s == [s[0]] + s[1..];
      DistinctCountsAtMostOne(s[1..], v);
      if s[0] == v {
        assert v !in s[1..];
      }
    }
  }

  lemma {:induction false} RepeatCountsTwice(t: seq<int>, i: nat, j: nat)
    requires i < j < |t| && t[i] == t[j]
    ensures multiset(t)[t[i]] >= 2
  {
    assert t == t[..i] + [t[i]] + t[i+1..j] + [t[j]] + t[j+1..];
  }

  /** Having no repeats depends only on the multiset of entries. */
  lemma {:induction false} DistinctTransfers(s: seq<int>, t: seq<int>)
    requires multiset(s) == multiset(t) && Distinct(s)
    ensures Distinct(t)
  {
    forall i, j | 0 <= i < j < |t| ensures t[i] != t[j] {
      if t[i] == t[j] {
        RepeatCountsTwice(t, i, j);
        DistinctCountsAtMostOne(s, t[i]);
        assert false;
      }
    }
  }

  /** Being in range depends only on the multiset of entries. */
  lemma {:induction false} InRangeTransfers(s: seq<int>, t: seq<int>, n: int)
    requires multiset(s) == multiset(t) && InRange(s, n)
    ensures InRange(t, n)
  {
    forall i | 0 <= i < |t| ensures 0 <= t[i] < n {
      assert t[i] in multiset(t);
      assert t[i] in s;
    }
  }

  lemma {:induction false} IncreasingLowerBound(s: seq<int>, i: nat)
    requires forall a, b :: 0 <= a < b < |s| ==> s[a] < s[b]
    requires InRange(s, |s|) && i < |s|
    ensures s[i] >= i
  {
    if i > 0 {
      IncreasingLowerBound(s, i - 1);
    }
  }

  lemma {:induction false} IncreasingUpperBound(s: seq<int>, i: nat)
    requires forall a, b :: 0 <= a < b < |s| ==> s[a] < s[b]
    requires InRange(s, |s|) && i < |s|
    ensures s[i] <= i
    decreases |s| - i
  {
    if i + 1 < |s| {
      IncreasingUpperBound(s, i + 1);
    }
  }

  lemma {:induction false} IdentityImpliesPermutation(p: seq<int>, s: seq<int>)
    requires multiset(s) == multiset(p) && |s| == |p|
    requires IsIdentity(s)
    ensures IsPermutation(p)
  {
    assert InRange(s, |s|);
    assert Distinct(s);
    InRangeTransfers(s, p, |p|);
    DistinctTransfers(s, p);
  }

  lemma {:induction false} PermutationImpliesIdentity(p: seq<int>, s: seq<int>)
    requires multiset(s) == multiset(p) && |s| == |p| && Sorted(s)
    requires IsPermutation(p)
    ensures IsIdentity(s)
  {
    InRangeTransfers(p, s, |p|);
    DistinctTransfers(p, s);
    assert forall a, b :: 0 <= a < b < |s| ==> s[a] < s[b];
    forall i | 0 <= i < |s| ensures s[i] == i {
      IncreasingLowerBound(s, i);
      IncreasingUpperBound(s, i);
    }
  }

  /**
   * The sort-based check of the fixed-shape validator decides exactly the
   * bijection property: the sorted copy of p is 0..|p|-1 iff p is a
   * permutation of [0, |p|).
   */
  lemma {:induction false} SortedCopyIsRangeIff(p: seq<int>)
    ensures IsIdentity(SortCopy(p)) <==> IsPermutation(p)
  {
    var s := SortCopy(p);
    if IsIdentity(s) {
      IdentityImpliesPermutation(p, s);
    }
    if IsPermutation(p) {
      PermutationImpliesIdentity(p, s);
    }
  }
}
