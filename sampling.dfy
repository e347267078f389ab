/**
 * Sampling without replacement as both violation pickers do it: reorder a list with
 * `sort(() => 0.5 - Math.random())`, then keep `slice(0, Math.min(count, length))`.
 * The random reordering is an arbitrary permutation supplied by the caller.
 */
module Sampling {

  /** `perm` lists every index below `n` exactly once: the order the random sort produced. */
  predicate IsPermutation(perm: seq<nat>, n: nat) {
    && |perm| == n
    && (forall i :: 0 <= i < n ==> perm[i] < n)
    && (forall i, j :: 0 <= i < j < n ==> perm[i] != perm[j])
  }

  /** The elements of `s` in the order `perm` gives: a rearrangement of `s`. */
  function Permute<T>(s: seq<T>, perm: seq<nat>): (r: seq<T>)
    requires IsPermutation(perm, |s|)
    ensures |r| == |s|
    ensures multiset(r) == multiset(s)
  {
    var r := seq(|s|, i requires 0 <= i < |s| => s[perm[i]]);
    ReorderKeepsElements(s, perm, r);
    r
  }

  /**
   * Taking the elements of `s` in the order of a permutation keeps every element with its
   * multiplicity. The last one taken, `s[k]`, is set aside; the others are `s` without
   * position `k`, taken in the order of the permutation with `k` closed up.
   */
  lemma {:induction false} ReorderKeepsElements<T>(s: seq<T>, perm: seq<nat>, r: seq<T>)
    requires IsPermutation(perm, |s|)
    requires |r| == |s| && forall i :: 0 <= i < |s| ==> r[i] == s[perm[i]]
    ensures multiset(r) == multiset(s)
    decreases |s|
  {
    if s != [] {
      var n := |s|;
      var k := perm[n - 1];
      var rest := s[..k] + s[k + 1..];
      var closed := CloseUp(perm, k);
      ClosedUpIsPermutation(perm, k);
      forall i | 0 <= i < n - 1 ensures r[i] == rest[closed[i]] {
        if perm[i] < k {
          assert rest[perm[i]] == s[perm[i]];
        } else {
          assert rest[perm[i] - 1] == s[perm[i]];
        }
      }
      ReorderKeepsElements(rest, closed, r[..n - 1]);
      SplitAtLast(r, s, k);
    }
  }

  /** The first `|perm| - 1` positions of `perm`, with the value `k` closed up. */
  function CloseUp(perm: seq<nat>, k: nat): (c: seq<nat>)
    requires perm != []
    ensures |c| == |perm| - 1
    ensures forall i :: 0 <= i < |c| ==> c[i] == if perm[i] <= k then perm[i] else perm[i] - 1
  {
    seq(|perm| - 1, i requires 0 <= i < |perm| - 1 => if perm[i] <= k then perm[i] else perm[i] - 1)
  }

  lemma ClosedUpIsPermutation(perm: seq<nat>, k: nat)
    requires perm != [] && IsPermutation(perm, |perm|) && k == perm[|perm| - 1]
    ensures IsPermutation(CloseUp(perm, k), |perm| - 1)
    ensures forall i :: 0 <= i < |perm| - 1 ==> perm[i] != k
  {
    var n := |perm|;
    forall i | 0 <= i < n - 1 ensures perm[i] != k {
      assert perm[i] != perm[n - 1];
    }
  }

  lemma SplitAtLast<T>(r: seq<T>, s: seq<T>, k: nat)
    requires r != [] && |r| == |s| && k < |s| && r[|r| - 1] == s[k]
    requires multiset(r[..|r| - 1]) == multiset(s[..k] + s[k + 1..])
    ensures multiset(r) == multiset(s)
  {
    assert r == r[..|r| - 1] + [s[k]];
    assert s == s[..k] + [s[k]] + s[k + 1..];
  }

  function Min(a: int, b: int): int { if a <= b then a else b }

  /**
   * The end index `slice(0, e)` uses for `e == Math.min(count, len)`:
   * a negative `e` counts back from the end and stops at 0.
   */
  function SliceEnd(count: int, len: nat): (e: nat)
    ensures e <= len
    ensures count >= 0 ==> e == Min(count, len)
    ensures count < 0 ==> e + (-count) == len || (e == 0 && -count >= len)
  {
    var m := Min(count, len);
    if m >= 0 then m else if len + m >= 0 then len + m else 0
  }

  /** The first `Math.min(count, len)` elements of the reordered list. */
  function Sample<T>(s: seq<T>, perm: seq<nat>, count: int): seq<T>
    requires IsPermutation(perm, |s|)
  {
    Permute(s, perm)[..SliceEnd(count, |s|)]
  }

  /**
   * A sample has `min(count, |s|)` entries for a non-negative count, each entry is
   * taken from its own position of `s`, and no position is used twice.
   */
  lemma SampleDrawsDistinctPositions<T>(s: seq<T>, perm: seq<nat>, count: int)
    requires IsPermutation(perm, |s|)
    ensures var r := Sample(s, perm, count);
      && (count >= 0 ==> |r| == Min(count, |s|))
      && (forall i :: 0 <= i < |r| ==> perm[i] < |s| && r[i] == s[perm[i]])
      && (forall i, j :: 0 <= i < j < |r| ==> perm[i] != perm[j])
  {
  }

  /** Every entry of a sample is an element of `s`. */
  lemma SampleFromSource<T>(s: seq<T>, perm: seq<nat>, count: int)
    requires IsPermutation(perm, |s|)
    ensures forall x :: x in Sample(s, perm, count) ==> x in s
  {
    var r := Sample(s, perm, count);
    forall x | x in r ensures x in s {
      var i :| 0 <= i < |r| && r[i] == x;
      assert r[i] == s[perm[i]];
    }
  }

  /** The elements of `s` are pairwise distinct. */
  predicate Distinct<T(==)>(s: seq<T>) {
    forall i, j :: 0 <= i < j < |s| ==> s[i] != s[j]
  }

  /** Sampling from a list without repeated elements yields no repeated elements. */
  lemma {:induction false} SampleDistinct<T>(s: seq<T>, perm: seq<nat>, count: int)
    requires IsPermutation(perm, |s|) && Distinct(s)
    ensures Distinct(Sample(s, perm, count))
  {
    var r := Sample(s, perm, count);
    forall i, j | 0 <= i < j < |r| ensures r[i] != r[j] {
      assert r[i] == s[perm[i]] && r[j] == s[perm[j]];
      assert perm[i] != perm[j];
      if perm[i] < perm[j] {
        assert s[perm[i]] != s[perm[j]];
      } else {
        assert s[perm[j]] != s[perm[i]];
      }
    }
  }
}
