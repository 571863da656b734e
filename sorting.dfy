/**
 * Python's `sorted(xs, key=..., reverse=True)`: a stable sort into
 * non-increasing key order. The sort works on positions 0..n-1 so that
 * stability ("equal keys keep their input order") can be stated about
 * positions rather than about possibly repeated values. Keys compare with
 * Python's float `<`, under which a NaN key is never below anything.
 */
module Sorting {
  import opened Numerics

  /** No position is below a later one: the order `reverse=True` produces. */
  predicate SortedDesc(keys: seq<Float>, idx: seq<nat>)
    requires forall i :: 0 <= i < |idx| ==> idx[i] < |keys|
  {
    forall i, j :: 0 <= i < j < |idx| ==> !Below(keys[idx[i]], keys[idx[j]])
  }

  /** Positions with equal keys stay in input order. */
  predicate Stable(keys: seq<Float>, idx: seq<nat>)
    requires forall i :: 0 <= i < |idx| ==> idx[i] < |keys|
  {
    forall i, j :: 0 <= i < j < |idx| && keys[idx[i]] == keys[idx[j]] ==> idx[i] < idx[j]
  }

  predicate Distinct(idx: seq<nat>)
  {
    forall i, j :: 0 <= i < j < |idx| ==> idx[i] != idx[j]
  }

  /** Places `x` in front of the first position whose key is below the key of `x`. */
  function InsertDesc(keys: seq<Float>, idx: seq<nat>, x: nat): (r: seq<nat>)
    requires x < |keys|
    requires forall i :: 0 <= i < |idx| ==> idx[i] < |keys|
    ensures |r| == |idx| + 1
    ensures multiset(r) == multiset(idx) + multiset{x}
    ensures forall e :: e in r <==> e in idx || e == x
    ensures forall i :: 0 <= i < |r| ==> r[i] < |keys|
  {
    if |idx| == 0 then [x]
    else if Below(keys[idx[0]], keys[x]) then [x] + idx
    else
      var rest := InsertDesc(keys, idx[1..], x);
      assert idx == [idx[0]] + idx[1..];
      [idx[0]] + rest
  }

  /** Inserting keeps the order non-increasing. */
  lemma {:induction false} InsertDescSorted(keys: seq<Float>, idx: seq<nat>, x: nat)
    requires x < |keys|
    requires forall i :: 0 <= i < |idx| ==> idx[i] < |keys|
    requires SortedDesc(keys, idx)
    ensures SortedDesc(keys, InsertDesc(keys, idx, x))
  {
    if |idx| > 0 {
      if !Below(keys[idx[0]], keys[x]) {
        var tail := idx[1..];
        assert SortedDesc(keys, tail);
        InsertDescSorted(keys, tail, x);
        var rest := InsertDesc(keys, tail, x);
        forall j | 0 <= j < |rest|
          ensures !Below(keys[idx[0]], keys[rest[j]])
        {
          assert rest[j] in rest;
          if rest[j] != x {
            var m :| 0 <= m < |tail| && tail[m] == rest[j];
            assert idx[m + 1] == rest[j];
          }
        }
      }
    }
  }

  /**
   * Inserting a position later than all present ones keeps equal keys in
   * input order: it lands behind every position with the same key.
   */
  lemma {:induction false} InsertDescStable(keys: seq<Float>, idx: seq<nat>, x: nat)
    requires x < |keys|
    requires forall i :: 0 <= i < |idx| ==> idx[i] < x
    requires SortedDesc(keys, idx) && Stable(keys, idx)
    ensures Stable(keys, InsertDesc(keys, idx, x))
  {
    if |idx| > 0 {
      var r := InsertDesc(keys, idx, x);
      if Below(keys[idx[0]], keys[x]) {
        forall j | 0 < j < |r|
          ensures keys[x] != keys[r[j]]
        {
          assert r[j] == idx[j - 1];
          if j > 1 {
            assert !Below(keys[idx[0]], keys[idx[j - 1]]);
          }
        }
      } else {
        var tail := idx[1..];
        assert SortedDesc(keys, tail) && Stable(keys, tail);
        InsertDescStable(keys, tail, x);
        var rest := InsertDesc(keys, tail, x);
        forall j | 0 <= j < |rest| && keys[idx[0]] == keys[rest[j]]
          ensures idx[0] < rest[j]
        {
          assert rest[j] in rest;
          if rest[j] != x {
            var m :| 0 <= m < |tail| && tail[m] == rest[j];
            assert idx[m + 1] == rest[j];
          }
        }
      }
    }
  }

  /** Inserting a position not yet present keeps the positions distinct. */
  lemma {:induction false} InsertDescDistinct(keys: seq<Float>, idx: seq<nat>, x: nat)
    requires x < |keys|
    requires forall i :: 0 <= i < |idx| ==> idx[i] < |keys|
    requires Distinct(idx) && x !in idx
    ensures Distinct(InsertDesc(keys, idx, x))
  {
    if |idx| > 0 && !Below(keys[idx[0]], keys[x]) {
      var tail := idx[1..];
      assert Distinct(tail);
      InsertDescDistinct(keys, tail, x);
      assert idx[0] !in tail;
    }
  }

  /** The stable descending order of positions 0..n-1, built by insertion. */
  function SortIndicesDesc(keys: seq<Float>, n: nat): (r: seq<nat>)
    requires n <= |keys|
    ensures |r| == n
    ensures forall i :: 0 <= i < |r| ==> r[i] < n
    ensures forall e: nat :: e < n ==> e in r
  {
    if n == 0 then []
    else
      var prev := SortIndicesDesc(keys, n - 1);
      var r := InsertDesc(keys, prev, n - 1);
      assert forall e :: e in prev ==> e < n - 1;
      assert forall i :: 0 <= i < |r| ==> r[i] in r;
      r
  }

  /**
   * The sort yields each position exactly once, in non-increasing key order,
   * with equal keys in input order.
   */
  lemma {:induction false} SortIndicesDescCorrect(keys: seq<Float>, n: nat)
    requires n <= |keys|
    ensures Distinct(SortIndicesDesc(keys, n))
    ensures SortedDesc(keys, SortIndicesDesc(keys, n))
    ensures Stable(keys, SortIndicesDesc(keys, n))
  {
    if n > 0 {
      var prev := SortIndicesDesc(keys, n - 1);
      SortIndicesDescCorrect(keys, n - 1);
      InsertDescSorted(keys, prev, n - 1);
      InsertDescStable(keys, prev, n - 1);
      InsertDescDistinct(keys, prev, n - 1);
    }
  }

  /**
   * A prefix of the sorted order beats every position left out of it: none
   * of the left-out keys is above a kept one, and a left-out position with
   * an equal key comes later in the input.
   */
  lemma SortedPrefixFirst(keys: seq<Float>, n: nat, m: nat)
    requires n <= |keys| && m <= n
    ensures forall i, k :: 0 <= i < n && i !in SortIndicesDesc(keys, n)[..m] && 0 <= k < m ==>
      && !Below(keys[SortIndicesDesc(keys, n)[k]], keys[i])
      && (keys[i] == keys[SortIndicesDesc(keys, n)[k]] ==> SortIndicesDesc(keys, n)[k] < i)
  {
    var order := SortIndicesDesc(keys, n);
    SortIndicesDescCorrect(keys, n);
    forall i, k | 0 <= i < n && i !in order[..m] && 0 <= k < m
      ensures !Below(keys[order[k]], keys[i])
      ensures keys[i] == keys[order[k]] ==> order[k] < i
    {
      assert i in order;
      var j :| 0 <= j < |order| && order[j] == i;
      assert j >= m;
    }
  }

  /** The entries of `xs` taken in the order `p`. */
  function Permute<T>(xs: seq<T>, p: seq<nat>): (r: seq<T>)
    requires forall i :: 0 <= i < |p| ==> p[i] < |xs|
    ensures |r| == |p|
    ensures forall k :: 0 <= k < |p| ==> r[k] == xs[p[k]]
  {
    seq(|p|, k requires 0 <= k < |p| => xs[p[k]])
  }
}
