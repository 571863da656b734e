/**
 * Totals by label: the sum of the entries that carry a given label, and
 * the vector of such totals over a list of distinct keys. This is how a
 * per-position quantity becomes a per-ticker one.
 */
module Grouping {
  import opened Vectors
  import opened Models

  /** The sum of the entries of `xs` whose label is `key`. */
  function SumWhere(labels: seq<string>, xs: seq<real>, key: string): real
    requires |labels| == |xs|
  {
    if |labels| == 0 then 0.0
    else
      var n := |labels| - 1;
      SumWhere(labels[..n], xs[..n], key) + (if labels[n] == key then xs[n] else 0.0)
  }

  /** One total per key, in the order of the keys. */
  function Grouped(keys: seq<string>, labels: seq<string>, xs: seq<real>): (g: seq<real>)
    requires |labels| == |xs|
    ensures |g| == |keys|
    ensures forall j :: 0 <= j < |keys| ==> g[j] == SumWhere(labels, xs, keys[j])
  {
    seq(|keys|, j requires 0 <= j < |keys| => SumWhere(labels, xs, keys[j]))
  }

  /** `x` at the position of `key` and zero everywhere else. */
  function OneHot(keys: seq<string>, key: string, x: real): (v: seq<real>)
    ensures |v| == |keys|
    ensures forall j :: 0 <= j < |keys| ==> v[j] == if keys[j] == key then x else 0.0
  {
    seq(|keys|, j requires 0 <= j < |keys| => if keys[j] == key then x else 0.0)
  }

  /** No entry carries a label that does not occur. */
  lemma {:induction false} SumWhereAbsent(labels: seq<string>, xs: seq<real>, key: string)
    requires |labels| == |xs| && key !in labels
    ensures SumWhere(labels, xs, key) == 0.0
  {
    if |labels| > 0 {
      var n := |labels| - 1;
      assert labels[n] != key;
      assert forall i :: 0 <= i < n ==> labels[..n][i] == labels[i];
      SumWhereAbsent(labels[..n], xs[..n], key);
    }
  }

  /** With distinct labels, the total of an entry's label is that entry. */
  lemma {:induction false} SumWhereUnique(labels: seq<string>, xs: seq<real>, i: nat)
    requires |labels| == |xs| && UniqueTickers(labels) && i < |labels|
    ensures SumWhere(labels, xs, labels[i]) == xs[i]
  {
    var n := |labels| - 1;
    var init := labels[..n];
    if i == n {
      assert labels[n] !in init by {
        forall k | 0 <= k < n ensures init[k] != labels[n] {}
      }
      SumWhereAbsent(init, xs[..n], labels[n]);
    } else {
      assert UniqueTickers(init);
      assert init[i] == labels[i] && labels[n] != labels[i];
      SumWhereUnique(init, xs[..n], i);
    }
  }

  /** Entry-wise addition adds the sums. */
  lemma {:induction false} SumAdditive(a: seq<real>, b: seq<real>, c: seq<real>)
    requires |a| == |b| == |c|
    requires forall i :: 0 <= i < |c| ==> c[i] == a[i] + b[i]
    ensures Sum(c) == Sum(a) + Sum(b)
  {
    if |c| > 0 {
      var n := |c| - 1;
      SumAdditive(a[..n], b[..n], c[..n]);
    }
  }

  /** Over distinct keys, a one-hot vector sums to its entry when the key occurs and to 0 otherwise. */
  lemma {:induction false} SumOneHot(keys: seq<string>, key: string, x: real)
    requires UniqueTickers(keys)
    ensures Sum(OneHot(keys, key, x)) == if key in keys then x else 0.0
  {
    if |keys| > 0 {
      var n := |keys| - 1;
      var init := keys[..n];
      assert OneHot(keys, key, x)[..n] == OneHot(init, key, x);
      assert UniqueTickers(init);
      SumOneHot(init, key, x);
      assert keys == init + [keys[n]];
      if keys[n] == key {
        assert key !in init by {
          forall k | 0 <= k < n ensures init[k] != keys[n] {}
        }
      }
    }
  }

  lemma {:induction false} SumZeros(s: seq<real>)
    requires forall i :: 0 <= i < |s| ==> s[i] == 0.0
    ensures Sum(s) == 0.0
  {
    if |s| > 0 {
      SumZeros(s[..|s| - 1]);
    }
  }

  /**
   * Grouping by distinct keys loses nothing: when every label is one of
   * the keys, the totals add up to the sum of all entries.
   */
  lemma {:induction false} SumOfGroups(keys: seq<string>, labels: seq<string>, xs: seq<real>)
    requires UniqueTickers(keys) && |labels| == |xs|
    requires forall i :: 0 <= i < |labels| ==> labels[i] in keys
    ensures Sum(Grouped(keys, labels, xs)) == Sum(xs)
  {
    var g := Grouped(keys, labels, xs);
    if |labels| == 0 {
      SumZeros(g);
    } else {
      var n := |labels| - 1;
      var before := Grouped(keys, labels[..n], xs[..n]);
      var step := OneHot(keys, labels[n], xs[n]);
      SumAdditive(before, step, g);
      SumOfGroups(keys, labels[..n], xs[..n]);
      SumOneHot(keys, labels[n], xs[n]);
    }
  }
}
