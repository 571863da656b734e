/**
 * Sums, dot products and matrix-vector products over exact reals: the
 * stand-ins for numpy's `sum`, `dot` and `DataFrame.dot`.
 */
module Vectors {
  import opened Numerics

  /** Sum of a sequence, accumulated left to right. */
  function Sum(s: seq<real>): real
  {
    if |s| == 0 then 0.0 else Sum(s[..|s| - 1]) + s[|s| - 1]
  }

  function Dot(a: seq<real>, b: seq<real>): real
    requires |a| == |b|
  {
    if |a| == 0 then 0.0 else Dot(a[..|a| - 1], b[..|b| - 1]) + a[|a| - 1] * b[|b| - 1]
  }

  /** Every row of `m` has `cols` entries. */
  predicate IsMatrix(m: seq<seq<real>>, cols: nat)
  {
    forall i :: 0 <= i < |m| ==> |m[i]| == cols
  }

  /** `m.dot(v)`: one dot product per row. */
  function MatVec(m: seq<seq<real>>, v: seq<real>): (r: seq<real>)
    requires IsMatrix(m, |v|)
    ensures |r| == |m|
    ensures forall i :: 0 <= i < |m| ==> r[i] == Dot(m[i], v)
  {
    seq(|m|, i requires 0 <= i < |m| => Dot(m[i], v))
  }

  /** The quadratic form `wᵀ M w`, computed as numpy does: `dot(w, dot(M, w))`. */
  function Quad(w: seq<real>, m: seq<seq<real>>): real
    requires |m| == |w| && IsMatrix(m, |w|)
  {
    Dot(w, MatVec(m, w))
  }

  /** Each entry multiplied by `c`. */
  function Scaled(s: seq<real>, c: real): (r: seq<real>)
    ensures |r| == |s|
    ensures forall i :: 0 <= i < |s| ==> r[i] == s[i] * c
  {
    seq(|s|, i requires 0 <= i < |s| => s[i] * c)
  }

  /** Entry-wise products. */
  function Times(a: seq<real>, b: seq<real>): (r: seq<real>)
    requires |a| == |b|
    ensures |r| == |a|
    ensures forall i :: 0 <= i < |a| ==> r[i] == a[i] * b[i]
  {
    seq(|a|, i requires 0 <= i < |a| => a[i] * b[i])
  }

  /** Summing the prefix one entry longer adds exactly that entry. */
  lemma SumPrefixStep(s: seq<real>, i: nat)
    requires i < |s|
    ensures Sum(s[..i + 1]) == Sum(s[..i]) + s[i]
  {
    assert s[..i + 1][..i] == s[..i];
  }

  /** Sums are linear: scaling every entry scales the sum. */
  lemma {:induction false} SumScaled(s: seq<real>, c: real)
    ensures Sum(Scaled(s, c)) == Sum(s) * c
  {
    if |s| > 0 {
      var init := s[..|s| - 1];
      forall i | 0 <= i < |init| ensures Scaled(s, c)[..|s| - 1][i] == Scaled(init, c)[i] {}
      assert Scaled(s, c)[..|s| - 1] == Scaled(init, c);
      SumScaled(s[..|s| - 1], c);
    }
  }

  /** A dot product is the sum of the entry-wise products. */
  lemma {:induction false} DotIsSumOfTimes(a: seq<real>, b: seq<real>)
    requires |a| == |b|
    ensures Dot(a, b) == Sum(Times(a, b))
  {
    if |a| > 0 {
      var a', b' := a[..|a| - 1], b[..|b| - 1];
      forall i | 0 <= i < |a'| ensures Times(a, b)[..|a| - 1][i] == Times(a', b')[i] {}
      assert Times(a, b)[..|a| - 1] == Times(a', b');
      DotIsSumOfTimes(a[..|a| - 1], b[..|b| - 1]);
    }
  }

  /** Two sequences that agree entry by entry have the same sum. */
  lemma SumCongruent(a: seq<real>, b: seq<real>)
    requires |a| == |b|
    requires forall i :: 0 <= i < |a| ==> a[i] == b[i]
    ensures Sum(a) == Sum(b)
  {
    assert a == b;
  }

  /** A sum of positive entries is positive once there is at least one entry. */
  lemma {:induction false} SumPositive(s: seq<real>)
    requires |s| > 0
    requires forall i :: 0 <= i < |s| ==> s[i] > 0.0
    ensures Sum(s) > 0.0
  {
    if |s| > 1 {
      SumPositive(s[..|s| - 1]);
    }
  }

  /** A sum of non-negative entries is at least each of its entries. */
  lemma {:induction false} SumDominatesEntry(s: seq<real>, i: nat)
    requires i < |s|
    requires forall k :: 0 <= k < |s| ==> s[k] >= 0.0
    ensures s[i] <= Sum(s)
  {
    var init := s[..|s| - 1];
    if i < |s| - 1 {
      SumDominatesEntry(init, i);
      assert Sum(s) == Sum(init) + s[|s| - 1];
    } else {
      SumNonNegative(init);
    }
  }

  lemma {:induction false} SumNonNegative(s: seq<real>)
    requires forall k :: 0 <= k < |s| ==> s[k] >= 0.0
    ensures Sum(s) >= 0.0
  {
    if |s| > 0 {
      SumNonNegative(s[..|s| - 1]);
    }
  }

  /** numpy's sum of float64 values: non-finite as soon as one addend is. */
  function FSum(s: seq<Float>): Float
  {
    if |s| == 0 then Finite(0.0)
    else
      match (FSum(s[..|s| - 1]), s[|s| - 1])
      case (Finite(a), Finite(b)) => Finite(a + b)
      case _ => NonFinite
  }

  /** Summing finite values is the exact sum. */
  lemma {:induction false} FSumFinite(s: seq<Float>, x: seq<real>)
    requires |s| == |x|
    requires forall i :: 0 <= i < |s| ==> s[i] == Finite(x[i])
    ensures FSum(s) == Finite(Sum(x))
  {
    if |s| > 0 {
      FSumFinite(s[..|s| - 1], x[..|x| - 1]);
    }
  }

  /** A dot product distributes over entry-wise sums. */
  lemma {:induction false} DotAdditive(w: seq<real>, a: seq<real>, b: seq<real>, c: seq<real>)
    requires |w| == |a| == |b| == |c|
    requires forall i :: 0 <= i < |w| ==> c[i] == a[i] + b[i]
    ensures Dot(w, c) == Dot(w, a) + Dot(w, b)
  {
    if |w| > 0 {
      var n := |w| - 1;
      DotAdditive(w[..n], a[..n], b[..n], c[..n]);
    }
  }

  /** Dotting with a constant vector scales the sum. */
  lemma {:induction false} DotConstant(w: seq<real>, c: seq<real>, s: real)
    requires |w| == |c|
    requires forall i :: 0 <= i < |c| ==> c[i] == s
    ensures Dot(w, c) == Sum(w) * s
  {
    if |w| > 0 {
      var n := |w| - 1;
      DotConstant(w[..n], c[..n], s);
    }
  }

  /** For weights adding up to one, shifting every entry by `s` shifts the dot product by `s`. */
  lemma DotShifted(w: seq<real>, a: seq<real>, c: seq<real>, s: real)
    requires |w| == |a| == |c| && Sum(w) == 1.0
    requires forall i :: 0 <= i < |w| ==> c[i] == a[i] + s
    ensures Dot(w, c) == Dot(w, a) + s
  {
    var b := seq(|w|, i => s);
    DotAdditive(w, a, b, c);
    DotConstant(w, b, s);
  }

  /** `(c / c.sum()) * 100` on float64 values. */
  function Percentages(c: seq<Float>): (p: seq<Float>)
    ensures |p| == |c|
    ensures forall i :: 0 <= i < |c| ==> p[i] == Scale(100.0, FDiv(c[i], FSum(c)))
  {
    var total := FSum(c);
    seq(|c|, i requires 0 <= i < |c| => Scale(100.0, FDiv(c[i], total)))
  }

  /**
   * Finite parts of a positive total become finite percentages of it that
   * add up to 100.
   */
  lemma PercentagesOfPositiveTotal(c: seq<Float>, x: seq<real>)
    requires |c| == |x|
    requires forall i :: 0 <= i < |c| ==> c[i] == Finite(x[i])
    requires Sum(x) > 0.0
    ensures forall i :: 0 <= i < |c| ==> Percentages(c)[i] == Finite(100.0 * (x[i] / Sum(x)))
    ensures FSum(Percentages(c)) == Finite(100.0)
  {
    PercentagesExact(c, x);
    var y := Scaled(x, 100.0 / Sum(x));
    ScaledIsPercent(x, Sum(x));
    FSumFinite(Percentages(c), y);
    SumScaled(x, 100.0 / Sum(x));
    WholeIsHundred(Sum(y), Sum(x));
  }

  /** Each percentage is the exact share of the part in the total, times 100. */
  lemma PercentagesExact(c: seq<Float>, x: seq<real>)
    requires |c| == |x|
    requires forall i :: 0 <= i < |c| ==> c[i] == Finite(x[i])
    requires Sum(x) > 0.0
    ensures forall i :: 0 <= i < |c| ==> Percentages(c)[i] == Finite(100.0 * (x[i] / Sum(x)))
  {
    FSumFinite(c, x);
    forall i | 0 <= i < |c|
      ensures Percentages(c)[i] == Finite(100.0 * (x[i] / Sum(x)))
    {
      PercentageOf(c[i], x[i], FSum(c), Sum(x));
    }
  }

  lemma ScaledIsPercent(x: seq<real>, total: real)
    requires total != 0.0
    ensures forall i :: 0 <= i < |x| ==> Scaled(x, 100.0 / total)[i] == 100.0 * (x[i] / total)
  {
    forall i | 0 <= i < |x|
      ensures Scaled(x, 100.0 / total)[i] == 100.0 * (x[i] / total)
    {
      ScaleDiv(100.0, x[i], total);
    }
  }

  lemma WholeIsHundred(scaled: real, total: real)
    requires total != 0.0 && scaled == total * (100.0 / total)
    ensures scaled == 100.0
  {
  }

  /** One part of a non-zero total as a percentage. */
  lemma PercentageOf(part: Float, x: real, whole: Float, total: real)
    requires part == Finite(x) && whole == Finite(total) && total != 0.0
    ensures Scale(100.0, FDiv(part, whole)) == Finite(100.0 * (x / total))
  {
  }

  lemma ScaleDiv(k: real, x: real, c: real)
    requires c != 0.0
    ensures k * (x / c) == x * (k / c)
  {
  }
}
