/**
 * Risk-adjusted performance: the Sharpe ratio over total volatility and
 * the Sortino ratio over the downside deviation, each with its guard
 * against a zero or undefined denominator.
 */
module Performance {
  import opened Numerics
  import opened Vectors
  import opened Series
  import opened Subsequences

  /** Annual risk-free rate the analytics assume by default. */
  const DefaultRiskFreeRate: real := 0.04

  datatype PerformanceMetrics = PerformanceMetrics(
    sharpeRatio: real,
    sortinoRatio: real,
    annualizedReturn: real,
    riskFreeRate: real)

  /** `(return - rf) / vol`, or 0 when the volatility is not positive. */
  function SharpeRatio(ret: real, vol: real, rf: real): (s: real)
    ensures vol <= 0.0 ==> s == 0.0
    ensures vol > 0.0 ==> s * vol == ret - rf
  {
    if vol > 0.0 then (ret - rf) / vol else 0.0
  }

  /** The negative daily returns, in order (`r[r < 0]`). */
  function Downside(r: seq<real>): (d: seq<real>)
    ensures |d| <= |r|
    ensures forall x :: x in d <==> x in r && x < 0.0
  {
    if |r| == 0 then []
    else
      var rest := Downside(r[..|r| - 1]);
      var last := r[|r| - 1];
      assert r == r[..|r| - 1] + [last];
      if last < 0.0 then rest + [last] else rest
  }

  /**
   * The downside keeps every negative return as often as it occurs and in
   * its original order, which the sample deviation behind Sortino depends on.
   */
  lemma {:induction false} DownsideInOrder(r: seq<real>)
    ensures forall x :: multiset(Downside(r))[x] == if x < 0.0 then multiset(r)[x] else 0
    ensures Subsequence(Downside(r), r)
  {
    if |r| == 0 {
      SubsequenceOfEmpty<real>();
    } else {
      var init := r[..|r| - 1];
      var last := r[|r| - 1];
      DownsideInOrder(init);
      assert r == init + [last];
      SubsequenceExtend(Downside(init), init, last);
    }
  }

  /** No negative return leaves no downside, and conversely. */
  lemma DownsideEmpty(r: seq<real>)
    ensures Downside(r) == [] <==> forall t :: 0 <= t < |r| ==> r[t] >= 0.0
  {
    if Downside(r) != [] {
      assert Downside(r)[0] in Downside(r);
    }
    if exists t :: 0 <= t < |r| && r[t] < 0.0 {
      var t :| 0 <= t < |r| && r[t] < 0.0;
      assert r[t] in r;
    }
  }

  /**
   * The downside deviation `downside.std() * √252` compared with zero, as
   * Python does: pandas gives NaN for the sample deviation of a single
   * value, and `NaN > 0` is false, so one negative return never counts as
   * a positive deviation. `downsideStd` is the root of the sample variance.
   */
  predicate PositiveDeviation(downside: seq<real>, downsideStd: real, rootDays: real)
  {
    |downside| >= 2 && downsideStd * rootDays > 0.0
  }

  /**
   * The Sortino ratio: the Sharpe ratio when nothing was lost on any day,
   * otherwise the excess return over the annualised downside deviation,
   * or 0 when that deviation is not positive.
   */
  function SortinoRatio(downside: seq<real>, excess: real, sharpe: real, downsideStd: real, rootDays: real): (s: real)
    requires IsRoot(rootDays, 252.0)
    ensures |downside| == 0 ==> s == sharpe
    ensures |downside| == 1 ==> s == 0.0
    ensures |downside| >= 2 && downsideStd == 0.0 ==> s == 0.0
    ensures |downside| >= 2 && downsideStd > 0.0 ==> s * (downsideStd * rootDays) == excess
    ensures |downside| >= 2 && downsideStd > 0.0 ==>
      downsideStd * rootDays > 0.0 && s == excess / (downsideStd * rootDays)
  {
    SortinoDenominator(excess, downsideStd, rootDays);
    if |downside| > 0 then
      (if PositiveDeviation(downside, downsideStd, rootDays) then excess / (downsideStd * rootDays) else 0.0)
    else sharpe
  }

  /**
   * `calculate_performance_metrics`: daily portfolio returns are the
   * return rows dotted with the weights; `rootDays` is √252 and
   * `downsideStd` the root of the sample variance of the negative returns.
   */
  function PerformanceMetricsOf(
    rows: seq<seq<real>>, w: seq<real>, ret: real, vol: real, rf: real,
    downsideStd: real, rootDays: real): (m: PerformanceMetrics)
    requires IsMatrix(rows, |w|) && IsRoot(rootDays, 252.0)
    requires |Downside(MatVec(rows, w))| >= 2 ==> IsRoot(downsideStd, SampleVar(Downside(MatVec(rows, w))))
    ensures m.annualizedReturn == ret && m.riskFreeRate == rf
    ensures vol <= 0.0 ==> m.sharpeRatio == 0.0
    ensures vol > 0.0 ==> m.sharpeRatio * vol == ret - rf
    ensures (forall t :: 0 <= t < |rows| ==> MatVec(rows, w)[t] >= 0.0) ==> m.sortinoRatio == m.sharpeRatio
    ensures |Downside(MatVec(rows, w))| == 1 ==> m.sortinoRatio == 0.0
    ensures |Downside(MatVec(rows, w))| >= 2 && downsideStd == 0.0 ==> m.sortinoRatio == 0.0
    ensures |Downside(MatVec(rows, w))| >= 2 && downsideStd > 0.0 ==>
      downsideStd * rootDays > 0.0 && m.sortinoRatio == (ret - rf) / (downsideStd * rootDays)
  {
    var sharpe := SharpeRatio(ret, vol, rf);
    var daily := MatVec(rows, w);
    SortinoWithoutLosses(daily, ret - rf, sharpe, downsideStd, rootDays);
    var sortino := SortinoRatio(Downside(daily), ret - rf, sharpe, downsideStd, rootDays);
    PerformanceMetrics(sharpe, sortino, ret, rf)
  }

  /** Without a negative daily return there is no downside, and Sortino falls back to Sharpe. */
  lemma SortinoWithoutLosses(daily: seq<real>, excess: real, sharpe: real, downsideStd: real, rootDays: real)
    requires IsRoot(rootDays, 252.0)
    ensures (forall t :: 0 <= t < |daily| ==> daily[t] >= 0.0) ==>
      SortinoRatio(Downside(daily), excess, sharpe, downsideStd, rootDays) == sharpe
  {
    DownsideEmpty(daily);
  }

  /**
   * Both ratios carry the sign of the excess return or are zero: a
   * portfolio that beats the risk-free rate never gets a negative ratio.
   */
  lemma RatiosFollowExcessReturn(
    rows: seq<seq<real>>, w: seq<real>, ret: real, vol: real, rf: real,
    downsideStd: real, rootDays: real)
    requires IsMatrix(rows, |w|) && IsRoot(rootDays, 252.0)
    requires |Downside(MatVec(rows, w))| >= 2 ==> IsRoot(downsideStd, SampleVar(Downside(MatVec(rows, w))))
    ensures var m := PerformanceMetricsOf(rows, w, ret, vol, rf, downsideStd, rootDays);
      && (ret >= rf ==> m.sharpeRatio >= 0.0 && m.sortinoRatio >= 0.0)
      && (ret <= rf ==> m.sharpeRatio <= 0.0 && m.sortinoRatio <= 0.0)
      && (vol > 0.0 ==> (m.sharpeRatio > 0.0 <==> ret > rf))
  {
    var m := PerformanceMetricsOf(rows, w, ret, vol, rf, downsideStd, rootDays);
    var downside := Downside(MatVec(rows, w));
    if vol > 0.0 {
      QuotientSign(ret - rf, vol);
    }
    if PositiveDeviation(downside, downsideStd, rootDays) {
      QuotientSign(ret - rf, downsideStd * rootDays);
    }
  }

  /** The Sortino denominator is positive exactly when the deviation is, and then divides back. */
  lemma SortinoDenominator(x: real, sd: real, rootDays: real)
    requires IsRoot(rootDays, 252.0)
    ensures sd == 0.0 ==> !(sd * rootDays > 0.0)
    ensures sd > 0.0 ==> sd * rootDays > 0.0 && (x / (sd * rootDays)) * (sd * rootDays) == x
  {
    assert rootDays > 0.0;
    if sd > 0.0 {
      ProductPositive(sd, rootDays);
    }
  }
}
