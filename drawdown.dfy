/**
 * Drawdown analysis of the portfolio's daily returns: the wealth index,
 * its running peak, the drawdown from that peak, the deepest drawdown and
 * when it happened, the time to win the loss back, and the window of the
 * series that the chart shows.
 */
module Drawdown {
  import opened Wrappers
  import opened Numerics
  import opened Vectors
  import opened Series

  datatype DrawdownError = NoReturns

  datatype DrawdownPoint = DrawdownPoint(date: int, drawdown: real)

  datatype DrawdownMetrics = DrawdownMetrics(
    maxDrawdown: real,
    maxDrawdownDate: Option<int>,
    currentDrawdown: real,
    recoveryTimeDays: int,
    drawdownSeries: seq<DrawdownPoint>)

  /** How many of the most recent drawdown points the chart receives. */
  const ChartWindow: nat := 252

  /**
   * Returns computed from positive prices with long-only weights never
   * lose everything in one day.
   */
  predicate AboveTotalLoss(r: seq<real>)
  {
    forall t :: 0 <= t < |r| ==> r[t] > -1.0
  }

  lemma {:induction false} GrowthPositive(r: seq<real>)
    requires AboveTotalLoss(r)
    ensures Growth(r) > 0.0
  {
    if |r| > 0 {
      var init := r[..|r| - 1];
      assert AboveTotalLoss(init);
      GrowthPositive(init);
      ProductPositive(Growth(init), 1.0 + r[|r| - 1]);
    }
  }

  /** The wealth index stays positive, and so does its running peak. */
  lemma WealthPositive(r: seq<real>)
    requires AboveTotalLoss(r)
    ensures forall t :: 0 <= t < |r| ==> CumGrowth(r)[t] > 0.0
    ensures forall t :: 0 <= t < |r| ==> RunningMax(CumGrowth(r))[t] > 0.0
  {
    forall t | 0 <= t < |r|
      ensures CumGrowth(r)[t] > 0.0
    {
      assert AboveTotalLoss(r[..t + 1]);
      GrowthPositive(r[..t + 1]);
    }
    RunningMaxProperties(CumGrowth(r));
  }

  /** `(wealth - running_max) / running_max` at every date. */
  function DrawdownSeries(r: seq<real>): (dd: seq<real>)
    requires AboveTotalLoss(r)
    ensures |dd| == |r|
    ensures forall t :: 0 <= t < |r| ==>
      RunningMax(CumGrowth(r))[t] > 0.0 &&
      dd[t] == (CumGrowth(r)[t] - RunningMax(CumGrowth(r))[t]) / RunningMax(CumGrowth(r))[t]
  {
    var w := CumGrowth(r);
    var m := RunningMax(w);
    WealthPositive(r);
    seq(|r|, t requires 0 <= t < |r| => (w[t] - m[t]) / m[t])
  }

  /**
   * Every drawdown lies in (-1, 0], and it is 0 exactly on the dates where
   * the wealth index stands at its running peak.
   */
  lemma DrawdownBounds(r: seq<real>)
    requires AboveTotalLoss(r)
    ensures forall t :: 0 <= t < |r| ==> -1.0 < DrawdownSeries(r)[t] <= 0.0
    ensures forall t :: 0 <= t < |r| ==>
      (DrawdownSeries(r)[t] == 0.0 <==> CumGrowth(r)[t] == RunningMax(CumGrowth(r))[t])
  {
    forall t | 0 <= t < |r|
      ensures -1.0 < DrawdownSeries(r)[t] <= 0.0
      ensures DrawdownSeries(r)[t] == 0.0 <==> CumGrowth(r)[t] == RunningMax(CumGrowth(r))[t]
    {
      DrawdownAt(r, t);
    }
  }

  /** The drawdown on one date: the wealth there is positive and at most its peak. */
  lemma DrawdownAt(r: seq<real>, t: nat)
    requires AboveTotalLoss(r) && t < |r|
    ensures -1.0 < DrawdownSeries(r)[t] <= 0.0
    ensures DrawdownSeries(r)[t] == 0.0 <==> CumGrowth(r)[t] == RunningMax(CumGrowth(r))[t]
  {
    var w := CumGrowth(r);
    var m := RunningMax(w);
    assert AboveTotalLoss(r[..t + 1]);
    GrowthPositive(r[..t + 1]);
    assert w[t] > 0.0;
    RunningMaxProperties(w);
    assert w[t] <= m[t];
    RelativeGap(w[t], m[t]);
  }

  lemma RelativeGap(w: real, m: real)
    requires 0.0 < w <= m
    ensures -1.0 < (w - m) / m <= 0.0
    ensures (w - m) / m == 0.0 <==> w == m
  {
    var q := (w - m) / m;
    assert q * m == w - m;
    assert (q + 1.0) * m == w;
    FactorSign(q + 1.0, m);
    FactorSign(q, m);
  }

  lemma FactorSign(x: real, m: real)
    requires m > 0.0
    ensures x * m > 0.0 ==> x > 0.0
    ensures x * m <= 0.0 ==> x <= 0.0
  {
  }

  /** The first index from `from` on where `w` reaches `level`, if any. */
  function FirstAtLeast(w: seq<real>, from: nat, level: real): (k: Option<nat>)
    requires from <= |w|
    ensures k.Some? ==> from <= k.value < |w| && w[k.value] >= level
    ensures k.Some? ==> forall t :: from <= t < k.value ==> w[t] < level
    ensures k.None? ==> forall t :: from <= t < |w| ==> w[t] < level
    decreases |w| - from
  {
    if from == |w| then None
    else if w[from] >= level then Some(from)
    else FirstAtLeast(w, from + 1, level)
  }

  /**
   * Days from the trough to the first date, from the trough on, where the
   * wealth index is back at the peak that preceded it; 0 when it never is.
   */
  function RecoveryTime(w: seq<real>, dates: seq<int>, trough: nat): int
    requires |dates| == |w| && trough < |w|
  {
    var m := RunningMax(w);
    var peak := ArgMax(m[..trough + 1]);
    match FirstAtLeast(w, trough, m[peak])
    case Some(t) => dates[t] - dates[trough]
    case None => 0
  }

  /** Pairs each drawdown with its date. */
  function Dated(dates: seq<int>, dd: seq<real>): (points: seq<DrawdownPoint>)
    requires |dates| == |dd|
    ensures |points| == |dd|
    ensures forall t :: 0 <= t < |dd| ==> points[t] == DrawdownPoint(dates[t], dd[t])
  {
    seq(|dd|, t requires 0 <= t < |dd| => DrawdownPoint(dates[t], dd[t]))
  }

  /**
   * `calculate_drawdown_metrics` on the return rows (one per date) and the
   * weights. An empty history has no minimum to take, so it fails. The
   * dates are distinct and increasing trading days, so slicing by the
   * trough's position is the source's slicing by its date label.
   */
  function DrawdownMetricsOf(rows: seq<seq<real>>, w: seq<real>, dates: seq<int>): (r: Result<DrawdownMetrics, DrawdownError>)
    requires IsMatrix(rows, |w|) && |dates| == |rows|
    requires AboveTotalLoss(MatVec(rows, w))
    ensures r.Err? <==> |rows| == 0
  {
    var daily := MatVec(rows, w);
    if |daily| == 0 then Err(NoReturns)
    else
      var wealth := CumGrowth(daily);
      var dd := DrawdownSeries(daily);
      var trough := ArgMin(dd);
      var maxDrawdown := dd[trough];
      var recovery := if maxDrawdown < 0.0 then RecoveryTime(wealth, dates, trough) else 0;
      Ok(DrawdownMetrics(
        maxDrawdown,
        if maxDrawdown < 0.0 then Some(dates[trough]) else None,
        dd[|dd| - 1],
        recovery,
        Tail(Dated(dates, dd), ChartWindow)))
  }

  /**
   * The maximum drawdown is the smallest drawdown, is reached on the
   * reported date (its first occurrence), lies in (-1, 0], and the current
   * drawdown is the last one.
   */
  lemma MaxDrawdownIsMinimum(rows: seq<seq<real>>, w: seq<real>, dates: seq<int>)
    requires IsMatrix(rows, |w|) && |dates| == |rows| && |rows| > 0
    requires AboveTotalLoss(MatVec(rows, w))
    ensures var m := DrawdownMetricsOf(rows, w, dates).value;
      var dd := DrawdownSeries(MatVec(rows, w));
      && (forall t :: 0 <= t < |dd| ==> m.maxDrawdown <= dd[t])
      && m.maxDrawdown in dd
      && -1.0 < m.maxDrawdown <= 0.0
      && m.currentDrawdown == dd[|dd| - 1]
      && (m.maxDrawdownDate.Some? ==>
            exists t :: 0 <= t < |dd| && dates[t] == m.maxDrawdownDate.value && dd[t] == m.maxDrawdown
              && (forall u :: 0 <= u < t ==> dd[u] > m.maxDrawdown))
  {
    var dd := DrawdownSeries(MatVec(rows, w));
    DrawdownBounds(MatVec(rows, w));
    var k := ArgMin(dd);
    assert dd[k] in dd;
  }

  /**
   * A history that never falls below its running peak reports no
   * drawdown date and no recovery time; the maximum drawdown is then 0,
   * which happens exactly when every date is a new running peak.
   */
  lemma NoDrawdownNoRecovery(rows: seq<seq<real>>, w: seq<real>, dates: seq<int>)
    requires IsMatrix(rows, |w|) && |dates| == |rows| && |rows| > 0
    requires AboveTotalLoss(MatVec(rows, w))
    ensures var m := DrawdownMetricsOf(rows, w, dates).value;
      && (m.maxDrawdown >= 0.0 ==> m.recoveryTimeDays == 0 && m.maxDrawdownDate == None)
      && (m.maxDrawdown < 0.0 <==> m.maxDrawdownDate.Some?)
      && (m.maxDrawdown == 0.0 <==>
            forall t :: 0 <= t < |rows| ==> CumGrowth(MatVec(rows, w))[t] == RunningMax(CumGrowth(MatVec(rows, w)))[t])
  {
    var r := MatVec(rows, w);
    var dd := DrawdownSeries(r);
    DrawdownBounds(r);
    var k := ArgMin(dd);
    if dd[k] == 0.0 {
      forall t | 0 <= t < |rows|
        ensures dd[t] == 0.0
      {
      }
    }
  }

  /**
   * The peak that precedes the trough, taken as the first largest running
   * maximum up to the trough, has the running maximum's value at the
   * trough, because the running maximum never decreases.
   */
  lemma PeakBeforeTrough(w: seq<real>, trough: nat)
    requires trough < |w|
    ensures var m := RunningMax(w);
      m[ArgMax(m[..trough + 1])] == m[trough]
  {
    var m := RunningMax(w);
    var p := ArgMax(m[..trough + 1]);
    RunningMaxMonotone(w, p, trough);
    assert m[..trough + 1][trough] == m[trough];
    assert m[..trough + 1][p] == m[p];
  }

  /**
   * A positive recovery time is the number of days from the trough to the
   * first later date on which wealth is back at the pre-trough peak; before
   * that date wealth stays below it. With dates in increasing order, the
   * recovery date is strictly after the trough.
   */
  lemma RecoveryIsFirstReturnToPeak(w: seq<real>, dates: seq<int>, trough: nat)
    requires |dates| == |w| && trough < |w|
    requires w[trough] < RunningMax(w)[trough]
    requires forall i, j :: 0 <= i < j < |dates| ==> dates[i] < dates[j]
    ensures var m := RunningMax(w);
      match FirstAtLeast(w, trough, m[trough])
      case Some(t) =>
        && trough < t
        && RecoveryTime(w, dates, trough) == dates[t] - dates[trough] > 0
        && w[t] >= m[trough]
        && (forall u :: trough <= u < t ==> w[u] < m[trough])
      case None =>
        && RecoveryTime(w, dates, trough) == 0
        && (forall u :: trough <= u < |w| ==> w[u] < m[trough])
  {
    PeakBeforeTrough(w, trough);
  }

  /** The chart series is the last `min(252, n)` dated drawdowns, in date order. */
  lemma DrawdownWindow(rows: seq<seq<real>>, w: seq<real>, dates: seq<int>)
    requires IsMatrix(rows, |w|) && |dates| == |rows| && |rows| > 0
    requires AboveTotalLoss(MatVec(rows, w))
    ensures var s := DrawdownMetricsOf(rows, w, dates).value.drawdownSeries;
      var dd := DrawdownSeries(MatVec(rows, w));
      && |s| == (if |rows| < ChartWindow then |rows| else ChartWindow)
      && (forall i :: 0 <= i < |s| ==> s[i] == DrawdownPoint(dates[|rows| - |s| + i], dd[|rows| - |s| + i]))
      && s[|s| - 1] == DrawdownPoint(dates[|rows| - 1], DrawdownMetricsOf(rows, w, dates).value.currentDrawdown)
  {
  }
}
