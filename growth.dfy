/**
 * The growth of a hypothetical $10,000 investment in the portfolio and in
 * the benchmark over the dates both have returns for.
 */
module GrowthChart {
  import opened Wrappers
  import opened Vectors
  import opened Series

  datatype GrowthData = GrowthData(dates: seq<int>, portfolio: seq<real>, benchmark: seq<real>)

  const InitialInvestment: real := 10000.0

  /**
   * `calculate_growth_of_10k`: nothing when either series is empty or they
   * share no date; otherwise the common dates and, for each, the value of
   * $10,000 compounded through that date in each series.
   */
  function GrowthOf10k(portfolio: seq<Obs>, benchmark: seq<Obs>): (g: Option<GrowthData>)
    ensures g.None? <==> |portfolio| == 0 || |benchmark| == 0 || Align(portfolio, benchmark) == []
    ensures g.Some? ==>
      && |g.value.dates| == |g.value.portfolio| == |g.value.benchmark| == |Align(portfolio, benchmark)|
      && g.value.dates == JoinedDates(Align(portfolio, benchmark))
      && g.value.portfolio == Compounded(Firsts(Align(portfolio, benchmark)))
      && g.value.benchmark == Compounded(Seconds(Align(portfolio, benchmark)))
  {
    if |portfolio| == 0 || |benchmark| == 0 then None
    else
      var aligned := Align(portfolio, benchmark);
      if aligned == [] then None
      else
        Some(GrowthData(
          JoinedDates(aligned),
          Compounded(Firsts(aligned)),
          Compounded(Seconds(aligned))))
  }

  /**
   * `(1 + r).cumprod() * 10000`: the value after each period of $10,000
   * invested at the start. The three lemmas below say it starts at the
   * investment grown by the first return, then compounds one return at a
   * time, and ends at the investment times the total growth.
   */
  function Compounded(r: seq<real>): (v: seq<real>)
    ensures |v| == |r|
  {
    Scaled(CumGrowth(r), InitialInvestment)
  }

  lemma CompoundedFirst(r: seq<real>)
    requires |r| > 0
    ensures Compounded(r)[0] == (1.0 + r[0]) * 10000.0
  {
    CumGrowthRecurrence(r);
  }

  lemma CompoundedStep(r: seq<real>)
    ensures forall t :: 0 < t < |r| ==> Compounded(r)[t] == Compounded(r)[t - 1] * (1.0 + r[t])
  {
    if |r| > 0 {
      CumGrowthRecurrence(r);
    }
  }

  lemma CompoundedLast(r: seq<real>)
    requires |r| > 0
    ensures Compounded(r)[|r| - 1] == Growth(r) * 10000.0
  {
    CumGrowthLast(r);
  }

  /**
   * Every plotted date is a date both series have, and with chronological
   * inputs the plotted dates increase.
   */
  lemma GrowthDates(portfolio: seq<Obs>, benchmark: seq<Obs>)
    requires GrowthOf10k(portfolio, benchmark).Some?
    requires Chronological(portfolio)
    ensures var d := GrowthOf10k(portfolio, benchmark).value.dates;
      && (forall k :: 0 <= k < |d| ==> HasDate(portfolio, d[k]) && HasDate(benchmark, d[k]))
      && (forall i, j :: 0 <= i < j < |d| ==> d[i] < d[j])
  {
    var aligned := Align(portfolio, benchmark);
    AlignSound(portfolio, benchmark);
    AlignChronological(portfolio, benchmark);
    forall k | 0 <= k < |aligned|
      ensures HasDate(portfolio, aligned[k].date) && HasDate(benchmark, aligned[k].date)
    {
      assert FromBoth(portfolio, benchmark, aligned[k]);
      var i :| 0 <= i < |portfolio| && portfolio[i] == Obs(aligned[k].date, aligned[k].first);
      assert portfolio[i].date == aligned[k].date;
    }
  }
}
