/**
 * The explanation block of a risk report: a risk level from the annualized
 * volatility, the three largest risk contributors in stable descending
 * order, and the summary sentences built from them.
 */
module Explanation {
  import opened Numerics
  import opened Vectors
  import opened Sorting
  import opened Models

  /** Volatility bands: above 30% very high, above 20% high, above 10% moderate, otherwise low. */
  function RiskLevelOf(volatility: real): (level: RiskLevel)
    ensures level == VeryHigh <==> volatility > 0.30
    ensures level == High <==> 0.20 < volatility <= 0.30
    ensures level == Moderate <==> 0.10 < volatility <= 0.20
    ensures level == Low <==> volatility <= 0.10
  {
    if volatility > 0.30 then VeryHigh
    else if volatility > 0.20 then High
    else if volatility > 0.10 then Moderate
    else Low
  }

  function Severity(level: RiskLevel): nat
  {
    match level
    case Low => 0
    case Moderate => 1
    case High => 2
    case VeryHigh => 3
  }

  /** A more volatile portfolio never gets a lower risk level. */
  lemma RiskLevelMonotone(a: real, b: real)
    requires a <= b
    ensures Severity(RiskLevelOf(a)) <= Severity(RiskLevelOf(b))
  {
  }

  const TopCount: nat := 3

  /**
   * Positions of the (at most three) largest risk contributors, largest
   * first, ties in input order: `sorted(positions, key=risk_contribution_pct,
   * reverse=True)[:3]`.
   */
  function TopIndices(positions: seq<PositionRisk>): (top: seq<nat>)
    ensures |top| == MinNat(TopCount, |positions|)
    ensures forall k :: 0 <= k < |top| ==> top[k] < |positions|
    ensures Distinct(top)
    ensures SortedDesc(ContributionsOf(positions), top)
    ensures Stable(ContributionsOf(positions), top)
    ensures forall i, k :: 0 <= i < |positions| && i !in top && 0 <= k < |top| ==>
              !Below(ContributionsOf(positions)[top[k]], ContributionsOf(positions)[i])
    ensures forall i, k ::
              0 <= i < |positions| && i !in top && 0 <= k < |top| && ContributionsOf(positions)[i] == ContributionsOf(positions)[top[k]]
              ==> top[k] < i
  {
    var keys := ContributionsOf(positions);
    var order := SortIndicesDesc(keys, |positions|);
    SortIndicesDescCorrect(keys, |positions|);
    var top := order[..MinNat(TopCount, |positions|)];
    SortedPrefixFirst(keys, |positions|, |top|);
    top
  }

  function Drivers(positions: seq<PositionRisk>, idx: seq<nat>): (d: seq<RiskDriver>)
    requires forall k :: 0 <= k < |idx| ==> idx[k] < |positions|
    ensures |d| == |idx|
    ensures forall k :: 0 <= k < |idx| ==>
              d[k] == RiskDriver(positions[idx[k]].ticker, positions[idx[k]].riskContributionPct)
  {
    seq(|idx|, k requires 0 <= k < |idx| => RiskDriver(positions[idx[k]].ticker, positions[idx[k]].riskContributionPct))
  }

  function DriverNames(d: seq<RiskDriver>): (n: seq<string>)
    ensures |n| == |d|
    ensures forall k :: 0 <= k < |d| ==> n[k] == d[k].name
  {
    seq(|d|, k requires 0 <= k < |d| => d[k].name)
  }

  function DriverContributions(d: seq<RiskDriver>): (c: seq<Float>)
    ensures |c| == |d|
    ensures forall k :: 0 <= k < |d| ==> c[k] == d[k].contributionPct
  {
    seq(|d|, k requires 0 <= k < |d| => d[k].contributionPct)
  }

  /**
   * The explanation of a report over a non-empty breakdown: the top drivers,
   * then the level sentence, the VaR sentence, the largest-contributor
   * sentence, and the "together" sentence exactly when more than one
   * driver was ranked.
   */
  function GenerateExplanation(volatility: real, positions: seq<PositionRisk>, totalValue: real, var95: real)
    : (e: ExplanationOutput)
    requires |positions| > 0
    ensures e.topDrivers == Drivers(positions, TopIndices(positions))
    ensures 1 <= |e.topDrivers| <= TopCount
    ensures forall i, j :: 0 <= i < j < |e.topDrivers| ==>
              !Below(e.topDrivers[i].contributionPct, e.topDrivers[j].contributionPct)
    ensures |e.summary| == if |positions| > 1 then 4 else 3
    ensures e.summary[0] == LevelSentence(RiskLevelOf(volatility), volatility)
    ensures e.summary[1] == VarSentence(var95, Div(var95, totalValue))
    ensures e.summary[2] == LargestSentence(e.topDrivers[0].name, e.topDrivers[0].contributionPct)
    ensures |positions| > 1 ==>
              e.summary[3] == TogetherSentence(DriverNames(e.topDrivers), FSum(DriverContributions(e.topDrivers)))
  {
    var top := Drivers(positions, TopIndices(positions));
    var parts := [
      LevelSentence(RiskLevelOf(volatility), volatility),
      VarSentence(var95, Div(var95, totalValue)),
      LargestSentence(top[0].name, top[0].contributionPct)
    ];
    var summary := if |top| > 1 then parts + [TogetherSentence(DriverNames(top), FSum(DriverContributions(top)))] else parts;
    ExplanationOutput(summary, top)
  }
}
