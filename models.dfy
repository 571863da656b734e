/**
 * The validated request inputs of the analytics: positions and portfolios,
 * with the invariants their schema enforces before any analytics run.
 */
module Models {
  import opened Numerics

  datatype AssetClass = Equity | Bond | Cash

  /** One holding: a ticker, a strictly positive quantity and an asset class. */
  datatype Position = Position(ticker: string, quantity: real, assetClass: AssetClass)

  predicate ValidPosition(p: Position)
  {
    p.quantity > 0.0
  }

  /** A portfolio holds at least one position and every quantity is positive. */
  predicate ValidPortfolio(positions: seq<Position>)
  {
    |positions| >= 1 && forall i :: 0 <= i < |positions| ==> ValidPosition(positions[i])
  }

  function Tickers(positions: seq<Position>): (t: seq<string>)
    ensures |t| == |positions|
    ensures forall i :: 0 <= i < |positions| ==> t[i] == positions[i].ticker
  {
    seq(|positions|, i requires 0 <= i < |positions| => positions[i].ticker)
  }

  predicate UniqueTickers(tickers: seq<string>)
  {
    forall i, j :: 0 <= i < j < |tickers| ==> tickers[i] != tickers[j]
  }

  /** One row of the position-level risk breakdown. */
  datatype PositionRisk = PositionRisk(
    ticker: string,
    quantity: real,
    currentPrice: real,
    value: real,
    weight: real,
    volatility: real,
    riskContributionPct: Float,
    marginalRisk: Float)

  function WeightsOf(rows: seq<PositionRisk>): (w: seq<real>)
    ensures |w| == |rows|
    ensures forall i :: 0 <= i < |rows| ==> w[i] == rows[i].weight
  {
    seq(|rows|, i requires 0 <= i < |rows| => rows[i].weight)
  }

  function ContributionsOf(rows: seq<PositionRisk>): (c: seq<Float>)
    ensures |c| == |rows|
    ensures forall i :: 0 <= i < |rows| ==> c[i] == rows[i].riskContributionPct
  {
    seq(|rows|, i requires 0 <= i < |rows| => rows[i].riskContributionPct)
  }

  /** A ranked risk contributor. */
  datatype RiskDriver = RiskDriver(name: string, contributionPct: Float)

  datatype RiskLevel = VeryHigh | High | Moderate | Low

  /**
   * The sentences of the explanation summary, each with the numbers it
   * embeds; the text around them is formatting and is not modelled.
   */
  datatype Sentence =
    | LevelSentence(level: RiskLevel, volatility: real)
    | VarSentence(var95: real, shareOfPortfolio: Float)
    | LargestSentence(ticker: string, contributionPct: Float)
    | TogetherSentence(tickers: seq<string>, combinedPct: Float)

  datatype ExplanationOutput = ExplanationOutput(summary: seq<Sentence>, topDrivers: seq<RiskDriver>)

  /** A stress-test scenario: additive shocks to the annualized mean return, by ticker. */
  datatype Scenario = Scenario(name: string, factorShocks: map<string, real>)

  /** The part of the risk report that the risk calculation computes itself. */
  datatype RiskOutput = RiskOutput(
    totalValue: real,
    volatilityAnnualized: real,
    var95: real,
    positions: seq<PositionRisk>,
    explanation: ExplanationOutput)
}
