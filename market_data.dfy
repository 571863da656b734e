/**
 * What the market-data step hands to the risk calculation (the price
 * download itself is outside this model), and the mapping from the
 * user-facing analysis periods to the data provider's period codes.
 */
module MarketData {
  import opened Vectors
  import opened Models

  /** User period to data-provider period. */
  const PeriodMap: map<string, string> := map[
    "1M" := "1mo",
    "3M" := "3mo",
    "6M" := "6mo",
    "1Y" := "1y",
    "3Y" := "3y",
    "5Y" := "5y",
    "YTD" := "ytd",
    "MAX" := "max"
  ]

  /** `PERIOD_MAP.get(period, period)`: a known period is translated, anything else passes through. */
  function ProviderPeriod(period: string): (r: string)
    ensures period in PeriodMap ==> r == PeriodMap[period] && r != period
    ensures period !in PeriodMap ==> r == period
  {
    if period in PeriodMap then PeriodMap[period] else period
  }

  /**
   * The cleaned price history of the requested tickers: the tickers with
   * data (the columns of the price panel, in order), the last price of
   * each, and the annualized mean returns and covariance matrix of their
   * daily returns, with rows and columns in the order of `validTickers`.
   */
  datatype History = History(
    validTickers: seq<string>,
    currentPrices: map<string, real>,
    meanReturns: map<string, real>,
    cov: seq<seq<real>>)

  /**
   * What the rest of the calculation assumes of the market data: distinct
   * columns, a positive last price and a mean return for every column, and
   * a square covariance matrix over the columns. The mean returns and the
   * covariance are computed over the columns. The distinct columns and the
   * positive prices come from the provider's data, because the cleaning
   * code checks neither.
   */
  predicate WellFormed(h: History)
  {
    && UniqueTickers(h.validTickers)
    && (forall i :: 0 <= i < |h.validTickers| ==>
          h.validTickers[i] in h.currentPrices && h.currentPrices[h.validTickers[i]] > 0.0)
    && (forall i :: 0 <= i < |h.validTickers| ==> h.validTickers[i] in h.meanReturns)
    && |h.cov| == |h.validTickers|
    && IsMatrix(h.cov, |h.validTickers|)
  }
}
