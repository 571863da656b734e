/**
 * The core of the risk calculation: position values and weights, the
 * stress-scenario overlay on mean returns, portfolio volatility with its
 * Euler decomposition into per-position contributions, the one-day
 * parametric Value at Risk, the position breakdown and the explanation.
 */
module RiskEngine {
  import opened Wrappers
  import opened Numerics
  import opened Vectors
  import opened Models
  import opened MarketData
  import opened Explanation
  import opened Subsequences
  import opened Grouping

  /**
   * Why a risk calculation stops: no position has market data, or numpy
   * refuses to multiply a weight vector whose length is not the number of
   * covariance columns.
   */
  datatype RiskError = NoValidPositions | ShapeMismatch

  /** Trading days per year, used to annualize and de-annualize. */
  const TradingDays: real := 252.0

  /** The positions whose ticker has market data, in portfolio order. */
  function ValidPositions(positions: seq<Position>, validTickers: seq<string>): (vp: seq<Position>)
    ensures |vp| <= |positions|
    ensures forall p :: p in vp <==> p in positions && p.ticker in validTickers
    ensures forall p :: multiset(vp)[p] == if p.ticker in validTickers then multiset(positions)[p] else 0
    ensures Subsequence(vp, positions)
  {
    if |positions| == 0 then
      SubsequenceOfEmpty<Position>();
      []
    else
      var init := positions[..|positions| - 1];
      var rest := ValidPositions(init, validTickers);
      var last := positions[|positions| - 1];
      assert positions == init + [last];
      SubsequenceExtend(rest, init, last);
      if last.ticker in validTickers then rest + [last] else rest
  }

  /**
   * What valuing and weighting the filtered positions needs: well-formed
   * market data, at least one position, each with a positive quantity and
   * a ticker among the columns. The order and the repetition of the
   * tickers do not matter here.
   */
  predicate Priced(vp: seq<Position>, h: History)
  {
    && WellFormed(h)
    && |vp| > 0
    && forall i :: 0 <= i < |vp| ==> ValidPosition(vp[i]) && vp[i].ticker in h.validTickers
  }

  /**
   * What the matrix products need on top: one weight per covariance
   * column. The weights are still in position order, and the columns in
   * market-data order.
   */
  predicate Ready(vp: seq<Position>, h: History)
  {
    Priced(vp, h) && |vp| == |h.validTickers|
  }

  /** The filtered positions of a valid portfolio can be priced as soon as there is one. */
  lemma ValidPositionsPriced(positions: seq<Position>, h: History)
    requires ValidPortfolio(positions) && WellFormed(h)
    requires ValidPositions(positions, h.validTickers) != []
    ensures Priced(ValidPositions(positions, h.validTickers), h)
  {
    var vp := ValidPositions(positions, h.validTickers);
    forall i | 0 <= i < |vp|
      ensures ValidPosition(vp[i]) && vp[i].ticker in h.validTickers
    {
      assert vp[i] in vp;
      var j :| 0 <= j < |positions| && positions[j] == vp[i];
    }
  }

  /** A column's last price is positive; every filtered position's ticker is a column. */
  lemma ColumnPrice(h: History, t: string)
    requires WellFormed(h) && t in h.validTickers
    ensures t in h.currentPrices && h.currentPrices[t] > 0.0
  {
    var j :| 0 <= j < |h.validTickers| && h.validTickers[j] == t;
  }

  /** `quantity * current_price` for each position, looked up by its ticker. */
  function PositionValues(vp: seq<Position>, h: History): (v: seq<real>)
    requires Priced(vp, h)
    ensures |v| == |vp|
    ensures forall i :: 0 <= i < |vp| ==>
      vp[i].ticker in h.currentPrices && v[i] == vp[i].quantity * h.currentPrices[vp[i].ticker] && v[i] > 0.0
  {
    forall i | 0 <= i < |vp|
      ensures vp[i].ticker in h.currentPrices && h.currentPrices[vp[i].ticker] > 0.0
    {
      ColumnPrice(h, vp[i].ticker);
    }
    seq(|vp|, i requires 0 <= i < |vp| => vp[i].quantity * h.currentPrices[vp[i].ticker])
  }

  /** The portfolio's market value: the sum of the position values, always positive. */
  function TotalValue(vp: seq<Position>, h: History): (total: real)
    requires Priced(vp, h)
    ensures total > 0.0
  {
    SumPositive(PositionValues(vp, h));
    Sum(PositionValues(vp, h))
  }

  /** Each position's share of the total value, in position order. */
  function Weights(vp: seq<Position>, h: History): (w: seq<real>)
    requires Priced(vp, h)
    ensures |w| == |vp|
    ensures forall i :: 0 <= i < |vp| ==> w[i] * TotalValue(vp, h) == PositionValues(vp, h)[i]
  {
    Scaled(PositionValues(vp, h), 1.0 / TotalValue(vp, h))
  }

  /** The weights are fractions of the whole: each in (0, 1], together exactly 1. */
  lemma WeightsSumToOne(vp: seq<Position>, h: History)
    requires Priced(vp, h)
    ensures Sum(Weights(vp, h)) == 1.0
    ensures forall i :: 0 <= i < |vp| ==> 0.0 < Weights(vp, h)[i] <= 1.0
  {
    var v := PositionValues(vp, h);
    var total := TotalValue(vp, h);
    SumScaled(v, 1.0 / total);
    forall i | 0 <= i < |vp|
      ensures 0.0 < Weights(vp, h)[i] <= 1.0
    {
      SumDominatesEntry(v, i);
      FractionOfWhole(v[i], total);
    }
  }

  lemma FractionOfWhole(part: real, whole: real)
    requires 0.0 < part <= whole
    ensures 0.0 < part * (1.0 / whole) <= 1.0
  {
    assert part * (1.0 / whole) == part / whole;
  }

  /**
   * The weight each covariance column stands for: the combined weight of
   * the positions in that column's ticker. This is the vector the
   * volatility formula means; the calculation uses `Weights` instead.
   */
  function ColumnWeights(vp: seq<Position>, h: History): (cw: seq<real>)
    requires Priced(vp, h)
    ensures |cw| == |h.validTickers|
    ensures forall j :: 0 <= j < |cw| ==> cw[j] == SumWhere(Tickers(vp), Weights(vp, h), h.validTickers[j])
  {
    Grouped(h.validTickers, Tickers(vp), Weights(vp, h))
  }

  /** The column weights are again fractions adding up to exactly 1, whatever the position order. */
  lemma ColumnWeightsSumToOne(vp: seq<Position>, h: History)
    requires Priced(vp, h)
    ensures Sum(ColumnWeights(vp, h)) == 1.0
    ensures forall j :: 0 <= j < |h.validTickers| ==> ColumnWeights(vp, h)[j] >= 0.0
  {
    WeightsSumToOne(vp, h);
    SumOfGroups(h.validTickers, Tickers(vp), Weights(vp, h));
    forall j | 0 <= j < |h.validTickers|
      ensures ColumnWeights(vp, h)[j] >= 0.0
    {
      SumWhereNonNegative(Tickers(vp), Weights(vp, h), h.validTickers[j]);
    }
  }

  lemma {:induction false} SumWhereNonNegative(labels: seq<string>, xs: seq<real>, key: string)
    requires |labels| == |xs| && forall i :: 0 <= i < |xs| ==> xs[i] >= 0.0
    ensures SumWhere(labels, xs, key) >= 0.0
  {
    if |labels| > 0 {
      SumWhereNonNegative(labels[..|labels| - 1], xs[..|xs| - 1], key);
    }
  }

  /**
   * When the positions list the columns' tickers in column order, the
   * position-order weights are the column weights, so the calculation as
   * written is then the intended one.
   */
  lemma ColumnWeightsWhenAligned(vp: seq<Position>, h: History)
    requires Priced(vp, h) && Tickers(vp) == h.validTickers
    ensures Ready(vp, h)
    ensures ColumnWeights(vp, h) == Weights(vp, h)
  {
    var w := Weights(vp, h);
    forall j | 0 <= j < |w|
      ensures ColumnWeights(vp, h)[j] == w[j]
    {
      SumWhereUnique(Tickers(vp), w, j);
    }
  }

  /**
   * A portfolio listed as AAPL, MSFT, GOOGL against columns in the order
   * AAPL, GOOGL, MSFT passes the shape check, but the calculation pairs
   * the GOOGL column with MSFT's weight: the second weight is MSFT's 1/2,
   * while GOOGL's holding is 1/3 of the value.
   */
  lemma MisorderedPairing()
    ensures
      var h := History(
        ["AAPL", "GOOGL", "MSFT"],
        map["AAPL" := 1.0, "GOOGL" := 2.0, "MSFT" := 3.0],
        map["AAPL" := 0.0, "GOOGL" := 0.0, "MSFT" := 0.0],
        [[1.0, 0.0, 0.0], [0.0, 1.0, 0.0], [0.0, 0.0, 1.0]]);
      var vp := [Position("AAPL", 1.0, Equity), Position("MSFT", 1.0, Equity), Position("GOOGL", 1.0, Equity)];
      && Ready(vp, h)
      && Weights(vp, h)[1] == 0.5
      && ColumnWeights(vp, h)[1] == 1.0 / 3.0
  {
    var h := History(
      ["AAPL", "GOOGL", "MSFT"],
      map["AAPL" := 1.0, "GOOGL" := 2.0, "MSFT" := 3.0],
      map["AAPL" := 0.0, "GOOGL" := 0.0, "MSFT" := 0.0],
      [[1.0, 0.0, 0.0], [0.0, 1.0, 0.0], [0.0, 0.0, 1.0]]);
    var vp := [Position("AAPL", 1.0, Equity), Position("MSFT", 1.0, Equity), Position("GOOGL", 1.0, Equity)];
    assert "AAPL" != "GOOGL" && "AAPL" != "MSFT" && "GOOGL" != "MSFT" by {
      assert "AAPL"[0] != "GOOGL"[0] && "AAPL"[0] != "MSFT"[0] && "GOOGL"[0] != "MSFT"[0];
    }
    assert WellFormed(h);
    assert Priced(vp, h);
    var v := PositionValues(vp, h);
    assert v == [1.0, 3.0, 2.0];
    assert v[..2] == [1.0, 3.0] && v[..2][..1] == [1.0] && v[..2][..1][..0] == [];
    assert Sum(v[..2][..1]) == 1.0;
    assert Sum(v[..2]) == 4.0;
    assert Sum(v) == 6.0;
    var w := Weights(vp, h);
    assert w[1] == 0.5;
    var labels := Tickers(vp);
    assert labels == ["AAPL", "MSFT", "GOOGL"];
    assert SumWhere(labels, w, "GOOGL") == w[2] by {
      SumWhereUnique(labels, w, 2);
    }
  }

  /** The covariance and weight shapes numpy needs to multiply them. */
  predicate Conforms(w: seq<real>, h: History)
  {
    WellFormed(h) && |w| == |h.validTickers|
  }

  /** The annualized portfolio variance `wᵀ Σ w`, index by index. */
  function PortfolioVariance(w: seq<real>, h: History): real
    requires Conforms(w, h)
  {
    Quad(w, h.cov)
  }

  /** `Σ w`: row `i` of the covariance dotted with the weight vector. */
  function CovWithPortfolio(w: seq<real>, h: History): (sw: seq<real>)
    requires Conforms(w, h)
    ensures |sw| == |w|
  {
    MatVec(h.cov, w)
  }

  /** Marginal contribution to risk `(Σ w) / σ`. */
  function MarginalRisk(w: seq<real>, h: History, vol: real): (mr: seq<Float>)
    requires Conforms(w, h)
    ensures |mr| == |w|
    ensures forall i :: 0 <= i < |w| ==> mr[i] == Div(CovWithPortfolio(w, h)[i], vol)
  {
    var sw := CovWithPortfolio(w, h);
    seq(|w|, i requires 0 <= i < |w| => Div(sw[i], vol))
  }

  /** Component risk `w * MCR` (the Euler decomposition of σ). */
  function ComponentRisk(w: seq<real>, h: History, vol: real): (cr: seq<Float>)
    requires Conforms(w, h)
    ensures |cr| == |w|
    ensures forall i :: 0 <= i < |w| ==> cr[i] == Scale(w[i], MarginalRisk(w, h, vol)[i])
  {
    var mr := MarginalRisk(w, h, vol);
    seq(|w|, i requires 0 <= i < |w| => Scale(w[i], mr[i]))
  }

  /** Component risks normalized to percentages of their sum. */
  function RiskContributions(w: seq<real>, h: History, vol: real): (rc: seq<Float>)
    requires Conforms(w, h)
    ensures |rc| == |w|
  {
    Percentages(ComponentRisk(w, h, vol))
  }

  /** The component risks over a positive `σ`, as exact reals: `w_i (Σ w)_i / σ`. */
  function ExactComponents(w: seq<real>, h: History, vol: real): (x: seq<real>)
    requires Conforms(w, h) && vol > 0.0
    ensures |x| == |w|
  {
    Scaled(Times(w, CovWithPortfolio(w, h)), 1.0 / vol)
  }

  lemma MulDiv(a: real, b: real, c: real)
    requires c != 0.0
    ensures a * (b / c) == a * b * (1.0 / c)
  {
  }

  /** With a positive volatility every component risk is finite. */
  lemma ComponentsFinite(w: seq<real>, h: History, vol: real)
    requires Conforms(w, h) && vol > 0.0
    ensures forall i :: 0 <= i < |w| ==> ComponentRisk(w, h, vol)[i] == Finite(ExactComponents(w, h, vol)[i])
  {
    var sw := CovWithPortfolio(w, h);
    forall i | 0 <= i < |w|
      ensures ComponentRisk(w, h, vol)[i] == Finite(ExactComponents(w, h, vol)[i])
    {
      MulDiv(w[i], sw[i], vol);
    }
  }

  /** The exact component risks add up to `wᵀ Σ w / σ`, which is `σ`. */
  lemma ExactComponentsSum(w: seq<real>, h: History, vol: real)
    requires Conforms(w, h) && vol > 0.0 && IsRoot(vol, PortfolioVariance(w, h))
    ensures Sum(ExactComponents(w, h, vol)) == vol
  {
    var sw := CovWithPortfolio(w, h);
    SumScaled(Times(w, sw), 1.0 / vol);
    DotIsSumOfTimes(w, sw);
    assert Sum(Times(w, sw)) == vol * vol;
  }

  /**
   * Euler's theorem for the volatility, for any weight vector of the right
   * length: with a positive volatility the component risks are finite,
   * equal `w_i (Σ w)_i / σ`, and add up to σ.
   */
  lemma EulerDecomposition(w: seq<real>, h: History, vol: real)
    requires Conforms(w, h)
    requires vol > 0.0 && IsRoot(vol, PortfolioVariance(w, h))
    ensures forall i :: 0 <= i < |w| ==>
      ComponentRisk(w, h, vol)[i] == Finite(w[i] * CovWithPortfolio(w, h)[i] * (1.0 / vol))
    ensures FSum(ComponentRisk(w, h, vol)) == Finite(vol)
  {
    ComponentsFinite(w, h, vol);
    FSumFinite(ComponentRisk(w, h, vol), ExactComponents(w, h, vol));
    ExactComponentsSum(w, h, vol);
  }

  /**
   * With a positive volatility each contribution is the finite percentage
   * of σ its component risk makes up, and the contributions add up to 100.
   */
  lemma ContributionsSumToHundred(w: seq<real>, h: History, vol: real)
    requires Conforms(w, h)
    requires vol > 0.0 && IsRoot(vol, PortfolioVariance(w, h))
    ensures forall i :: 0 <= i < |w| ==>
      RiskContributions(w, h, vol)[i] == Finite(100.0 * (ComponentRisk(w, h, vol)[i].value / vol))
    ensures FSum(RiskContributions(w, h, vol)) == Finite(100.0)
  {
    ComponentsFinite(w, h, vol);
    ExactComponentsSum(w, h, vol);
    PercentagesOfPositiveTotal(ComponentRisk(w, h, vol), ExactComponents(w, h, vol));
  }

  /**
   * A zero volatility makes every marginal risk, component risk and
   * contribution non-finite (numpy divides by zero without raising).
   */
  lemma ZeroVolatility(w: seq<real>, h: History)
    requires Conforms(w, h)
    ensures forall i :: 0 <= i < |w| ==>
      && MarginalRisk(w, h, 0.0)[i] == NonFinite
      && ComponentRisk(w, h, 0.0)[i] == NonFinite
      && RiskContributions(w, h, 0.0)[i] == NonFinite
  {
  }

  /** Mean returns after adding each scenario shock to the ticker it names; other shocks are ignored. */
  function Shocked(meanReturns: map<string, real>, shocks: map<string, real>): (adjusted: map<string, real>)
    ensures adjusted.Keys == meanReturns.Keys
  {
    map t | t in meanReturns :: if t in shocks then meanReturns[t] + shocks[t] else meanReturns[t]
  }

  /** Shocks leave returns without a shock alone and move shocked ones by exactly the shock. */
  lemma ShockedEffect(meanReturns: map<string, real>, shocks: map<string, real>, t: string)
    requires t in meanReturns
    ensures t !in shocks ==> Shocked(meanReturns, shocks)[t] == meanReturns[t]
    ensures t in shocks ==> Shocked(meanReturns, shocks)[t] - meanReturns[t] == shocks[t]
  {
  }

  /** A scenario without shocks leaves the mean returns unchanged. */
  lemma ShockedByNothing(meanReturns: map<string, real>)
    ensures Shocked(meanReturns, map[]) == meanReturns
  {
  }

  /**
   * Copy the mean returns, then add each shock whose ticker is in the copy,
   * visiting the shocks in any order.
   */
  method ApplyShocks(meanReturns: map<string, real>, shocks: map<string, real>)
    returns (adjusted: map<string, real>)
    ensures adjusted == Shocked(meanReturns, shocks)
  {
    adjusted := meanReturns;
    var pending := shocks.Keys;
    while pending != {}
      invariant pending <= shocks.Keys
      invariant adjusted.Keys == meanReturns.Keys
      invariant forall t :: t in meanReturns ==>
        adjusted[t] == if t in shocks && t !in pending then meanReturns[t] + shocks[t] else meanReturns[t]
      decreases pending
    {
      var ticker :| ticker in pending;
      if ticker in adjusted {
        adjusted := adjusted[ticker := adjusted[ticker] + shocks[ticker]];
      }
      pending := pending - {ticker};
    }
  }

  /** The shocks a request carries: none without a scenario. */
  function ScenarioShocks(scenario: Option<Scenario>): map<string, real>
  {
    match scenario
    case None => map[]
    case Some(s) => s.factorShocks
  }

  /** Mean returns as a vector in the column order. */
  function MeanVector(tickers: seq<string>, meanReturns: map<string, real>): (mu: seq<real>)
    requires forall i :: 0 <= i < |tickers| ==> tickers[i] in meanReturns
    ensures |mu| == |tickers|
    ensures forall i :: 0 <= i < |tickers| ==> mu[i] == meanReturns[tickers[i]]
  {
    seq(|tickers|, i requires 0 <= i < |tickers| => meanReturns[tickers[i]])
  }

  /** The annualized expected portfolio return `wᵀ μ` under the given shocks, index by index. */
  function PortfolioReturn(w: seq<real>, h: History, shocks: map<string, real>): real
    requires Conforms(w, h)
  {
    Dot(w, MeanVector(h.validTickers, Shocked(h.meanReturns, shocks)))
  }

  /** The same shock `s` for every ticker with market data. */
  function UniformShocks(tickers: seq<string>, s: real): (shocks: map<string, real>)
    ensures shocks.Keys == set t | t in tickers
    ensures forall i :: 0 <= i < |tickers| ==> tickers[i] in shocks && shocks[tickers[i]] == s
  {
    map t | t in tickers :: s
  }

  /**
   * A uniform shock moves the expected portfolio return by exactly that
   * shock for any weights adding up to one, in whatever order they are.
   */
  lemma UniformShockMovesReturn(w: seq<real>, h: History, s: real)
    requires Conforms(w, h) && Sum(w) == 1.0
    ensures PortfolioReturn(w, h, UniformShocks(h.validTickers, s)) == PortfolioReturn(w, h, map[]) + s
  {
    var shocks := UniformShocks(h.validTickers, s);
    var mu := MeanVector(h.validTickers, Shocked(h.meanReturns, map[]));
    var shocked := MeanVector(h.validTickers, Shocked(h.meanReturns, shocks));
    forall i | 0 <= i < |w|
      ensures shocked[i] == mu[i] + s
    {
      var t := h.validTickers[i];
      ShockedEffect(h.meanReturns, shocks, t);
      ShockedEffect(h.meanReturns, map[], t);
    }
    DotShifted(w, mu, shocked, s);
  }

  /**
   * The risk figures are sound for the per-column weights too, whatever
   * the position order: with a positive volatility the contributions add
   * up to 100, and a uniform shock moves the expected return by the shock.
   */
  lemma AlignedRisk(vp: seq<Position>, h: History, vol: real, s: real)
    requires Priced(vp, h)
    requires vol > 0.0 && IsRoot(vol, PortfolioVariance(ColumnWeights(vp, h), h))
    ensures FSum(RiskContributions(ColumnWeights(vp, h), h, vol)) == Finite(100.0)
    ensures PortfolioReturn(ColumnWeights(vp, h), h, UniformShocks(h.validTickers, s))
            == PortfolioReturn(ColumnWeights(vp, h), h, map[]) + s
  {
    var cw := ColumnWeights(vp, h);
    ColumnWeightsSumToOne(vp, h);
    ContributionsSumToHundred(cw, h, vol);
    UniformShockMovesReturn(cw, h, s);
  }

  /**
   * One-day parametric VaR as written: the absolute value of the portfolio
   * value times `z σ/√252 − μ/252`, where `rootDays` is √252 and `z` the 5%
   * normal quantile.
   */
  function ParametricVar(totalValue: real, vol: real, portfolioReturn: real, z: real, rootDays: real): (var95: real)
    requires IsRoot(rootDays, TradingDays)
    ensures var95 >= 0.0
  {
    Abs(totalValue * (z * (vol / rootDays) - portfolioReturn / TradingDays))
  }

  /** With no expected return the VaR is the familiar `V |z| σ / √252`. */
  lemma ParametricVarWithoutDrift(totalValue: real, vol: real, z: real, rootDays: real)
    requires IsRoot(rootDays, TradingDays) && totalValue >= 0.0 && vol >= 0.0
    ensures ParametricVar(totalValue, vol, 0.0, z, rootDays) == totalValue * Abs(z) * vol / rootDays
  {
    var d := vol / rootDays;
    assert d >= 0.0;
    if z < 0.0 {
      assert z * d <= 0.0;
      assert totalValue * (z * d) <= 0.0;
    } else {
      assert totalValue * (z * d) >= 0.0;
    }
  }

  /** The VaR scales with the size of the portfolio. */
  lemma ParametricVarHomogeneous(totalValue: real, k: real, vol: real, ret: real, z: real, rootDays: real)
    requires IsRoot(rootDays, TradingDays) && k >= 0.0
    ensures ParametricVar(k * totalValue, vol, ret, z, rootDays) == k * ParametricVar(totalValue, vol, ret, z, rootDays)
  {
    var x := z * (vol / rootDays) - ret / TradingDays;
    assert k * totalValue * x == k * (totalValue * x);
    if totalValue * x < 0.0 {
      assert k * (totalValue * x) <= 0.0;
    } else {
      assert k * (totalValue * x) >= 0.0;
    }
  }

  /** Each column's own annualized volatility, by ticker: the root of its covariance diagonal entry. */
  predicate AssetVolatilities(h: History, assetVols: map<string, real>)
    requires WellFormed(h)
  {
    forall j :: 0 <= j < |h.validTickers| ==>
      h.validTickers[j] in assetVols && IsRoot(assetVols[h.validTickers[j]], h.cov[j][j])
  }

  /** Every filtered position has a volatility under its ticker. */
  predicate VolatilityFor(vp: seq<Position>, assetVols: map<string, real>)
  {
    forall i :: 0 <= i < |vp| ==> vp[i].ticker in assetVols
  }

  lemma OwnVolatility(vp: seq<Position>, h: History, assetVols: map<string, real>)
    requires Priced(vp, h) && AssetVolatilities(h, assetVols)
    ensures VolatilityFor(vp, assetVols)
  {
    forall i | 0 <= i < |vp|
      ensures vp[i].ticker in assetVols
    {
      assert vp[i].ticker in h.validTickers;
      var j :| 0 <= j < |h.validTickers| && h.validTickers[j] == vp[i].ticker;
    }
  }

  /**
   * The breakdown row of position `i`: its value and weight in position
   * order, its volatility looked up by its own ticker, and the risk
   * figures at index `i` of the weight-times-covariance products.
   */
  function Row(vp: seq<Position>, h: History, vol: real, assetVols: map<string, real>, i: nat): PositionRisk
    requires Ready(vp, h) && VolatilityFor(vp, assetVols) && i < |vp|
  {
    var w := Weights(vp, h);
    PositionRisk(
      vp[i].ticker, vp[i].quantity, h.currentPrices[vp[i].ticker],
      PositionValues(vp, h)[i], w[i], assetVols[vp[i].ticker],
      RiskContributions(w, h, vol)[i], MarginalRisk(w, h, vol)[i])
  }

  /** The position-level breakdown: one row per valid position, in portfolio order. */
  function Breakdown(vp: seq<Position>, h: History, vol: real, assetVols: map<string, real>): (rows: seq<PositionRisk>)
    requires Ready(vp, h) && VolatilityFor(vp, assetVols)
    ensures |rows| == |vp|
    ensures forall i :: 0 <= i < |vp| ==> rows[i] == Row(vp, h, vol, assetVols, i)
  {
    seq(|vp|, i requires 0 <= i < |vp| => Row(vp, h, vol, assetVols, i))
  }

  /**
   * Row `i` of the breakdown describes position `i`: its ticker, quantity
   * and price, its value and weight, the volatility of its own ticker's
   * column, and the contribution and marginal risk at index `i`.
   */
  lemma BreakdownRow(vp: seq<Position>, h: History, vol: real, assetVols: map<string, real>, i: nat)
    requires Ready(vp, h) && AssetVolatilities(h, assetVols) && i < |vp|
    requires VolatilityFor(vp, assetVols)
    ensures var row := Breakdown(vp, h, vol, assetVols)[i];
      && row.ticker == vp[i].ticker && row.quantity == vp[i].quantity
      && row.currentPrice == h.currentPrices[vp[i].ticker]
      && row.value == PositionValues(vp, h)[i] && row.weight == Weights(vp, h)[i]
      && (forall j :: 0 <= j < |h.validTickers| && h.validTickers[j] == vp[i].ticker ==> IsRoot(row.volatility, h.cov[j][j]))
      && row.riskContributionPct == RiskContributions(Weights(vp, h), h, vol)[i]
      && row.marginalRisk == MarginalRisk(Weights(vp, h), h, vol)[i]
  {
  }

  /**
   * The breakdown's weights add up to one; with a positive volatility its
   * contributions add up to 100, and with a zero volatility they are all
   * non-finite.
   */
  lemma BreakdownTotals(vp: seq<Position>, h: History, vol: real, assetVols: map<string, real>)
    requires Ready(vp, h) && VolatilityFor(vp, assetVols)
    requires IsRoot(vol, PortfolioVariance(Weights(vp, h), h))
    ensures Sum(WeightsOf(Breakdown(vp, h, vol, assetVols))) == 1.0
    ensures vol > 0.0 ==> FSum(ContributionsOf(Breakdown(vp, h, vol, assetVols))) == Finite(100.0)
    ensures vol == 0.0 ==> forall i :: 0 <= i < |vp| ==> Breakdown(vp, h, vol, assetVols)[i].riskContributionPct == NonFinite
  {
    var rows := Breakdown(vp, h, vol, assetVols);
    var w := Weights(vp, h);
    WeightsSumToOne(vp, h);
    assert WeightsOf(rows) == w;
    if vol > 0.0 {
      ContributionsSumToHundred(w, h, vol);
      assert ContributionsOf(rows) == RiskContributions(w, h, vol);
    } else {
      ZeroVolatility(w, h);
    }
  }

  /**
   * The mean returns the VaR uses: shocked by the scenario's factor shocks
   * when a scenario with shocks is given, and the historical ones otherwise.
   */
  method ScenarioReturns(meanReturns: map<string, real>, scenario: Option<Scenario>) returns (m: map<string, real>)
    ensures m == Shocked(meanReturns, ScenarioShocks(scenario))
    ensures m.Keys == meanReturns.Keys
  {
    m := meanReturns;
    if scenario.Some? && scenario.value.factorShocks != map[] {
      m := ApplyShocks(m, scenario.value.factorShocks);
    } else {
      ShockedByNothing(m);
    }
  }

  /** The loop that appends one breakdown row per valid position. */
  method BuildBreakdown(vp: seq<Position>, h: History, vol: real, assetVols: map<string, real>) returns (rows: seq<PositionRisk>)
    requires Ready(vp, h) && VolatilityFor(vp, assetVols)
    ensures rows == Breakdown(vp, h, vol, assetVols)
  {
    rows := [];
    for i := 0 to |vp|
      invariant |rows| == i
      invariant forall k :: 0 <= k < i ==> rows[k] == Row(vp, h, vol, assetVols, k)
    {
      rows := rows + [Row(vp, h, vol, assetVols, i)];
    }
  }

  /**
   * Calculate the risk report of a portfolio from its market data, as the
   * code pairs the vectors: the weights in position order against the
   * covariance and mean returns in column order. `vol` is the root of that
   * portfolio variance, `assetVols` the roots of the covariance diagonal by
   * ticker, `z` the 5% normal quantile and `rootDays` √252. Fails when no
   * position has market data, and when the number of valid positions is
   * not the number of columns (numpy's shape error); otherwise the value
   * is positive, the weights add up to one, a positive volatility is split
   * into contributions that add up to 100, the VaR is the parametric VaR
   * under the scenario's shocks, and the explanation is built from the
   * breakdown.
   */
  method CalculateRisk(
    positions: seq<Position>, h: History, scenario: Option<Scenario>,
    vol: real, assetVols: map<string, real>, z: real, rootDays: real)
    returns (r: Result<RiskOutput, RiskError>)
    requires ValidPortfolio(positions) && WellFormed(h)
    requires IsRoot(rootDays, TradingDays) && AssetVolatilities(h, assetVols)
    requires Ready(ValidPositions(positions, h.validTickers), h) ==>
      IsRoot(vol, PortfolioVariance(Weights(ValidPositions(positions, h.validTickers), h), h))
    ensures r == Err(NoValidPositions) <==> ValidPositions(positions, h.validTickers) == []
    ensures r == Err(ShapeMismatch) <==>
      ValidPositions(positions, h.validTickers) != [] && |ValidPositions(positions, h.validTickers)| != |h.validTickers|
    ensures r.Ok? <==> Ready(ValidPositions(positions, h.validTickers), h)
    ensures r.Ok? ==> r.value.totalValue == TotalValue(ValidPositions(positions, h.validTickers), h)
    ensures r.Ok? ==> r.value.totalValue > 0.0 && r.value.volatilityAnnualized == vol
    ensures r.Ok? ==> r.value.positions == Breakdown(ValidPositions(positions, h.validTickers), h, vol, assetVols)
    ensures r.Ok? ==> Sum(WeightsOf(r.value.positions)) == 1.0
    ensures r.Ok? && vol > 0.0 ==> FSum(ContributionsOf(r.value.positions)) == Finite(100.0)
    ensures r.Ok? ==> r.value.var95 >= 0.0
    ensures r.Ok? ==> r.value.var95 == ParametricVar(r.value.totalValue, vol,
      PortfolioReturn(Weights(ValidPositions(positions, h.validTickers), h), h, ScenarioShocks(scenario)), z, rootDays)
    ensures r.Ok? ==>
      r.value.explanation == GenerateExplanation(vol, r.value.positions, r.value.totalValue, r.value.var95)
  {
    var vp := ValidPositions(positions, h.validTickers);
    if vp == [] {
      return Err(NoValidPositions);
    }
    ValidPositionsPriced(positions, h);
    var total := TotalValue(vp, h);
    var w := Weights(vp, h);

    var meanReturns := ScenarioReturns(h.meanReturns, scenario);
    if |w| != |h.validTickers| {
      return Err(ShapeMismatch);
    }
    var ret := Dot(w, MeanVector(h.validTickers, meanReturns));
    var var95 := ParametricVar(total, vol, ret, z, rootDays);

    OwnVolatility(vp, h, assetVols);
    var breakdown := BuildBreakdown(vp, h, vol, assetVols);
    BreakdownTotals(vp, h, vol, assetVols);

    var explanation := GenerateExplanation(vol, breakdown, total, var95);
    r := Ok(RiskOutput(total, vol, var95, breakdown, explanation));
  }
}
