# RiskLens analytics core, modelled in Dafny

RiskLens is a portfolio risk service. A portfolio is a list of positions: a ticker, a quantity and an asset class. The backend downloads price history for those tickers and produces a risk report. The report contains:

- the portfolio's market value and weights;
- annualised volatility and its Euler decomposition into per-position risk contributions;
- a one-day parametric value at risk (VaR), optionally under a stress scenario;
- a plain-language explanation;
- performance ratios (Sharpe and Sortino);
- the correlation matrix;
- drawdown statistics;
- alpha and beta against a benchmark;
- the growth of $10,000.

Beside the report the service offers three more things:

- An optimiser. It sweeps an efficient frontier and plans rebalancing trades toward a target portfolio.
- A catalog of historical crises. It projects the impact of each crisis on a portfolio value.
- A Monte Carlo VaR. It has a comparison against the parametric VaR.

This project models the deterministic part of that backend and proves its properties:

- Position values, weights and the risk decomposition.
- Scenario shocks and the parametric VaR.
- The explanation's risk level, top-three drivers and sentences.
- Sharpe and Sortino ratios.
- The row-major flattening of the correlation matrix.
- The drawdown series, maximum drawdown, its date, recovery time and chart window.
- Benchmark alignment, alpha, beta and correlation.
- The growth-of-$10,000 curves.
- The period map.
- The rebalancing planner, with its holdings loop, thresholds, BUY/SELL labels and the sort by amount.
- The frontier sweep, with the numerical solver as a parameter.
- The crisis catalog and impact arithmetic.
- The VaR, CVaR, statistics, sample and method comparison of the Monte Carlo run.

Modelling conventions:

- Python floats are exact `real`s.
- A numpy division by zero, which yields NaN or infinity without raising, is `Numerics.Float.NonFinite`.
- Python's `<` on such a value is false (`Numerics.Below`).
- Every square root the code takes is passed in as a value `r` with `r ≥ 0 ∧ r·r = x` (`Numerics.IsRoot`). Dafny has no square root on reals.
- pandas Series are sequences of dated observations (`Series.Obs`), and dicts are maps.
- Python's `sorted(..., reverse=True)` is one stable index sort (`Sorting`), used for the explanation's top drivers and for the trade list.
- A Python `set` is walked in an unspecified order, so the model's walk picks its next element nondeterministically.
- The price download, the benchmark download, the random number generator, the percentile and the SLSQP solver are all outside the model. Their results enter as parameters.

Module layout, one file each:

- Support modules: `wrappers`, `numerics`, `vectors`, `series`, `sorting`, `subsequences`, `grouping`, `models`.
- `market_data`: what the data step hands over, and the period map.
- `risk_engine`: `calculate_risk`.
- `explanation`, `performance`, `correlation`, `drawdown`, `benchmark`, `growth`.
- `rebalancing` and `frontier`: `optimization.py`.
- `scenarios`: `scenarios.py`.
- `monte_carlo`: `monte_carlo.py`.

## Model

| member | source | states |
|---|---|---|
| MarketData.ProviderPeriod | backend/api/risk_engine.py:21-30 | A known user period maps to its provider code, which differs from it. Any other period passes through unchanged. |
| RiskEngine.ValidPositions | backend/api/risk_engine.py:422-425 | A position is kept exactly when its ticker has market data. Each kept position occurs as often as in the portfolio, and the kept positions stay in portfolio order. The result is never longer than the portfolio. |
| RiskEngine.ValidPositionsPriced | backend/api/risk_engine.py:422-434 | Suppose the portfolio is valid, the market data well formed, and some position survives the filter. Then every survivor has a positive quantity and a ticker among the columns, whatever the order or repetition of the tickers. |
| RiskEngine.PositionValues | backend/api/risk_engine.py:431-434 | Each position value is its quantity times the current price of its own ticker, and it is positive. This holds in any position order and with repeated tickers. |
| RiskEngine.TotalValue | backend/api/risk_engine.py:436 | The total value of a non-empty filtered portfolio is positive. |
| RiskEngine.Weights | backend/api/risk_engine.py:439 | One weight per position, in position order; each weight times the total value is that position's value. |
| RiskEngine.WeightsSumToOne | backend/api/risk_engine.py:436-439 | The weights add up to exactly 1, and each lies in (0, 1], in any position order. |
| RiskEngine.ColumnWeightsSumToOne | backend/api/risk_engine.py:436-450 | The per-column weights (the combined weight of each column's ticker) are non-negative and add up to exactly 1, in any position order and with repeated tickers. |
| RiskEngine.ColumnWeightsWhenAligned | backend/api/risk_engine.py:449-450 | When the positions list the columns' tickers in column order, the shape check passes and the position-order weights are the per-column weights. |
| RiskEngine.MisorderedPairing | backend/api/risk_engine.py:449-457 | For positions AAPL, MSFT, GOOGL with values 1, 3, 2 against columns AAPL, GOOGL, MSFT, the shape check passes. Yet the weight the code pairs with the GOOGL column is MSFT's 1/2, while GOOGL's per-column weight is 1/3. |
| RiskEngine.AlignedRisk | backend/api/risk_engine.py:453-468 | With the per-column weights and σ > 0, the contributions add up to 100. A uniform shock moves the expected return by exactly the shock. |
| RiskEngine.MarginalRisk | backend/api/risk_engine.py:457 | For any weight vector with one entry per covariance column, marginal risk i is the float64 quotient of `(Σw)_i` by the volatility. It is non-finite exactly when the volatility is 0. |
| RiskEngine.ComponentRisk | backend/api/risk_engine.py:460 | Component risk i is weight i times marginal risk i, index by index. It is non-finite when the marginal risk is. |
| RiskEngine.ComponentsFinite | backend/api/risk_engine.py:457-460 | For any conforming weight vector and σ > 0, every component risk is finite and equals `w_i (Σw)_i / σ`. |
| RiskEngine.ExactComponentsSum | backend/api/risk_engine.py:453-460 | For any conforming weight vector, the exact component risks add up to `wᵀΣw / σ`, which is σ. |
| RiskEngine.EulerDecomposition | backend/api/risk_engine.py:453-460 | Euler's theorem for any conforming weight vector, in any order. With σ > 0 the component risks are `w_i (Σw)_i / σ`, and their float64 sum is exactly σ. |
| RiskEngine.ContributionsSumToHundred | backend/api/risk_engine.py:463 | For any conforming weight vector and σ > 0, each contribution is 100 times its component's share of σ. The contributions add up to 100. |
| RiskEngine.ZeroVolatility | backend/api/risk_engine.py:454-463 | For any conforming weight vector and σ = 0, every marginal risk, component risk and contribution is non-finite, not an error. |
| RiskEngine.Shocked | backend/api/risk_engine.py:442-447 | Shocking never adds or removes a ticker from the mean returns. |
| RiskEngine.ShockedEffect | backend/api/risk_engine.py:444-446 | A ticker with a shock moves by exactly that shock. A ticker without one keeps its mean return. |
| RiskEngine.ShockedByNothing | backend/api/risk_engine.py:442 | No shocks leave the mean returns unchanged. |
| RiskEngine.ApplyShocks | backend/api/risk_engine.py:443-447 | The copy-then-add loop, visiting the shocks in any order, produces the shocked returns. |
| RiskEngine.ScenarioReturns | backend/api/risk_engine.py:442-447 | The returns the VaR uses are the mean returns shocked by the scenario's shocks, with no shocks when there is no scenario. The ticker set is unchanged. |
| RiskEngine.UniformShockMovesReturn | backend/api/risk_engine.py:468 | For any weight vector of column length that adds up to one, in whatever order, shocking every ticker by `s` moves the expected return `wᵀμ` by exactly `s`. |
| RiskEngine.ParametricVar | backend/api/risk_engine.py:467-470 | The VaR is never negative. |
| RiskEngine.ParametricVarWithoutDrift | backend/api/risk_engine.py:470 | With no expected return, the VaR is `V·|z|·σ/√252`. |
| RiskEngine.ParametricVarHomogeneous | backend/api/risk_engine.py:470 | Scaling the portfolio value by k ≥ 0 scales the VaR by k. |
| RiskEngine.Breakdown | backend/api/risk_engine.py:473-484 | The breakdown has one row per valid position, in portfolio order, and row i is built from position i. |
| RiskEngine.BreakdownRow | backend/api/risk_engine.py:474-484 | Row i carries position i's ticker, quantity, price, value and weight. Its volatility is the root of the covariance diagonal of its own ticker's column, looked up by label. Its contribution and marginal risk are entry i of the index-paired products. |
| RiskEngine.BreakdownTotals | backend/api/risk_engine.py:473-484 | In any position order, the breakdown weights add up to 1. With σ > 0 the contributions add up to 100; with σ = 0 each is non-finite. |
| RiskEngine.BuildBreakdown | backend/api/risk_engine.py:473-484 | The append loop produces exactly the breakdown. |
| RiskEngine.CalculateRisk | backend/api/risk_engine.py:379-558 | Fails with `NoValidPositions` exactly when no position has market data, as at line 427-428. Fails with `ShapeMismatch` exactly when there are valid positions but not one per column, where numpy's `dot` raises at line 453. Otherwise the weights stay in position order against the column-ordered covariance, as the code pairs them. The report has: a positive total value; the given volatility; the breakdown; weights summing to 1; contributions summing to 100 when σ > 0; and a non-negative VaR equal to the parametric VaR under the scenario's shocks. The explanation is built from the breakdown. |
| Explanation.RiskLevelOf | backend/api/risk_engine.py:584-591 | Each level holds exactly on its band: very high above 0.30, high on (0.20, 0.30], moderate on (0.10, 0.20], low at or below 0.10. |
| Explanation.RiskLevelMonotone | backend/api/risk_engine.py:584-591 | A more volatile portfolio never gets a lower risk level. |
| Explanation.TopIndices | backend/api/risk_engine.py:594-598 | Picks min(3, n) distinct positions in non-increasing contribution order, ties in input order. No unpicked position ranks above a picked one. An unpicked position that ties a picked one comes later in the input. |
| Explanation.GenerateExplanation | backend/api/risk_engine.py:560-627 | There are 1 to 3 top drivers in non-increasing contribution order. The summary gives the level sentence, the VaR share `var95/total`, and the largest contributor. A fourth "together" sentence with the drivers' combined contribution appears exactly when there is more than one position. |
| Performance.SharpeRatio | backend/api/risk_engine.py:150 | The ratio is 0 when the volatility is not positive. Otherwise the ratio times the volatility is the excess return. |
| Performance.Downside | backend/api/risk_engine.py:156 | The downside holds exactly the negative daily returns. It is never longer than the returns. |
| Performance.DownsideInOrder | backend/api/risk_engine.py:156 | Each negative return occurs in the downside as often as among the daily returns, and in the same order. |
| Performance.DownsideEmpty | backend/api/risk_engine.py:156-161 | The downside is empty exactly when no daily return is negative. |
| Performance.SortinoRatio | backend/api/risk_engine.py:157-161 | With no downside the ratio is the Sharpe ratio. With one negative return it is 0, because pandas' one-value deviation is NaN. With a zero deviation it is 0. Otherwise the ratio times the annualised downside deviation is the excess return. |
| Performance.PerformanceMetricsOf | backend/api/risk_engine.py:125-168 | Combines the Sharpe and Sortino contracts above for the daily returns `rows · w`. Without a negative day the Sortino ratio is the Sharpe ratio. With a positive downside deviation it is the excess return over the annualised deviation. The annualised return and risk-free rate are passed through. |
| Performance.RatiosFollowExcessReturn | backend/api/risk_engine.py:150-161 | Both ratios are non-negative when the return beats the risk-free rate and non-positive when it does not. With σ > 0, the Sharpe ratio is positive exactly when the return beats the rate. |
| Correlation.RowMajorIndex | backend/api/risk_engine.py:191-197 | Entry `i·n + j` of the flattened list pairs ticker i with ticker j and carries `corr[i][j]`. |
| Correlation.FlattenCorrelation | backend/api/risk_engine.py:171-202 | The nested loop returns the tickers and `n·n` entries, with entry `i·n + j` equal to `(tickers[i], tickers[j], corr[i][j])`. |
| Correlation.RowMajorMirror | backend/api/risk_engine.py:185-197 | For a symmetric matrix, entries `i·n + j` and `j·n + i` carry the same correlation with the tickers swapped. A diagonal entry pairs a ticker with itself. |
| Series.CumGrowth | backend/api/risk_engine.py:227 | Entry t of the wealth index is the compound growth of returns 0..t. |
| Series.CumGrowthRecurrence | backend/api/risk_engine.py:227 | The wealth index starts at `1 + r[0]` and multiplies in one `1 + r[t]` per period. |
| Series.CumGrowthLast | backend/api/risk_engine.py:227 | The last wealth entry is the total growth. |
| Series.ArgMin | backend/api/risk_engine.py:239 | `idxmin` gives the first position of the smallest entry. |
| Series.ArgMax | backend/api/risk_engine.py:248 | `idxmax` gives the first position of the largest entry. |
| Series.RunningMax | backend/api/risk_engine.py:230 | Entry t is the maximum of entries 0..t. |
| Series.RunningMaxProperties | backend/api/risk_engine.py:230 | The running maximum dominates the series, is attained at or before each point, and never decreases. |
| Series.SampleVarNonNegative | backend/api/risk_engine.py:350 | A sample variance with ddof 1 is never negative. |
| Series.ValueOn | backend/api/risk_engine.py:343 | A date's value is found exactly when the series has that date, and it is a recorded value for that date. |
| Series.AlignSound | backend/api/risk_engine.py:343 | Every joined row pairs an observation of the first series with the second series' value on the same date. |
| Series.AlignComplete | backend/api/risk_engine.py:343 | Every date of the first series that the second also has is joined. |
| Series.AlignChronological | backend/api/risk_engine.py:343 | Joining a chronological series keeps the dates strictly increasing. |
| Series.Tail | backend/api/risk_engine.py:258 | `tail(min(n, len))` gives the last min(n, len) entries in order. |
| Drawdown.GrowthPositive | backend/api/risk_engine.py:227 | Returns above −100% compound to a positive growth. |
| Drawdown.WealthPositive | backend/api/risk_engine.py:227-230 | The wealth index and its running peak stay positive. |
| Drawdown.DrawdownSeries | backend/api/risk_engine.py:233 | Each drawdown is `(wealth − peak) / peak`, with a positive peak. |
| Drawdown.DrawdownAt | backend/api/risk_engine.py:227-233 | On a given day the drawdown lies in (−1, 0], and it is 0 exactly when wealth stands at its running peak. |
| Drawdown.DrawdownBounds | backend/api/risk_engine.py:233 | Every drawdown lies in (−1, 0]. It is 0 exactly where wealth stands at its running peak. |
| Drawdown.FirstAtLeast | backend/api/risk_engine.py:250-254 | Finds the first index from the start point where wealth reaches the level, or reports that wealth stays below it. |
| Drawdown.DrawdownMetricsOf | backend/api/risk_engine.py:205-273 | An empty history fails, because there is no minimum to take. Any other history yields metrics. |
| Drawdown.MaxDrawdownIsMinimum | backend/api/risk_engine.py:236-242 | The maximum drawdown is the smallest drawdown, occurs in the series, and lies in (−1, 0]. Its date is its first occurrence. The current drawdown is the last one. |
| Drawdown.NoDrawdownNoRecovery | backend/api/risk_engine.py:245-269 | A date is reported exactly when the maximum drawdown is negative. With no drawdown the recovery time is 0. The maximum drawdown is 0 exactly when every date is a new peak. |
| Drawdown.PeakBeforeTrough | backend/api/risk_engine.py:248 | The peak before the trough holds the running maximum's value at the trough. |
| Drawdown.RecoveryIsFirstReturnToPeak | backend/api/risk_engine.py:248-255 | A recovery is the first date from the trough on where wealth is back at the pre-trough peak. The recovery time is the days between, and is positive. Without a recovery it is 0. |
| Drawdown.DrawdownWindow | backend/api/risk_engine.py:258-265 | The chart gets the last min(252, n) dated drawdowns in date order. The last point is the current drawdown. |
| Benchmark.AlphaBetaOf | backend/api/risk_engine.py:318-363 | With fewer than two common dates everything is 0. Otherwise: beta times the benchmark variance is the covariance, or beta is 0 for a flat benchmark; the alpha plus the CAPM return is the portfolio return; and the correlation times both deviations is the covariance, non-finite exactly when a deviation is 0. |
| Benchmark.AlignSelf | backend/api/risk_engine.py:343 | A chronological series joined with itself pairs every value with itself. |
| Benchmark.AlignSelfValues | backend/api/risk_engine.py:343 | Joined with itself, a series gives its own values on both sides. |
| Benchmark.SelfComparison | backend/api/risk_engine.py:343-357 | A portfolio that moves exactly like a varying benchmark has beta 1 and correlation 1. Its alpha is its return minus the benchmark's. |
| GrowthChart.GrowthOf10k | backend/api/risk_engine.py:628-655 | Nothing is returned when either series is empty or there is no common date. Otherwise the dates are the common dates, and each curve is $10,000 compounded through that series' aligned returns. |
| GrowthChart.Compounded | backend/api/risk_engine.py:643-644 | One value per period. |
| GrowthChart.CompoundedFirst | backend/api/risk_engine.py:643-644 | The curve starts at $10,000 grown by the first return. |
| GrowthChart.CompoundedStep | backend/api/risk_engine.py:643-644 | Each value is the previous one times `1 + r[t]`. |
| GrowthChart.CompoundedLast | backend/api/risk_engine.py:643-644 | The curve ends at $10,000 times the total growth. |
| GrowthChart.GrowthDates | backend/api/risk_engine.py:636-647 | Every plotted date is a date of both series. With a chronological portfolio series, the dates increase. |
| Rebalancing.HoldingsKeys | backend/api/optimization.py:145-155 | The held tickers are exactly the positions' tickers. |
| Rebalancing.HoldingsLastWins | backend/api/optimization.py:146-155 | With duplicate tickers, the quantity of the last one is kept. |
| Rebalancing.HoldingsOf | backend/api/optimization.py:145-155 | The holdings loop builds the holdings map. |
| Rebalancing.TradeOf | backend/api/optimization.py:160-183 | A proposed trade: amount over $10 and at least 0.1 shares; BUY exactly when the target value exceeds the current value; current weight times total equals the current value; target weight as given. The amount is the absolute difference between target value and current value, and the shares are that signed difference over the price, in absolute value. |
| Rebalancing.TradeReachesTarget | backend/api/optimization.py:164-178 | At a positive price, carrying out the trade makes the holding's value exactly the target value. |
| Rebalancing.UntargetedHoldingSold | backend/api/optimization.py:164-177 | A held ticker with no target weight, positive quantity and positive price is sold in full: all its shares and its whole current value. |
| Rebalancing.SortedByAmountCorrect | backend/api/optimization.py:185 | The sort keeps exactly the same trades, never repeats a ticker, and orders them by non-increasing amount. |
| Rebalancing.ProposeTrade | backend/api/optimization.py:160-183 | Per ticker: no trade for a missing or zero price or a gap under the thresholds. Otherwise the trade is proposed, but the call fails on a zero total value. |
| Rebalancing.CalculateRebalancingTrades | backend/api/optimization.py:124-185 | Fails exactly when the total value is 0 and some held or targeted ticker passes the thresholds. Otherwise it returns exactly the tickers that pass. Each comes once with its proposed trade, largest amount first. |
| Frontier.LinspaceEvenlySpaced | backend/api/optimization.py:84 | The grid starts at the minimum-volatility return and, with two or more points, ends at the highest mean return. The step is constant. |
| Frontier.LinspaceIncreasing | backend/api/optimization.py:84 | A grid from a lower to a higher return increases strictly. |
| Frontier.SolvedSubsequence | backend/api/optimization.py:86-103 | The kept targets sit at increasing grid positions whose solves succeeded. Every successful position is kept, and there are never more kept than grid points. |
| Frontier.SolvedMembers | backend/api/optimization.py:101-103 | A target is kept exactly when it is on the grid and its solve succeeded. |
| Frontier.CollectFrontier | backend/api/optimization.py:78-103 | The loop returns the successful targets in grid order, each paired with its solve's volatility. The two lists have equal length. |
| Frontier.MaxReturn | backend/api/optimization.py:83 | The highest mean return is one of the mean returns and at least every one. |
| Frontier.EfficientFrontier | backend/api/optimization.py:78-109 | The frontier targets come from the `num_points` grid. Both lists have the same length, at most `num_points`, and each volatility is its target's solve. |
| Frontier.FrontierReturnsIncreasing | backend/api/optimization.py:83-103 | When the minimum-volatility return is below the highest mean return, the frontier's returns increase strictly. |
| Scenarios.CatalogKeys | backend/api/scenarios.py:17-54 | The catalog has exactly four keys, each once, in the listed order. |
| Scenarios.ShocksAreBoundedLosses | backend/api/scenarios.py:22-49 | Every catalog shock lies in (−1, 0). |
| Scenarios.GetScenarioImpact | backend/api/scenarios.py:57-95 | An unknown id is an error. Otherwise the scenario's details are copied, projected value = original + projected loss, loss ·100 = value · loss %, and loss % = market-shock % = shock·100. |
| Scenarios.ImpactWithinValue | backend/api/scenarios.py:78-79 | For a positive value every scenario projects a value strictly between 0 and the original and a negative loss. |
| Scenarios.GetAllScenarios | backend/api/scenarios.py:109-118 | One summary per catalog key, in catalog order, with the key as its id. |
| Scenarios.AllScenariosCoverCatalog | backend/api/scenarios.py:98-118 | The list has four entries, covers every catalog key and repeats none. |
| MonteCarlo.UniformSimulation | backend/api/monte_carlo.py:71-74 | A draw in which every asset returns `s` moves a fully invested portfolio to exactly `V·(1+s)`. |
| MonteCarlo.LossesBeyondInOrder | backend/api/monte_carlo.py:83 | Each value below the threshold occurs among the losses as often as among the simulated values, and in the same order. |
| MonteCarlo.LossesBeyondMembers | backend/api/monte_carlo.py:83 | A value is beyond VaR exactly when it was simulated and is below the threshold. |
| MonteCarlo.NoLossesIffThresholdAtMostMin | backend/api/monte_carlo.py:83-87 | No value lies below the threshold exactly when the threshold is at most the smallest simulated value. |
| MonteCarlo.ValueAtRisk | backend/api/monte_carlo.py:78-87 | VaR = V − threshold. CVaR is V minus the mean of the values below the threshold, or VaR when there are none. |
| MonteCarlo.MeanBelow | backend/api/monte_carlo.py:85 | A mean of values all below a bound is below it. |
| MonteCarlo.CvarAtLeastVar | backend/api/monte_carlo.py:83-87 | CVaR is never below VaR. It is strictly above whenever some value lies below the threshold. |
| MonteCarlo.MeanWithinRange | backend/api/monte_carlo.py:111-114 | The simulated mean lies between the simulated minimum and maximum. |
| MonteCarlo.DistributionOf | backend/api/monte_carlo.py:110-116 | The mean is the mean of the values, and min ≤ mean ≤ max. Every value lies within [min, max], and min and max are simulated values. std is the non-negative root of the population variance. |
| MonteCarlo.SimulationReport | backend/api/monte_carlo.py:78-118 | For given simulated values: VaR is V − threshold, and CVaR is the `ValueAtRisk` CVaR, V minus the mean of the values below the threshold or VaR when there are none. CVaR ≥ VaR, strictly above exactly when some value is below the threshold. The report has the number of values, the distribution summary, and a sample of min(1000, n) values, each the value at its drawn position. |
| MonteCarlo.SampleOf | backend/api/monte_carlo.py:71-103 | The sample has one value per drawn position: `V·(1 + draw·w)` for the draw at that position. |
| MonteCarlo.MonteCarloVar | backend/api/monte_carlo.py:63-118 | From the draws and the weights: VaR is V − threshold, and CVaR is the `ValueAtRisk` CVaR of the portfolio values `V·(1 + draw·w)`. CVaR ≥ VaR, strictly above exactly when some portfolio value is below the threshold. The report has one simulation per draw, the distribution summary of those values, and a sample of min(1000, n) of them at the drawn positions. |
| MonteCarlo.SampleDrawnWithoutReplacement | backend/api/monte_carlo.py:101-103 | Distinct sample slots hold distinct simulations, each a simulated value. |
| MonteCarlo.CompareVarMethods | backend/api/monte_carlo.py:121-151 | difference = mc − parametric. The percentage is 0 for a non-positive parametric VaR; otherwise percentage times parametric VaR is 100 times the difference. |
| MonteCarlo.ComparisonPercentage | backend/api/monte_carlo.py:141-142 | With a positive parametric VaR, the percentage is positive exactly when the Monte Carlo VaR is larger. The parametric VaR grown by that percentage gives back the Monte Carlo VaR. |

## Left out

- The price and benchmark downloads (`fetch_history`, `fetch_benchmark_data`) are network I/O. Their cleaned result is the input `MarketData.History`: valid columns, last prices, annualised mean returns and covariance. `WellFormed` assumes what the provider's data gives: distinct columns and positive last prices. The cleaning code checks neither (risk_engine.py:73-87), and the tickers are passed on with their repeats (risk_engine.py:408). The cleaning itself (forward fill, NaN drops) is not modelled.
- `RiskEngine.TotalValue`: its positive total rests on the positive last prices that `WellFormed` assumes. The same holds for the (0, 1] bounds of `WeightsSumToOne` and the positive total of `CalculateRisk`. If every last price were 0, the source would compute a zero total and NaN weights without raising (risk_engine.py:436-439). The model does not cover that input.
- `RiskEngine.CalculateRisk` takes the correlation matrix, the benchmark data and the Monte Carlo results as separate functions, not as parts of its report. It does not model the `RiskOutput` fields that only collect them.
- The scaling of the mean and covariance by the time horizon (monte_carlo.py:59-61) only feeds the random draw, so it is left out with it.
- Square roots (`np.sqrt`), `stats.norm.ppf(0.05)` and `√252` are parameters with the stated root relation. Floating-point rounding and overflow are not modelled.
- `RiskEngine.ParametricVar`: the code subtracts the daily drift and takes the absolute value, `abs(V(zσ/√252 − μ/252))`. The model follows the code. A drift-free formula holds only when μ = 0 (`ParametricVarWithoutDrift`).
- Explanation sentences are modelled as the numbers they show. The text formatting (`:.1f`, `:,.2f`, string joins) is left out.
- Dates are day numbers. `strftime` formatting and calendar arithmetic are left out, and a recovery time is a difference of day numbers.
- The unreachable second copy of the growth calculation after its `return` (risk_engine.py:656-682) and `fetch_sector_data` are not part of this model.
- `Rebalancing.TradeOf`: `round(·, 2)` on shares and amount is not modelled. Shares and amounts are exact, so ties in the sort by amount are those of the exact amounts.
- `Rebalancing.CalculateRebalancingTrades`: Python set order is not modelled. The union of tickers is walked in an unspecified order, so with equal amounts the model allows any order the stable sort could leave.
- The max-Sharpe and min-volatility solves (optimization.py:52-75) and the per-target solve are SLSQP, a foreign numerical solver. The per-target solve is the parameter `solve`. The two optimal portfolios, their weight rounding and their Sharpe figures are not modelled, and `min_vol_ret` is an input.
- `Frontier.EfficientFrontier` requires at least one asset. With none, the source raises (division by zero at optimization.py:49).
- `np.random.multivariate_normal` and `np.random.choice` are random. The draws they produce (the simulated asset returns and the sample positions) are inputs. `MonteCarlo.SimulatedValues` computes the portfolio values from the draws, and `MonteCarlo.SampleFor` states what `choice` promises.
- `np.percentile` is not modelled. The VaR threshold is an input. The seven reported percentiles (monte_carlo.py:90-98) are left out of the distribution summary.
- `MonteCarlo.MonteCarloVar` requires at least one simulated value. With none, the source's percentile raises.
- `Drawdown.DrawdownMetricsOf` requires every daily portfolio return to be above −100% (`AboveTotalLoss`). `calculate_risk` always meets this. Positive prices make every `pct_change` greater than −1, and its weights are positive and sum to 1 (risk_engine.py:439, 450), so `rows · w` is greater than −1. For other callers, a return at or below −100% can make the wealth peak non-positive. The drawdown division then gives inf or NaN, which reals cannot represent.
- `Drawdown.DrawdownMetricsOf` slices the running maximum and the wealth index at the trough by position, where the source slices by date label (risk_engine.py:248-251). The two agree because the dates are a DatetimeIndex of distinct, increasing trading days.
- `RiskEngine.CalculateRisk` follows the code's index pairing of position-order weights with column-order covariance and mean returns. The aligned alternative (`ColumnWeights`) is proved correct beside it, but the report does not use it. See "## Findings".
- The Pydantic request schemas are used only as the invariants they enforce (`Models.ValidPosition`, `Models.ValidPortfolio`).
- The HTTP layer, persistence, Celery tasks and authentication are outside the analytics core.

## Findings

| source | as written | input that shows it | evidently intended | confidence | as-written member | corrected member |
|---|---|---|---|---|---|---|
| backend/api/risk_engine.py:449-468 | `weights_vector` is in position order (lines 449-450, despite its comment "Align weights with covariance matrix"). It multiplies `cov_matrix.values` and `mean_returns.values`, which are in the order of the downloaded columns (line 104). | Positions AAPL, MSFT, GOOGL with values 1, 3, 2. The columns come back as AAPL, GOOGL, MSFT. The GOOGL column is then paired with MSFT's weight 1/2, not GOOGL's 1/3, so σ, the marginal risks, the contributions and `wᵀμ` are computed for the wrong portfolio. | Each covariance column is paired with the weight of its own ticker, as `ColumnWeights` does. Aggregating per ticker also gives repeated tickers a vector of the right length. | medium, not executed: the column order is whatever the download library returns | RiskEngine.MisorderedPairing | RiskEngine.ColumnWeights |
