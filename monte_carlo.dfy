/**
 * Monte Carlo value at risk, from the simulated asset returns onwards:
 * portfolio values per simulation, VaR at a given percentile threshold,
 * CVaR (expected shortfall) over the values strictly below it, summary
 * statistics, a visualisation sample, and the comparison with parametric VaR.
 * The random draws and the percentile are inputs.
 */
module MonteCarlo {
  import opened Numerics
  import opened Vectors
  import opened Series
  import opened Sorting
  import opened Subsequences

  // ----- Simulated portfolio values -----

  /** `portfolio_value * (1 + simulated_returns.dot(weights))`, one value per simulation. */
  function SimulatedValues(portfolioValue: real, simulatedReturns: seq<seq<real>>, weights: seq<real>): (v: seq<real>)
    requires IsMatrix(simulatedReturns, |weights|)
    ensures |v| == |simulatedReturns|
  {
    seq(|simulatedReturns|, i requires 0 <= i < |simulatedReturns| =>
      portfolioValue * (1.0 + Dot(simulatedReturns[i], weights)))
  }

  lemma {:induction false} DotConstantRow(row: seq<real>, w: seq<real>, s: real)
    requires |row| == |w|
    requires forall k :: 0 <= k < |row| ==> row[k] == s
    ensures Dot(row, w) == s * Sum(w)
  {
    if |row| > 0 {
      var n := |row| - 1;
      DotConstantRow(row[..n], w[..n], s);
    }
  }

  lemma TimesOne(s: real, one: real)
    requires one == 1.0
    ensures s * one == s
  {
  }

  /**
   * A simulation in which every asset returns `s` moves a fully invested
   * portfolio (weights adding up to one) by exactly `s`.
   */
  lemma UniformSimulation(portfolioValue: real, simulatedReturns: seq<seq<real>>, weights: seq<real>, i: nat, s: real)
    requires IsMatrix(simulatedReturns, |weights|) && Sum(weights) == 1.0
    requires i < |simulatedReturns|
    requires forall k :: 0 <= k < |weights| ==> simulatedReturns[i][k] == s
    ensures SimulatedValues(portfolioValue, simulatedReturns, weights)[i] == portfolioValue * (1.0 + s)
  {
    var row := simulatedReturns[i];
    DotConstantRow(row, weights, s);
    TimesOne(s, Sum(weights));
  }

  // ----- VaR and CVaR -----

  /** `values[values < threshold]`: the simulated values strictly below the threshold, in order. */
  function LossesBeyond(values: seq<real>, threshold: real): (t: seq<real>)
    ensures |t| <= |values|
    ensures forall k :: 0 <= k < |t| ==> t[k] < threshold
  {
    if |values| == 0 then []
    else
      var last := values[|values| - 1];
      LossesBeyond(values[..|values| - 1], threshold) + (if last < threshold then [last] else [])
  }

  /**
   * The losses keep every value below the threshold as often as it was
   * simulated and in simulation order, so their mean is the mean over the
   * whole tail.
   */
  lemma {:induction false} LossesBeyondInOrder(values: seq<real>, threshold: real)
    ensures forall x :: multiset(LossesBeyond(values, threshold))[x] == if x < threshold then multiset(values)[x] else 0
    ensures Subsequence(LossesBeyond(values, threshold), values)
  {
    if |values| == 0 {
      SubsequenceOfEmpty<real>();
    } else {
      var init := values[..|values| - 1];
      var last := values[|values| - 1];
      var rest := LossesBeyond(init, threshold);
      LossesBeyondInOrder(init, threshold);
      assert values == init + [last];
      SubsequenceExtend(rest, init, last);
      if last < threshold {
        assert LossesBeyond(values, threshold) == rest + [last];
      } else {
        assert LossesBeyond(values, threshold) == rest;
      }
    }
  }

  /** A value is among the losses beyond VaR exactly when it is simulated and below the threshold. */
  lemma {:induction false} LossesBeyondMembers(values: seq<real>, threshold: real, x: real)
    ensures x in LossesBeyond(values, threshold) <==> x in values && x < threshold
  {
    if |values| > 0 {
      var init := values[..|values| - 1];
      LossesBeyondMembers(init, threshold, x);
      assert values == init + [values[|values| - 1]];
    }
  }

  /** No value lies beyond VaR exactly when the threshold is at or below the smallest simulated value. */
  lemma NoLossesIffThresholdAtMostMin(values: seq<real>, threshold: real)
    requires |values| > 0
    ensures |LossesBeyond(values, threshold)| == 0 <==> threshold <= MinOf(values)
  {
    var k := ArgMin(values);
    LossesBeyondMembers(values, threshold, values[k]);
    if |LossesBeyond(values, threshold)| > 0 {
      var x := LossesBeyond(values, threshold)[0];
      LossesBeyondMembers(values, threshold, x);
    }
  }

  /** The two risk figures of the simulation. */
  datatype Shortfall = Shortfall(mcVar: real, mcCvar: real)

  /**
   * VaR is the loss down to the threshold; CVaR is the loss down to the mean
   * of the values below it, or VaR itself when no value lies below.
   */
  function ValueAtRisk(portfolioValue: real, values: seq<real>, threshold: real): (r: Shortfall)
    ensures r.mcVar == portfolioValue - threshold
    ensures |LossesBeyond(values, threshold)| == 0 ==> r.mcCvar == r.mcVar
    ensures |LossesBeyond(values, threshold)| > 0 ==> r.mcCvar == portfolioValue - Mean(LossesBeyond(values, threshold))
  {
    var mcVar := portfolioValue - threshold;
    var lossesBeyondVar := LossesBeyond(values, threshold);
    var mcCvar := if |lossesBeyondVar| > 0 then portfolioValue - Mean(lossesBeyondVar) else mcVar;
    Shortfall(mcVar, mcCvar)
  }

  lemma {:induction false} SumBelow(s: seq<real>, bound: real)
    requires |s| > 0
    requires forall k :: 0 <= k < |s| ==> s[k] < bound
    ensures Sum(s) < (|s| as real) * bound
  {
    var n := |s| - 1;
    if n > 0 {
      SumBelow(s[..n], bound);
    }
    assert (|s| as real) * bound == (n as real) * bound + bound;
  }

  lemma {:induction false} SumAtLeast(s: seq<real>, bound: real)
    requires forall k :: 0 <= k < |s| ==> s[k] >= bound
    ensures Sum(s) >= (|s| as real) * bound
  {
    if |s| > 0 {
      var n := |s| - 1;
      SumAtLeast(s[..n], bound);
      assert (|s| as real) * bound == (n as real) * bound + bound;
    }
  }

  lemma {:induction false} SumAtMost(s: seq<real>, bound: real)
    requires forall k :: 0 <= k < |s| ==> s[k] <= bound
    ensures Sum(s) <= (|s| as real) * bound
  {
    if |s| > 0 {
      var n := |s| - 1;
      SumAtMost(s[..n], bound);
      assert (|s| as real) * bound == (n as real) * bound + bound;
    }
  }

  lemma QuotientBelow(a: real, m: real, bound: real)
    requires m > 0.0
    ensures a < m * bound ==> a / m < bound
    ensures a >= m * bound ==> a / m >= bound
    ensures a <= m * bound ==> a / m <= bound
  {
  }

  lemma MeanBelow(s: seq<real>, bound: real)
    requires |s| > 0
    requires forall k :: 0 <= k < |s| ==> s[k] < bound
    ensures Mean(s) < bound
  {
    SumBelow(s, bound);
    var total, count := Sum(s), |s| as real;
    assert Mean(s) == total / count;
    QuotientBelow(total, count, bound);
  }

  /** The mean of values below the threshold is itself below the threshold. */
  lemma LossesMeanBelowThreshold(values: seq<real>, threshold: real)
    requires |LossesBeyond(values, threshold)| > 0
    ensures Mean(LossesBeyond(values, threshold)) < threshold
  {
    MeanBelow(LossesBeyond(values, threshold), threshold);
  }

  /**
   * CVaR never understates VaR, and exceeds it strictly whenever some
   * simulated value lies below the threshold.
   */
  lemma CvarAtLeastVar(portfolioValue: real, values: seq<real>, threshold: real)
    ensures ValueAtRisk(portfolioValue, values, threshold).mcCvar >= ValueAtRisk(portfolioValue, values, threshold).mcVar
    ensures |LossesBeyond(values, threshold)| > 0 ==>
      ValueAtRisk(portfolioValue, values, threshold).mcCvar > ValueAtRisk(portfolioValue, values, threshold).mcVar
  {
    if |LossesBeyond(values, threshold)| > 0 {
      LossesMeanBelowThreshold(values, threshold);
    }
  }

  // ----- Distribution statistics and the sample -----

  /** numpy's `std()` squared: the mean squared deviation, with no degree of freedom removed. */
  function PopulationVariance(s: seq<real>): real
    requires |s| > 0
  {
    Sum(Times(Deviations(s), Deviations(s))) / (|s| as real)
  }

  /** The mean of the simulated values lies between their minimum and their maximum. */
  lemma MeanWithinRange(s: seq<real>)
    requires |s| > 0
    ensures MinOf(s) <= Mean(s) <= MaxOf(s)
  {
    SumAtLeast(s, MinOf(s));
    SumAtMost(s, MaxOf(s));
    var total, count := Sum(s), |s| as real;
    assert Mean(s) == total / count;
    QuotientBelow(total, count, MinOf(s));
    QuotientBelow(total, count, MaxOf(s));
  }

  /** `min(1000, num_simulations)`. */
  const MaxSampleSize: nat := 1000

  /** What `np.random.choice(n, size, replace=False)` promises: `size` distinct positions below `n`. */
  predicate SampleFor(indices: seq<nat>, n: nat)
  {
    |indices| == MinNat(MaxSampleSize, n) && Distinct(indices) && forall k :: 0 <= k < |indices| ==> indices[k] < n
  }

  datatype Distribution = Distribution(mean: real, std: real, min: real, max: real)

  /**
   * The distribution summary: mean, standard deviation (the given root of
   * the population variance), minimum and maximum, with the mean between the
   * extremes and every value within them.
   */
  function DistributionOf(values: seq<real>, stdRoot: real): (d: Distribution)
    requires |values| > 0
    requires IsRoot(stdRoot, PopulationVariance(values))
    ensures d.mean == Mean(values) && d.min <= d.mean <= d.max
    ensures forall k :: 0 <= k < |values| ==> d.min <= values[k] <= d.max
    ensures d.min in values && d.max in values
    ensures d.std * d.std == PopulationVariance(values) && d.std >= 0.0
  {
    MeanWithinRange(values);
    Distribution(Mean(values), stdRoot, MinOf(values), MaxOf(values))
  }

  datatype MonteCarloResult = MonteCarloResult(
    mcVar: real,
    mcCvar: real,
    numSimulations: nat,
    confidenceLevel: real,
    distribution: Distribution,
    simulations: seq<real>)

  /**
   * Everything the run reports once the portfolio value of every draw is
   * known: the risk figures at the threshold, the distribution summary (its
   * standard deviation given as the root of the population variance) and
   * the values at the chosen sample positions. An empty simulation has no
   * percentile, so at least one value is needed.
   */
  function SimulationReport(portfolioValue: real, values: seq<real>, threshold: real, confidenceLevel: real,
                            stdRoot: real, sampleIndices: seq<nat>): (r: MonteCarloResult)
    requires |values| > 0
    requires IsRoot(stdRoot, PopulationVariance(values))
    requires SampleFor(sampleIndices, |values|)
    ensures r.mcVar == portfolioValue - threshold
    ensures r.mcCvar == ValueAtRisk(portfolioValue, values, threshold).mcCvar
    ensures r.mcCvar >= r.mcVar
    ensures |LossesBeyond(values, threshold)| > 0 <==> r.mcCvar > r.mcVar
    ensures r.numSimulations == |values| && r.confidenceLevel == confidenceLevel
    ensures r.distribution == DistributionOf(values, stdRoot)
    ensures |r.simulations| == MinNat(MaxSampleSize, |values|)
    ensures forall k :: 0 <= k < |r.simulations| ==> r.simulations[k] == values[sampleIndices[k]]
  {
    var risk := ValueAtRisk(portfolioValue, values, threshold);
    CvarAtLeastVar(portfolioValue, values, threshold);
    MonteCarloResult(risk.mcVar, risk.mcCvar, |values|, confidenceLevel,
                     DistributionOf(values, stdRoot), Permute(values, sampleIndices))
  }

  /**
   * `monte_carlo_var` from the draws on: each row of `simulatedReturns` is
   * one draw of the asset returns and gives one portfolio value, and the
   * report is taken over those values. The sample holds the portfolio value
   * of each chosen draw.
   */
  function MonteCarloVar(portfolioValue: real, simulatedReturns: seq<seq<real>>, weights: seq<real>,
                         threshold: real, confidenceLevel: real,
                         stdRoot: real, sampleIndices: seq<nat>): (r: MonteCarloResult)
    requires IsMatrix(simulatedReturns, |weights|) && |simulatedReturns| > 0
    requires IsRoot(stdRoot, PopulationVariance(SimulatedValues(portfolioValue, simulatedReturns, weights)))
    requires SampleFor(sampleIndices, |simulatedReturns|)
    ensures r.mcVar == portfolioValue - threshold
    ensures r.mcCvar == ValueAtRisk(portfolioValue, SimulatedValues(portfolioValue, simulatedReturns, weights), threshold).mcCvar
    ensures r.mcCvar >= r.mcVar
    ensures |LossesBeyond(SimulatedValues(portfolioValue, simulatedReturns, weights), threshold)| > 0
            <==> r.mcCvar > r.mcVar
    ensures r.numSimulations == |simulatedReturns| && r.confidenceLevel == confidenceLevel
    ensures r.distribution == DistributionOf(SimulatedValues(portfolioValue, simulatedReturns, weights), stdRoot)
    ensures |r.simulations| == MinNat(MaxSampleSize, |simulatedReturns|)
    ensures r.simulations == SampleOf(portfolioValue, simulatedReturns, weights, sampleIndices)
  {
    var values := SimulatedValues(portfolioValue, simulatedReturns, weights);
    var report := SimulationReport(portfolioValue, values, threshold, confidenceLevel, stdRoot, sampleIndices);
    report
  }

  /** `portfolio_values[sample_indices]`: the simulated value of each chosen draw. */
  function SampleOf(portfolioValue: real, simulatedReturns: seq<seq<real>>, weights: seq<real>,
                    sampleIndices: seq<nat>): (sample: seq<real>)
    requires IsMatrix(simulatedReturns, |weights|)
    requires forall k :: 0 <= k < |sampleIndices| ==> sampleIndices[k] < |simulatedReturns|
    ensures |sample| == |sampleIndices|
    ensures forall k :: 0 <= k < |sample| ==>
      sample[k] == portfolioValue * (1.0 + Dot(simulatedReturns[sampleIndices[k]], weights))
  {
    Permute(SimulatedValues(portfolioValue, simulatedReturns, weights), sampleIndices)
  }

  /** The sample holds distinct simulations, so it has `min(1000, n)` entries drawn without repetition. */
  lemma SampleDrawnWithoutReplacement(values: seq<real>, sampleIndices: seq<nat>, k: nat, l: nat)
    requires SampleFor(sampleIndices, |values|)
    requires k < l < |sampleIndices|
    ensures sampleIndices[k] != sampleIndices[l]
    ensures Permute(values, sampleIndices)[k] in values && Permute(values, sampleIndices)[l] in values
  {
  }

  // ----- Comparison with parametric VaR -----

  datatype VarComparison = VarComparison(
    parametricVar: real,
    mcVar: real,
    mcCvar: real,
    difference: real,
    differencePct: real,
    recommendation: string)

  const Recommendation: string := "Monte Carlo VaR is more accurate for non-normal distributions"

  /**
   * The Monte Carlo VaR against the parametric one: the difference, and the
   * difference as a percentage of a positive parametric VaR (0 otherwise).
   */
  function CompareVarMethods(parametricVar: real, mcVar: real, mcCvar: real): (c: VarComparison)
    ensures c.parametricVar == parametricVar && c.mcVar == mcVar && c.mcCvar == mcCvar
    ensures c.parametricVar + c.difference == c.mcVar
    ensures parametricVar <= 0.0 ==> c.differencePct == 0.0
    ensures parametricVar > 0.0 ==> c.differencePct * parametricVar == c.difference * 100.0
    ensures c.recommendation == Recommendation
  {
    var difference := mcVar - parametricVar;
    var differencePct := if parametricVar > 0.0 then (difference / parametricVar) * 100.0 else 0.0;
    VarComparison(parametricVar, mcVar, mcCvar, difference, differencePct, Recommendation)
  }

  /**
   * For a positive parametric VaR the percentage is positive exactly when the
   * Monte Carlo VaR is larger, and the parametric VaR grown by that
   * percentage gives back the Monte Carlo VaR.
   */
  lemma ComparisonPercentage(parametricVar: real, mcVar: real, mcCvar: real)
    requires parametricVar > 0.0
    ensures var c := CompareVarMethods(parametricVar, mcVar, mcCvar);
      (c.differencePct > 0.0 <==> mcVar > parametricVar)
      && parametricVar * (1.0 + c.differencePct / 100.0) == mcVar
  {
    var c := CompareVarMethods(parametricVar, mcVar, mcCvar);
    QuotientSign(mcVar - parametricVar, parametricVar);
    assert c.differencePct / 100.0 == (mcVar - parametricVar) / parametricVar;
    assert parametricVar * (1.0 + (mcVar - parametricVar) / parametricVar) == parametricVar + (mcVar - parametricVar);
  }
}
