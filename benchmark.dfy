/**
 * Comparison of the portfolio with a benchmark index: beta as the ratio
 * of covariance to benchmark variance, Jensen's alpha against the CAPM
 * line, and the Pearson correlation, over the dates both series share.
 */
module Benchmark {
  import opened Wrappers
  import opened Numerics
  import opened Vectors
  import opened Series

  datatype AlphaBeta = AlphaBeta(alpha: real, beta: real, correlation: Float)

  /** Fewer than this many common dates give no sample covariance. */
  const MinObservations: nat := 2

  /**
   * The roots the correlation needs: `sdP` and `sdB` are the sample
   * standard deviations of the aligned portfolio and benchmark returns.
   */
  predicate HasDeviations(aligned: seq<Joined>, sdP: real, sdB: real)
  {
    |aligned| >= MinObservations ==>
      IsRoot(sdP, SampleVar(Firsts(aligned))) && IsRoot(sdB, SampleVar(Seconds(aligned)))
  }

  /**
   * `calculate_alpha_beta`: all three figures are 0 with fewer than two
   * common dates; beta is 0 when the benchmark does not vary; alpha is
   * the portfolio return minus the CAPM return `rf + β (bench − rf)`; the
   * correlation is the sample covariance over both standard deviations,
   * non-finite when either is zero.
   */
  function AlphaBetaOf(
    portfolio: seq<Obs>, benchmark: seq<Obs>,
    ret: real, benchRet: real, rf: real, sdP: real, sdB: real): (ab: AlphaBeta)
    requires HasDeviations(Align(portfolio, benchmark), sdP, sdB)
    ensures var aligned := Align(portfolio, benchmark);
      |aligned| < MinObservations ==> ab == AlphaBeta(0.0, 0.0, Finite(0.0))
    ensures var aligned := Align(portfolio, benchmark);
      |aligned| >= MinObservations ==>
        && (SampleVar(Seconds(aligned)) <= 0.0 ==> ab.beta == 0.0)
        && (SampleVar(Seconds(aligned)) > 0.0 ==>
              ab.beta * SampleVar(Seconds(aligned)) == SampleCov(Firsts(aligned), Seconds(aligned)))
        && ab.alpha + rf + ab.beta * (benchRet - rf) == ret
        && (ab.correlation.Finite? <==> sdP != 0.0 && sdB != 0.0)
        && (ab.correlation.Finite? ==>
              ab.correlation.value * (sdP * sdB) == SampleCov(Firsts(aligned), Seconds(aligned)))
  {
    var aligned := Align(portfolio, benchmark);
    if |aligned| < MinObservations then AlphaBeta(0.0, 0.0, Finite(0.0))
    else
      var p := Firsts(aligned);
      var b := Seconds(aligned);
      var covariance := SampleCov(p, b);
      var benchmarkVariance := SampleVar(b);
      var beta := if benchmarkVariance > 0.0 then covariance / benchmarkVariance else 0.0;
      var alpha := ret - (rf + beta * (benchRet - rf));
      AlphaBeta(alpha, beta, Div(covariance, sdP * sdB))
  }

  /** A row pairing an observation's value with itself. */
  function SelfRow(o: Obs): Joined
  {
    Joined(o.date, o.value, o.value)
  }

  /** A chronological series joined with itself pairs every value with itself. */
  lemma {:induction false} AlignSelf(a: seq<Obs>)
    requires Chronological(a)
    ensures |Align(a, a)| == |a|
    ensures forall i :: 0 <= i < |a| ==> Align(a, a)[i] == SelfRow(a[i])
  {
    AlignSelfPrefix(a, a);
  }

  /** Joining a prefix of a chronological series with the whole series pairs every value with itself. */
  lemma {:induction false} AlignSelfPrefix(p: seq<Obs>, a: seq<Obs>)
    requires Chronological(a) && p <= a
    ensures |Align(p, a)| == |p|
    ensures forall i :: 0 <= i < |p| ==> Align(p, a)[i] == SelfRow(p[i])
  {
    if |p| > 0 {
      var init := p[..|p| - 1];
      AlignSelfPrefix(init, a);
      ValueOnUnique(a, |p| - 1);
      assert Align(p, a) == Align(init, a) + [SelfRow(p[|p| - 1])];
    }
  }

  /** On a chronological series the value on a recorded date is the one recorded. */
  lemma ValueOnUnique(a: seq<Obs>, k: nat)
    requires Chronological(a) && k < |a|
    ensures ValueOn(a, a[k].date) == Some(a[k].value)
  {
    if k > 0 {
      assert a[0].date < a[k].date;
      assert Chronological(a[1..]);
      assert a[1..][k - 1] == a[k];
      ValueOnUnique(a[1..], k - 1);
    }
  }

  /** Joined with itself, a chronological series gives its own values on both sides. */
  lemma AlignSelfValues(a: seq<Obs>)
    requires Chronological(a)
    ensures Firsts(Align(a, a)) == Values(a)
    ensures Seconds(Align(a, a)) == Values(a)
  {
    AlignSelf(a);
  }

  /**
   * A portfolio that moves exactly like a varying benchmark has beta 1, a
   * correlation of 1, and an alpha equal to its return over the benchmark's.
   */
  lemma {:induction false} SelfComparison(a: seq<Obs>, ret: real, benchRet: real, rf: real, sd: real)
    requires Chronological(a) && |a| >= MinObservations
    requires IsRoot(sd, SampleVar(Values(a))) && SampleVar(Values(a)) > 0.0
    ensures HasDeviations(Align(a, a), sd, sd)
    ensures AlphaBetaOf(a, a, ret, benchRet, rf, sd, sd).beta == 1.0
    ensures AlphaBetaOf(a, a, ret, benchRet, rf, sd, sd).correlation == Finite(1.0)
    ensures AlphaBetaOf(a, a, ret, benchRet, rf, sd, sd).alpha == ret - benchRet
  {
    var aligned := Align(a, a);
    AlignSelfValues(a);
    var ab := AlphaBetaOf(a, a, ret, benchRet, rf, sd, sd);
    var v := SampleVar(Seconds(aligned));
    assert SampleCov(Firsts(aligned), Seconds(aligned)) == v;
    UnitFactor(ab.beta, v);
    UnitFactor(ab.correlation.value, sd * sd);
  }

  lemma UnitFactor(b: real, v: real)
    requires v != 0.0 && b * v == v
    ensures b == 1.0
  {
  }
}
