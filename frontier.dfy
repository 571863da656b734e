/**
 * The efficient-frontier sweep: a grid of target returns from the
 * minimum-volatility portfolio's return to the highest single-asset mean
 * return, one constrained volatility minimisation per target, and only the
 * successful solves kept. The numerical solver is a parameter.
 */
module Frontier {

  /** What the solver reports for one target: whether it converged, and the minimised volatility. */
  datatype Solve = Solve(success: bool, fun: real)

  /** The two lists of the frontier, point by point. */
  datatype FrontierPoints = FrontierPoints(targetReturns: seq<real>, volatility: seq<real>)

  /**
   * numpy's `linspace(start, stop, num)` with the end point included: evenly
   * spaced values, the last one set to `stop` exactly.
   */
  function Linspace(start: real, stop: real, num: nat): (xs: seq<real>)
    ensures |xs| == num
  {
    if num == 1 then [start]
    else
      seq(num, i requires 0 <= i < num =>
        if i == num - 1 then stop else (i as real) * ((stop - start) / ((num - 1) as real)) + start)
  }

  lemma StepTimesCount(start: real, stop: real, m: real)
    requires m > 0.0
    ensures m * ((stop - start) / m) + start == stop
  {
  }

  /**
   * The grid starts at `start`, ends at `stop` and has a constant step:
   * a single point is `start` itself.
   */
  lemma LinspaceEvenlySpaced(start: real, stop: real, num: nat)
    ensures num >= 1 ==> Linspace(start, stop, num)[0] == start
    ensures num >= 2 ==> Linspace(start, stop, num)[num - 1] == stop
    ensures num >= 2 ==> forall i :: 0 <= i < num - 1 ==>
      Linspace(start, stop, num)[i + 1] - Linspace(start, stop, num)[i] == (stop - start) / ((num - 1) as real)
  {
    if num >= 2 {
      var xs := Linspace(start, stop, num);
      var step := (stop - start) / ((num - 1) as real);
      forall i | 0 <= i < num - 1
        ensures xs[i + 1] - xs[i] == step
      {
        if i + 1 == num - 1 {
          StepTimesCount(start, stop, (num - 1) as real);
          assert xs[i + 1] == ((num - 1) as real) * step + start;
        }
        assert ((i + 1) as real) * step == (i as real) * step + step;
      }
    }
  }

  /** A grid from a lower to a higher return is strictly increasing. */
  lemma LinspaceIncreasing(start: real, stop: real, num: nat)
    requires start < stop
    ensures forall i, j :: 0 <= i < j < num ==> Linspace(start, stop, num)[i] < Linspace(start, stop, num)[j]
  {
    var xs := Linspace(start, stop, num);
    if num >= 2 {
      LinspaceEvenlySpaced(start, stop, num);
      var step := (stop - start) / ((num - 1) as real);
      assert step > 0.0;
      forall i, j | 0 <= i < j < num
        ensures xs[i] < xs[j]
      {
        StrictlyIncreasingSteps(xs, step, i, j);
      }
    }
  }

  lemma {:induction false} StrictlyIncreasingSteps(xs: seq<real>, step: real, i: nat, j: nat)
    requires step > 0.0
    requires forall k :: 0 <= k < |xs| - 1 ==> xs[k + 1] - xs[k] == step
    requires i < j < |xs|
    ensures xs[i] < xs[j]
  {
    if j > i + 1 {
      StrictlyIncreasingSteps(xs, step, i, j - 1);
      assert xs[j] - xs[j - 1] == step;
    } else {
      assert xs[i + 1] - xs[i] == step;
    }
  }

  // ----- Keeping the successful solves -----

  /** The targets whose solve succeeded, in grid order. */
  function Solved(targets: seq<real>, solve: real -> Solve): seq<real>
  {
    if |targets| == 0 then []
    else
      var last := targets[|targets| - 1];
      Solved(targets[..|targets| - 1], solve) + (if solve(last).success then [last] else [])
  }

  /** The grid positions of the successful solves, increasing. */
  function SolvedPositions(targets: seq<real>, solve: real -> Solve): seq<nat>
  {
    if |targets| == 0 then []
    else
      var n := |targets| - 1;
      SolvedPositions(targets[..n], solve) + (if solve(targets[n]).success then [n] else [])
  }

  /**
   * The kept targets are a subsequence of the grid: they sit at increasing
   * grid positions, each of which solved, and every solved position is kept.
   */
  lemma {:induction false} SolvedSubsequence(targets: seq<real>, solve: real -> Solve)
    ensures |SolvedPositions(targets, solve)| == |Solved(targets, solve)| <= |targets|
    ensures forall k :: 0 <= k < |SolvedPositions(targets, solve)| ==>
      SolvedPositions(targets, solve)[k] < |targets|
      && Solved(targets, solve)[k] == targets[SolvedPositions(targets, solve)[k]]
      && solve(targets[SolvedPositions(targets, solve)[k]]).success
    ensures forall k, l :: 0 <= k < l < |SolvedPositions(targets, solve)| ==>
      SolvedPositions(targets, solve)[k] < SolvedPositions(targets, solve)[l]
    ensures forall i :: 0 <= i < |targets| && solve(targets[i]).success ==> i in SolvedPositions(targets, solve)
  {
    if |targets| > 0 {
      var n := |targets| - 1;
      var init := targets[..n];
      SolvedSubsequence(init, solve);
      assert forall i :: 0 <= i < n ==> init[i] == targets[i];
    }
  }

  /** A target is kept exactly when it is on the grid and its solve succeeded. */
  lemma {:induction false} SolvedMembers(targets: seq<real>, solve: real -> Solve, x: real)
    ensures x in Solved(targets, solve) <==> x in targets && solve(x).success
  {
    if |targets| > 0 {
      var n := |targets| - 1;
      var init := targets[..n];
      SolvedMembers(init, solve, x);
      assert targets == init + [targets[n]];
    }
  }

  /** The volatility reported for each kept target. */
  function Volatilities(rets: seq<real>, solve: real -> Solve): (vols: seq<real>)
  {
    seq(|rets|, k requires 0 <= k < |rets| => solve(rets[k]).fun)
  }

  /**
   * The sweep: one solve per grid target, in grid order, appending the
   * volatility and the target together when the solve succeeds.
   */
  method CollectFrontier(targets: seq<real>, solve: real -> Solve) returns (f: FrontierPoints)
    ensures f.targetReturns == Solved(targets, solve)
    ensures |f.volatility| == |f.targetReturns|
    ensures forall k :: 0 <= k < |f.targetReturns| ==> f.volatility[k] == solve(f.targetReturns[k]).fun
  {
    var frontierVolatility: seq<real> := [];
    var frontierReturns: seq<real> := [];
    for i := 0 to |targets|
      invariant frontierReturns == Solved(targets[..i], solve)
      invariant frontierVolatility == Volatilities(frontierReturns, solve)
    {
      var target := targets[i];
      var result := solve(target);
      assert targets[..i + 1][..i] == targets[..i];
      if result.success {
        frontierVolatility := frontierVolatility + [result.fun];
        frontierReturns := frontierReturns + [target];
      }
    }
    assert targets[..|targets|] == targets;
    f := FrontierPoints(frontierReturns, frontierVolatility);
  }

  /** `mean_returns.max()`: the highest annualised mean return. */
  function MaxReturn(meanReturns: seq<real>): (m: real)
    requires |meanReturns| > 0
    ensures m in meanReturns
    ensures forall i :: 0 <= i < |meanReturns| ==> meanReturns[i] <= m
  {
    if |meanReturns| == 1 then meanReturns[0]
    else
      var rest := MaxReturn(meanReturns[1..]);
      assert forall i :: 1 <= i < |meanReturns| ==> meanReturns[i] == meanReturns[1..][i - 1];
      if meanReturns[0] >= rest then meanReturns[0] else rest
  }

  /**
   * The frontier part of the efficient-frontier calculation: the grid runs
   * from the minimum-volatility return to the highest mean return with
   * `numPoints` targets, and the two lists stay paired and no longer than the grid.
   */
  method EfficientFrontier(meanReturns: seq<real>, minVolReturn: real, numPoints: nat, solve: real -> Solve)
    returns (f: FrontierPoints)
    requires |meanReturns| > 0
    ensures f.targetReturns == Solved(Linspace(minVolReturn, MaxReturn(meanReturns), numPoints), solve)
    ensures |f.volatility| == |f.targetReturns| <= numPoints
    ensures forall k :: 0 <= k < |f.targetReturns| ==> f.volatility[k] == solve(f.targetReturns[k]).fun
  {
    var maxRetTheoretical := MaxReturn(meanReturns);
    var targetReturns := Linspace(minVolReturn, maxRetTheoretical, numPoints);
    f := CollectFrontier(targetReturns, solve);
    SolvedSubsequence(targetReturns, solve);
  }

  /**
   * When the minimum-volatility return is below the highest mean return,
   * the frontier's returns are strictly increasing.
   */
  lemma FrontierReturnsIncreasing(meanReturns: seq<real>, minVolReturn: real, numPoints: nat, solve: real -> Solve)
    requires |meanReturns| > 0 && minVolReturn < MaxReturn(meanReturns)
    ensures var rets := Solved(Linspace(minVolReturn, MaxReturn(meanReturns), numPoints), solve);
      forall k, l :: 0 <= k < l < |rets| ==> rets[k] < rets[l]
  {
    var grid := Linspace(minVolReturn, MaxReturn(meanReturns), numPoints);
    LinspaceIncreasing(minVolReturn, MaxReturn(meanReturns), numPoints);
    SolvedSubsequence(grid, solve);
    var pos := SolvedPositions(grid, solve);
    var rets := Solved(grid, solve);
    forall k, l | 0 <= k < l < |rets|
      ensures rets[k] < rets[l]
    {
      assert pos[k] < pos[l];
    }
  }
}
