/**
 * Flattening of the asset correlation matrix into the row-major list of
 * ticker pairs that the frontend heat map draws.
 */
module Correlation {
  import opened Numerics

  datatype CorrelationEntry = CorrelationEntry(ticker1: string, ticker2: string, correlation: Float)

  datatype CorrelationData = CorrelationData(tickers: seq<string>, correlations: seq<CorrelationEntry>)

  /** A square matrix with one row and one column per ticker. */
  predicate IsSquare(corr: seq<seq<Float>>, n: nat)
  {
    |corr| == n && forall i :: 0 <= i < n ==> |corr[i]| == n
  }

  /** Position of row `i`, column `j` of an `n`-column matrix read row by row: `i·n + j`. */
  function Flat(n: nat, i: nat, j: nat): nat
  {
    i * n + j
  }

  lemma FlatBounds(n: nat, rows: nat, i: nat, j: nat)
    requires i < rows && j < n
    ensures Flat(n, i, j) < rows * n
    ensures i < rows - 1 ==> Flat(n, i, j) < (rows - 1) * n
    ensures i == rows - 1 ==> Flat(n, i, j) - (rows - 1) * n == j
  {
    assert (rows - 1 - i) * n >= 0;
    assert rows * n == i * n + n + (rows - 1 - i) * n;
    if i < rows - 1 {
      assert (rows - 2 - i) * n >= 0;
      assert (rows - 1) * n == i * n + n + (rows - 2 - i) * n;
    }
  }

  function Entry(tickers: seq<string>, corr: seq<seq<Float>>, i: nat, j: nat): CorrelationEntry
    requires IsSquare(corr, |tickers|) && i < |tickers| && j < |tickers|
  {
    CorrelationEntry(tickers[i], tickers[j], corr[i][j])
  }

  /** The first `m` entries of row `i`. */
  function RowEntries(tickers: seq<string>, corr: seq<seq<Float>>, i: nat, m: nat): (row: seq<CorrelationEntry>)
    requires IsSquare(corr, |tickers|) && i < |tickers| && m <= |tickers|
    ensures |row| == m
    ensures forall j :: 0 <= j < m ==> row[j] == Entry(tickers, corr, i, j)
  {
    seq(m, j requires 0 <= j < m => Entry(tickers, corr, i, j))
  }

  /** The entries of the first `rows` rows, row after row. */
  function RowMajor(tickers: seq<string>, corr: seq<seq<Float>>, rows: nat): (r: seq<CorrelationEntry>)
    requires IsSquare(corr, |tickers|) && rows <= |tickers|
    ensures |r| == rows * |tickers|
  {
    if rows == 0 then []
    else
      assert (rows - 1) * |tickers| + |tickers| == rows * |tickers|;
      RowMajor(tickers, corr, rows - 1) + RowEntries(tickers, corr, rows - 1, |tickers|)
  }

  /** Row-major layout: entry `i·n + j` pairs ticker `i` with ticker `j`. */
  lemma {:induction false} RowMajorIndex(tickers: seq<string>, corr: seq<seq<Float>>, rows: nat)
    requires IsSquare(corr, |tickers|) && rows <= |tickers|
    ensures forall i: nat, j: nat :: i < rows && j < |tickers| ==>
      && Flat(|tickers|, i, j) < |RowMajor(tickers, corr, rows)|
      && RowMajor(tickers, corr, rows)[Flat(|tickers|, i, j)] == Entry(tickers, corr, i, j)
  {
    var n := |tickers|;
    if rows > 0 {
      RowMajorIndex(tickers, corr, rows - 1);
      var prefix := RowMajor(tickers, corr, rows - 1);
      var last := RowEntries(tickers, corr, rows - 1, n);
      var all := RowMajor(tickers, corr, rows);
      assert all == prefix + last;
      forall i: nat, j: nat | i < rows && j < n
        ensures Flat(n, i, j) < |all| && all[Flat(n, i, j)] == Entry(tickers, corr, i, j)
      {
        FlatBounds(n, rows, i, j);
        var k := Flat(n, i, j);
        if i < rows - 1 {
          assert all[k] == prefix[k];
        } else {
          assert k - |prefix| == j;
          assert all[k] == last[j];
        }
      }
    }
  }

  /**
   * `calculate_correlation_matrix` once pandas has computed the matrix:
   * for each ticker in column order, for each ticker in column order,
   * append the pair and its correlation. The list has `n·n` entries and
   * entry `i·n + j` pairs ticker `i` with ticker `j`.
   */
  method FlattenCorrelation(tickers: seq<string>, corr: seq<seq<Float>>) returns (data: CorrelationData)
    requires IsSquare(corr, |tickers|)
    ensures data.tickers == tickers
    ensures |data.correlations| == |tickers| * |tickers|
    ensures forall i: nat, j: nat :: i < |tickers| && j < |tickers| ==>
      && Flat(|tickers|, i, j) < |data.correlations|
      && data.correlations[Flat(|tickers|, i, j)] == CorrelationEntry(tickers[i], tickers[j], corr[i][j])
  {
    var n := |tickers|;
    var correlations: seq<CorrelationEntry> := [];
    for i := 0 to n
      invariant correlations == RowMajor(tickers, corr, i)
    {
      for j := 0 to n
        invariant correlations == RowMajor(tickers, corr, i) + RowEntries(tickers, corr, i, j)
      {
        assert RowEntries(tickers, corr, i, j + 1) == RowEntries(tickers, corr, i, j) + [Entry(tickers, corr, i, j)];
        correlations := correlations + [CorrelationEntry(tickers[i], tickers[j], corr[i][j])];
      }
    }
    RowMajorIndex(tickers, corr, n);
    data := CorrelationData(tickers, correlations);
  }

  /**
   * For a symmetric pair of matrix entries the list mirrors itself: entry
   * `i·n + j` and entry `j·n + i` carry the same correlation with the
   * tickers swapped, and a diagonal entry pairs a ticker with itself.
   */
  lemma RowMajorMirror(tickers: seq<string>, corr: seq<seq<Float>>, i: nat, j: nat)
    requires IsSquare(corr, |tickers|) && i < |tickers| && j < |tickers|
    requires corr[i][j] == corr[j][i]
    ensures var all := RowMajor(tickers, corr, |tickers|);
      && Flat(|tickers|, i, j) < |all| && Flat(|tickers|, j, i) < |all|
      && all[Flat(|tickers|, i, j)].ticker1 == all[Flat(|tickers|, j, i)].ticker2
      && all[Flat(|tickers|, i, j)].ticker2 == all[Flat(|tickers|, j, i)].ticker1
      && all[Flat(|tickers|, i, j)].correlation == all[Flat(|tickers|, j, i)].correlation
      && Flat(|tickers|, i, i) < |all|
      && all[Flat(|tickers|, i, i)].ticker1 == all[Flat(|tickers|, i, i)].ticker2
  {
    RowMajorAt(tickers, corr, i, j);
    RowMajorAt(tickers, corr, j, i);
    RowMajorAt(tickers, corr, i, i);
  }

  lemma RowMajorAt(tickers: seq<string>, corr: seq<seq<Float>>, i: nat, j: nat)
    requires IsSquare(corr, |tickers|) && i < |tickers| && j < |tickers|
    ensures Flat(|tickers|, i, j) < |RowMajor(tickers, corr, |tickers|)|
    ensures RowMajor(tickers, corr, |tickers|)[Flat(|tickers|, i, j)] == Entry(tickers, corr, i, j)
  {
    RowMajorIndex(tickers, corr, |tickers|);
  }
}
