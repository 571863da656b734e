/**
 * Operations on time series that the analytics express with pandas:
 * cumulative products, expanding maxima, first arg-min and arg-max,
 * sample statistics, date alignment of two series and tails.
 */
module Series {
  import opened Wrappers
  import opened Vectors

  /** The product of `1 + r[k]` over all `k`: the growth of one unit invested. */
  function Growth(r: seq<real>): real
  {
    if |r| == 0 then 1.0 else Growth(r[..|r| - 1]) * (1.0 + r[|r| - 1])
  }

  /** `(1 + r).cumprod()`: the wealth index after each period. */
  function CumGrowth(r: seq<real>): (g: seq<real>)
    ensures |g| == |r|
    ensures forall t :: 0 <= t < |r| ==> g[t] == Growth(r[..t + 1])
  {
    seq(|r|, t requires 0 <= t < |r| => Growth(r[..t + 1]))
  }

  /** The wealth index starts at `1 + r[0]` and then compounds one return per period. */
  lemma CumGrowthRecurrence(r: seq<real>)
    requires |r| > 0
    ensures CumGrowth(r)[0] == 1.0 + r[0]
    ensures forall t :: 0 < t < |r| ==> CumGrowth(r)[t] == CumGrowth(r)[t - 1] * (1.0 + r[t])
  {
    assert r[..1][..0] == [];
    assert Growth(r[..1]) == Growth(r[..1][..0]) * (1.0 + r[0]);
    forall t | 0 < t < |r|
      ensures CumGrowth(r)[t] == CumGrowth(r)[t - 1] * (1.0 + r[t])
    {
      assert r[..t + 1][..t] == r[..t];
    }
  }

  /** The last entry of the wealth index is the total growth. */
  lemma CumGrowthLast(r: seq<real>)
    requires |r| > 0
    ensures CumGrowth(r)[|r| - 1] == Growth(r)
  {
    assert r[..|r|] == r;
  }

  /** Index of the first occurrence of the largest entry (pandas `idxmax`). */
  function ArgMax(s: seq<real>): (k: nat)
    requires |s| > 0
    ensures k < |s|
    ensures forall j :: 0 <= j < |s| ==> s[j] <= s[k]
    ensures forall j :: 0 <= j < k ==> s[j] < s[k]
  {
    if |s| == 1 then 0
    else
      var k := ArgMax(s[..|s| - 1]);
      if s[|s| - 1] > s[k] then |s| - 1 else k
  }

  /** Index of the first occurrence of the smallest entry (pandas `idxmin`). */
  function ArgMin(s: seq<real>): (k: nat)
    requires |s| > 0
    ensures k < |s|
    ensures forall j :: 0 <= j < |s| ==> s[k] <= s[j]
    ensures forall j :: 0 <= j < k ==> s[k] < s[j]
  {
    if |s| == 1 then 0
    else
      var k := ArgMin(s[..|s| - 1]);
      if s[|s| - 1] < s[k] then |s| - 1 else k
  }

  function MaxOf(s: seq<real>): real
    requires |s| > 0
  {
    s[ArgMax(s)]
  }

  function MinOf(s: seq<real>): real
    requires |s| > 0
  {
    s[ArgMin(s)]
  }

  /** `s.expanding().max()`: the largest entry seen up to each point. */
  function RunningMax(s: seq<real>): (m: seq<real>)
    ensures |m| == |s|
    ensures forall t :: 0 <= t < |s| ==> m[t] == MaxOf(s[..t + 1])
  {
    seq(|s|, t requires 0 <= t < |s| => MaxOf(s[..t + 1]))
  }

  /**
   * The running maximum dominates the series, is reached by it at some
   * earlier-or-equal point, and never decreases.
   */
  lemma RunningMaxProperties(s: seq<real>)
    ensures forall t :: 0 <= t < |s| ==> s[t] <= RunningMax(s)[t]
    ensures forall t :: 0 <= t < |s| ==> RunningMax(s)[t] in s[..t + 1]
    ensures forall i, j :: 0 <= i <= j < |s| ==> RunningMax(s)[i] <= RunningMax(s)[j]
  {
    var m := RunningMax(s);
    forall t | 0 <= t < |s|
      ensures s[t] <= m[t]
      ensures m[t] in s[..t + 1]
    {
      var p := s[..t + 1];
      assert p[t] == s[t];
    }
    forall i, j | 0 <= i <= j < |s|
      ensures m[i] <= m[j]
    {
      RunningMaxMonotone(s, i, j);
    }
  }

  lemma RunningMaxMonotone(s: seq<real>, i: nat, j: nat)
    requires i <= j < |s|
    ensures RunningMax(s)[i] <= RunningMax(s)[j]
  {
    var k := ArgMax(s[..i + 1]);
    assert RunningMax(s)[i] == s[k];
    assert s[..j + 1][k] == s[k];
  }

  function Mean(s: seq<real>): real
    requires |s| > 0
  {
    Sum(s) / (|s| as real)
  }

  /** Deviations from the mean. */
  function Deviations(s: seq<real>): (d: seq<real>)
    requires |s| > 0
    ensures |d| == |s|
    ensures forall i :: 0 <= i < |s| ==> d[i] == s[i] - Mean(s)
  {
    seq(|s|, i requires 0 <= i < |s| => s[i] - Mean(s))
  }

  /** Sample covariance with one degree of freedom removed (pandas `cov`). */
  function SampleCov(a: seq<real>, b: seq<real>): real
    requires |a| == |b| >= 2
  {
    Dot(Deviations(a), Deviations(b)) / ((|a| - 1) as real)
  }

  /** Sample variance with one degree of freedom removed (pandas `var`, the square of `std`). */
  function SampleVar(s: seq<real>): real
    requires |s| >= 2
  {
    SampleCov(s, s)
  }

  lemma {:induction false} DotSelfNonNegative(d: seq<real>)
    ensures Dot(d, d) >= 0.0
  {
    if |d| > 0 {
      DotSelfNonNegative(d[..|d| - 1]);
    }
  }

  /** A sample variance is never negative, so it always has a square root. */
  lemma SampleVarNonNegative(s: seq<real>)
    requires |s| >= 2
    ensures SampleVar(s) >= 0.0
  {
    DotSelfNonNegative(Deviations(s));
  }

  /** One observation of a dated series (a pandas Series entry); dates are day numbers. */
  datatype Obs = Obs(date: int, value: real)

  /** One row of two series joined on their common dates. */
  datatype Joined = Joined(date: int, first: real, second: real)

  function Values(s: seq<Obs>): (v: seq<real>)
    ensures |v| == |s|
    ensures forall i :: 0 <= i < |s| ==> v[i] == s[i].value
  {
    seq(|s|, i requires 0 <= i < |s| => s[i].value)
  }

  function Firsts(j: seq<Joined>): (v: seq<real>)
    ensures |v| == |j|
    ensures forall i :: 0 <= i < |j| ==> v[i] == j[i].first
  {
    seq(|j|, i requires 0 <= i < |j| => j[i].first)
  }

  function Seconds(j: seq<Joined>): (v: seq<real>)
    ensures |v| == |j|
    ensures forall i :: 0 <= i < |j| ==> v[i] == j[i].second
  {
    seq(|j|, i requires 0 <= i < |j| => j[i].second)
  }

  /** Dates strictly increase, as on a pandas DatetimeIndex of trading days. */
  predicate Chronological(s: seq<Obs>)
  {
    forall i, j :: 0 <= i < j < |s| ==> s[i].date < s[j].date
  }

  predicate HasDate(s: seq<Obs>, d: int)
  {
    exists i :: 0 <= i < |s| && s[i].date == d
  }

  /** The value recorded on date `d`, if there is one (the first, if several). */
  function ValueOn(s: seq<Obs>, d: int): (r: Option<real>)
    ensures r.Some? <==> HasDate(s, d)
    ensures r.Some? ==> exists i :: 0 <= i < |s| && s[i].date == d && s[i].value == r.value
  {
    if |s| == 0 then None
    else if s[0].date == d then Some(s[0].value)
    else
      var r := ValueOn(s[1..], d);
      assert forall i :: 0 < i < |s| ==> s[i] == s[1..][i - 1];
      assert r.Some? ==> (exists i :: 1 <= i < |s| && s[i].date == d && s[i].value == r.value) by {
        if r.Some? {
          var i :| 0 <= i < |s| - 1 && s[1..][i].date == d && s[1..][i].value == r.value;
          assert s[i + 1] == s[1..][i];
        }
      }
      r
  }

  /**
   * `pd.concat([a, b], axis=1).dropna()`: the dates present in both series,
   * in the order of `a`, each with the value from `a` and the value from `b`.
   */
  function Align(a: seq<Obs>, b: seq<Obs>): (r: seq<Joined>)
    ensures |r| <= |a|
  {
    if |a| == 0 then []
    else
      var last := a[|a| - 1];
      var rest := Align(a[..|a| - 1], b);
      match ValueOn(b, last.date)
      case Some(v) => rest + [Joined(last.date, last.value, v)]
      case None => rest
  }

  /** A joined row pairs an observation of `a` with the value `b` has on the same date. */
  predicate FromBoth(a: seq<Obs>, b: seq<Obs>, j: Joined)
  {
    (exists i :: 0 <= i < |a| && a[i] == Obs(j.date, j.first)) && ValueOn(b, j.date) == Some(j.second)
  }

  /** Every joined row comes from both series. */
  lemma {:induction false} AlignSound(a: seq<Obs>, b: seq<Obs>)
    ensures forall k :: 0 <= k < |Align(a, b)| ==> FromBoth(a, b, Align(a, b)[k])
  {
    if |a| > 0 {
      var init := a[..|a| - 1];
      AlignSound(init, b);
      var rest := Align(init, b);
      forall k | 0 <= k < |rest|
        ensures FromBoth(a, b, rest[k])
      {
        var i :| 0 <= i < |init| && init[i] == Obs(rest[k].date, rest[k].first);
        assert a[i] == init[i];
      }
      assert a[|a| - 1] == Obs(a[|a| - 1].date, a[|a| - 1].value);
    }
  }

  function JoinedDates(r: seq<Joined>): (d: seq<int>)
    ensures |d| == |r|
    ensures forall k :: 0 <= k < |r| ==> d[k] == r[k].date
  {
    seq(|r|, k requires 0 <= k < |r| => r[k].date)
  }

  /** Every date of `a` that `b` also has is joined. */
  lemma {:induction false} AlignComplete(a: seq<Obs>, b: seq<Obs>)
    ensures forall i :: 0 <= i < |a| && HasDate(b, a[i].date) ==> a[i].date in JoinedDates(Align(a, b))
  {
    if |a| > 0 {
      var init := a[..|a| - 1];
      AlignComplete(init, b);
      var rest := Align(init, b);
      var r := Align(a, b);
      assert JoinedDates(r)[..|rest|] == JoinedDates(rest);
      forall i | 0 <= i < |a| && HasDate(b, a[i].date)
        ensures a[i].date in JoinedDates(r)
      {
        if i < |a| - 1 {
          assert init[i] == a[i];
        } else {
          assert ValueOn(b, a[i].date).Some?;
          assert JoinedDates(r)[|r| - 1] == a[i].date;
        }
      }
    }
  }

  /** Joining a chronological series keeps the joined dates strictly increasing. */
  lemma {:induction false} AlignChronological(a: seq<Obs>, b: seq<Obs>)
    requires Chronological(a)
    ensures forall i, j :: 0 <= i < j < |Align(a, b)| ==> Align(a, b)[i].date < Align(a, b)[j].date
  {
    if |a| > 0 {
      var init := a[..|a| - 1];
      assert Chronological(init);
      AlignChronological(init, b);
      AlignSound(init, b);
      var rest := Align(init, b);
      forall k | 0 <= k < |rest|
        ensures rest[k].date < a[|a| - 1].date
      {
        assert FromBoth(init, b, rest[k]);
        var i :| 0 <= i < |init| && init[i] == Obs(rest[k].date, rest[k].first);
        assert init[i] == a[i];
      }
    }
  }

  /** `s.tail(min(n, |s|))`: the last `n` entries, or all of them when there are fewer. */
  function Tail<T>(s: seq<T>, n: nat): (r: seq<T>)
    ensures |r| == if n < |s| then n else |s|
    ensures forall i :: 0 <= i < |r| ==> r[i] == s[|s| - |r| + i]
  {
    if n < |s| then s[|s| - n..] else s
  }
}
