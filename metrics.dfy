/** Performance statistics of a daily return series: drawdown, annualised
    return and volatility, the guarded Sharpe, Sortino and Calmar ratios, the
    95% value at risk and expected shortfall, and the record holding them. */
module Metrics {
  import opened Vectors
  import opened Sorting
  import opened Numerics

  /** Days per year used by `compute_metrics`. */
  const DaysPerYear: nat := 252

  // ================================================================
  // Drawdown.
  // ================================================================

  /** Product of the entries (`prod`), peeled from the back like `cumprod`. */
  function Prod(s: Vector): real
  {
    if s == [] then 1.0 else Prod(s[..|s| - 1]) * s[|s| - 1]
  }

  lemma {:induction false} ProdPositive(s: Vector)
    requires forall i :: 0 <= i < |s| ==> 0.0 < s[i]
    ensures 0.0 < Prod(s)
  {
    if s != [] {
      ProdPositive(s[..|s| - 1]);
      MulPositive(Prod(s[..|s| - 1]), s[|s| - 1]);
    }
  }

  /** `1 + series`. */
  function Growth(r: Vector): (g: Vector)
    ensures |g| == |r| && forall t {:trigger g[t]} :: 0 <= t < |r| ==> g[t] == 1.0 + r[t]
  {
    seq(|r|, t requires 0 <= t < |r| => 1.0 + r[t])
  }

  /** `(1 + series).cumprod()`: entry `t` is the growth of one unit over days `0..t`. */
  function Cumulative(r: Vector): (c: Vector)
    ensures |c| == |r| && forall t {:trigger c[t]} :: 0 <= t < |r| ==> c[t] == Prod(Growth(r)[..t + 1])
  {
    seq(|r|, t requires 0 <= t < |r| => Prod(Growth(r)[..t + 1]))
  }

  /** The cumulative product is the scan `c[t + 1] == c[t] * (1 + r[t + 1])`. */
  lemma {:induction false} CumulativeStep(r: Vector, t: nat)
    requires t + 1 < |r|
    ensures Cumulative(r)[t + 1] == Cumulative(r)[t] * (1.0 + r[t + 1])
  {
    var g := Growth(r);
    assert g[..t + 2][..t + 1] == g[..t + 1];
  }

  /** With every return above -1 the wealth stays positive. */
  lemma {:induction false} CumulativePositive(r: Vector)
    requires forall t :: 0 <= t < |r| ==> -1.0 < r[t]
    ensures forall t :: 0 <= t < |r| ==> 0.0 < Cumulative(r)[t]
  {
    var g := Growth(r);
    forall t | 0 <= t < |r| ensures 0.0 < Cumulative(r)[t] {
      ProdPositive(g[..t + 1]);
    }
  }

  /** The largest entry of a non-empty vector, peeled from the back like `cummax`. */
  function PrefixMax(s: Vector): (m: real)
    requires s != []
    ensures forall i :: 0 <= i < |s| ==> s[i] <= m
    ensures exists i :: 0 <= i < |s| && s[i] == m
  {
    if |s| == 1 then s[0]
    else
      var rest := PrefixMax(s[..|s| - 1]);
      assert forall i :: 0 <= i < |s| - 1 ==> s[..|s| - 1][i] == s[i];
      Max(rest, s[|s| - 1])
  }

  /** The smallest entry of a non-empty vector (`Series.min`). */
  function MinOf(s: Vector): (m: real)
    requires s != []
    ensures forall i :: 0 <= i < |s| ==> m <= s[i]
    ensures exists i :: 0 <= i < |s| && s[i] == m
  {
    if |s| == 1 then s[0]
    else
      var rest := MinOf(s[..|s| - 1]);
      assert forall i :: 0 <= i < |s| - 1 ==> s[..|s| - 1][i] == s[i];
      Min(rest, s[|s| - 1])
  }

  /** `cum.cummax()`. */
  function RunningPeak(c: Vector): (p: Vector)
    ensures |p| == |c| && forall t {:trigger p[t]} :: 0 <= t < |c| ==> p[t] == PrefixMax(c[..t + 1])
  {
    seq(|c|, t requires 0 <= t < |c| => PrefixMax(c[..t + 1]))
  }

  /** The running peak is never below the value it tracks and is a value already seen. */
  lemma {:induction false} RunningPeakFacts(c: Vector)
    ensures forall t :: 0 <= t < |c| ==>
      c[t] <= RunningPeak(c)[t] && exists k :: 0 <= k <= t && RunningPeak(c)[t] == c[k]
  {
    forall t | 0 <= t < |c|
      ensures c[t] <= RunningPeak(c)[t] && exists k :: 0 <= k <= t && RunningPeak(c)[t] == c[k]
    {
      var k := PeakAt(c, t);
    }
  }

  /** The index of a value already seen that the peak on day `t` equals. */
  lemma PeakAt(c: Vector, t: nat) returns (k: nat)
    requires t < |c|
    ensures c[t] <= RunningPeak(c)[t]
    ensures k <= t && RunningPeak(c)[t] == c[k]
  {
    var pre := c[..t + 1];
    var m := PrefixMax(pre);
    assert RunningPeak(c)[t] == m;
    assert pre[t] == c[t];
    k :| 0 <= k < |pre| && pre[k] == m;
    assert c[k] == m;
  }

  /** The running peak never falls. */
  lemma {:induction false} RunningPeakMonotone(c: Vector)
    ensures forall t :: 0 <= t < |c| - 1 ==> RunningPeak(c)[t] <= RunningPeak(c)[t + 1]
  {
    forall t | 0 <= t < |c| - 1 ensures RunningPeak(c)[t] <= RunningPeak(c)[t + 1] {
      PeakStep(c, t);
    }
  }

  lemma PeakStep(c: Vector, t: nat)
    requires t + 1 < |c|
    ensures RunningPeak(c)[t] <= RunningPeak(c)[t + 1]
  {
    var pre := c[..t + 2];
    assert pre[..t + 1] == c[..t + 1];
    assert RunningPeak(c)[t + 1] == PrefixMax(pre);
    assert RunningPeak(c)[t] == PrefixMax(pre[..|pre| - 1]);
  }

  /** `drawdown`: `cum / peak - 1`; a day whose peak is zero (numpy: NaN) has drawdown 0. */
  function Drawdown(r: Vector): (dd: Vector)
    ensures |dd| == |r|
  {
    var c := Cumulative(r);
    var p := RunningPeak(c);
    seq(|r|, t requires 0 <= t < |r| => if p[t] == 0.0 then 0.0 else c[t] / p[t] - 1.0)
  }

  /** With every return above -1, each drawdown lies in `(-1, 0]`. */
  lemma {:induction false} DrawdownBounds(r: Vector)
    requires forall t :: 0 <= t < |r| ==> -1.0 < r[t]
    ensures forall t :: 0 <= t < |r| ==> -1.0 < Drawdown(r)[t] <= 0.0
  {
    var c := Cumulative(r);
    var p := RunningPeak(c);
    CumulativePositive(r);
    RunningPeakFacts(c);
    forall t | 0 <= t < |r| ensures -1.0 < Drawdown(r)[t] <= 0.0 {
      RatioInUnit(c[t], p[t]);
    }
  }

  lemma {:induction false} RatioInUnit(a: real, b: real)
    requires 0.0 < a <= b
    ensures 0.0 < a / b <= 1.0
  {
    var q := a / b;
    assert q * b == a;
  }

  /** `drawdown(series).min()`: the deepest drawdown, reached on some day. */
  function MaxDrawdown(r: Vector): (m: real)
    requires r != []
    ensures forall t :: 0 <= t < |r| ==> m <= Drawdown(r)[t]
    ensures exists t :: 0 <= t < |r| && Drawdown(r)[t] == m
  {
    MinOf(Drawdown(r))
  }

  /** With every return above -1 the maximum drawdown lies in `(-1, 0]`. */
  lemma {:induction false} MaxDrawdownBounds(r: Vector)
    requires r != []
    requires forall t :: 0 <= t < |r| ==> -1.0 < r[t]
    ensures -1.0 < MaxDrawdown(r) <= 0.0
  {
    DrawdownBounds(r);
    var dd := Drawdown(r);
    var k :| 0 <= k < |dd| && dd[k] == MinOf(dd);
  }

  // ================================================================
  // Annualisation.
  // ================================================================

  /** `annualize_return`: `prod(1 + r) ** (freq / len) - 1`, and 0 when the
      number of years `len / freq` is not positive. */
  function AnnualizeReturn(r: Vector, freq: int, num: Numerics): (cagr: real)
    requires freq != 0
    ensures r == [] || freq < 0 ==> cagr == 0.0
    ensures r != [] && freq > 0 ==> cagr == num.pow(Prod(Growth(r)), freq as real / |r| as real) - 1.0
  {
    var years := |r| as real / freq as real;
    if years <= 0.0 then 0.0
    else
      PositiveYears(|r| as real, freq as real);
      num.pow(Prod(Growth(r)), 1.0 / years) - 1.0
  }

  /** `len / freq` is positive exactly for a non-empty series and a positive `freq`, and then its inverse is `freq / len`. */
  lemma {:induction false} PositiveYears(len: real, freq: real)
    requires 0.0 <= len && freq != 0.0
    ensures 0.0 < len / freq <==> 0.0 < len && 0.0 < freq
    ensures 0.0 < len && 0.0 < freq ==> 1.0 / (len / freq) == freq / len
  {
    if 0.0 < len && freq < 0.0 {
      var q := len / freq;
      assert q * freq == len;
    }
  }

  /** `annualize_vol`: `std(r) * sqrt(freq)`, never negative. */
  function AnnualizeVol(r: Vector, freq: nat, num: Numerics): (vol: real)
    requires ValidNumerics(num)
    ensures 0.0 <= vol
  {
    Std(r, num) * num.sqrt(freq as real)
  }

  // ================================================================
  // Value at risk and expected shortfall.
  // ================================================================

  /** The entries that satisfy `keep`, in order (boolean indexing). */
  function Filter(v: Vector, keep: real -> bool): (f: Vector)
    ensures |f| <= |v|
    ensures forall i :: 0 <= i < |f| ==> keep(f[i])
  {
    if v == [] then []
    else (if keep(v[0]) then [v[0]] else []) + Filter(v[1..], keep)
  }

  /** The selection is drawn from `v` and misses no entry that satisfies `keep`. */
  lemma {:induction false} FilterSelects(v: Vector, keep: real -> bool)
    ensures multiset(Filter(v, keep)) <= multiset(v)
    ensures forall i :: 0 <= i < |v| && keep(v[i]) ==> v[i] in Filter(v, keep)
  {
    if v != [] {
      var head := if keep(v[0]) then [v[0]] else [];
      var rest := Filter(v[1..], keep);
      assert Filter(v, keep) == head + rest;
      FilterSelects(v[1..], keep);
      assert v == [v[0]] + v[1..];
      assert multiset(v) == multiset{v[0]} + multiset(v[1..]);
      forall i | 0 <= i < |v| && keep(v[i]) ensures v[i] in Filter(v, keep) {
        if i > 0 {
          assert v[1..][i - 1] == v[i];
        }
      }
    }
  }

  /** An entry that is kept makes the selection non-empty. */
  lemma {:induction false} FilterNonEmpty(v: Vector, keep: real -> bool, i: nat)
    requires i < |v| && keep(v[i])
    ensures |Filter(v, keep)| > 0
  {
    var head := if keep(v[0]) then [v[0]] else [];
    assert Filter(v, keep) == head + Filter(v[1..], keep);
    if i > 0 {
      assert v[1..][i - 1] == v[i];
      FilterNonEmpty(v[1..], keep, i - 1);
    }
  }

  /** `np.percentile(v, q)` with numpy's default linear interpolation between
      the order statistics around index `(n - 1) * q / 100`. */
  function Percentile(v: Vector, q: real): (p: real)
    requires v != [] && 0.0 <= q <= 100.0
    ensures Sort(v)[0] <= p <= Sort(v)[|v| - 1]
  {
    Interpolate(Sort(v), q)
  }

  /** Linear interpolation in an ascending vector at the fractional index `(|s| - 1) * q / 100`. */
  function Interpolate(s: Vector, q: real): (p: real)
    requires s != [] && Ascending(s) && 0.0 <= q <= 100.0
    ensures s[0] <= p <= s[|s| - 1]
  {
    var last := |s| - 1;
    PositionInRange(last, q);
    var pos := last as real * q / 100.0;
    FloorBounds(pos, last);
    var lo := pos.Floor;
    var frac := pos - lo as real;
    AscendingEnds(s, lo);
    if lo + 1 < |s| then
      AscendingEnds(s, lo + 1);
      Lerp(s[lo], s[lo + 1], frac)
    else
      s[lo]
  }

  lemma FloorBounds(pos: real, last: nat)
    requires 0.0 <= pos <= last as real
    ensures 0 <= pos.Floor <= last && 0.0 <= pos - pos.Floor as real < 1.0
  {
  }

  lemma AscendingEnds(s: Vector, k: int)
    requires Ascending(s) && 0 <= k < |s|
    ensures s[0] <= s[k] <= s[|s| - 1]
  {
  }

  lemma {:induction false} PositionInRange(last: nat, q: real)
    requires 0.0 <= q <= 100.0
    ensures 0.0 <= last as real * q / 100.0 <= last as real
  {
    var x := last as real * q;
    MulNonNegative(last as real, q);
    MulNonNegative(last as real, 100.0 - q);
    assert last as real * 100.0 - x == last as real * (100.0 - q);
  }

  /** The point a fraction `t` of the way from `a` to `b` lies between them. */
  function Lerp(a: real, b: real, t: real): (r: real)
    requires a <= b && 0.0 <= t <= 1.0
    ensures a <= r <= b
  {
    var d := b - a;
    MulNonNegative(t, d);
    MulNonNegative(1.0 - t, d);
    assert (1.0 - t) * d == d - t * d;
    a + t * d
  }

  /** Some return never exceeds the percentile: the smallest one. */
  lemma {:induction false} PercentileAttained(v: Vector, q: real)
    requires v != [] && 0.0 <= q <= 100.0
    ensures exists i :: 0 <= i < |v| && v[i] <= Percentile(v, q)
  {
    var s := Sort(v);
    assert s[0] in multiset(s);
    assert s[0] in multiset(v);
    var i :| 0 <= i < |v| && v[i] == s[0];
  }

  /** The mean of the returns at or below `bound`, and `bound` itself when there are none. */
  function ExpectedShortfall(v: Vector, bound: real): (cvar: real)
    ensures |Filter(v, x => x <= bound)| == 0 ==> cvar == bound
    ensures cvar <= bound
  {
    var tail := Filter(v, x => x <= bound);
    if |tail| > 0 then
      MeanAtMost(tail, bound);
      Mean(tail)
    else bound
  }

  /** The tail below the 95% value at risk of a non-empty series is never empty,
      so the fallback of the expected shortfall is never taken. */
  lemma {:induction false} ShortfallTailNonEmpty(v: Vector)
    requires v != []
    ensures |Filter(v, x => x <= Percentile(v, 5.0))| > 0
    ensures ExpectedShortfall(v, Percentile(v, 5.0)) == Mean(Filter(v, x => x <= Percentile(v, 5.0)))
  {
    var bound := Percentile(v, 5.0);
    PercentileAttained(v, 5.0);
    var i :| 0 <= i < |v| && v[i] <= bound;
    FilterNonEmpty(v, x => x <= bound, i);
  }

  // ================================================================
  // The metrics record.
  // ================================================================

  datatype MetricsRecord = MetricsRecord(
    cagr: real,
    vol: real,
    sharpe: real,
    sortino: real,
    maxDrawdown: real,
    calmar: real,
    avgTurnover: real,
    realizedVol: real,
    volMinusTarget: real,
    var95: real,
    cvar95: real)

  /** The record's column names, in order. */
  const MetricNames: seq<string> := ["CAGR", "Vol", "Sharpe", "Sortino", "MaxDrawdown", "Calmar",
    "AvgTurnover", "RealizedVol", "VolMinusTarget", "VaR95", "CVaR95"]

  /** The record as the named row it becomes in the metrics table. */
  function Row(m: MetricsRecord): (row: seq<(string, real)>)
    ensures |row| == |MetricNames| == 11
    ensures forall k :: 0 <= k < |row| ==> row[k].0 == MetricNames[k]
  {
    [("CAGR", m.cagr), ("Vol", m.vol), ("Sharpe", m.sharpe), ("Sortino", m.sortino),
     ("MaxDrawdown", m.maxDrawdown), ("Calmar", m.calmar), ("AvgTurnover", m.avgTurnover),
     ("RealizedVol", m.realizedVol), ("VolMinusTarget", m.volMinusTarget), ("VaR95", m.var95),
     ("CVaR95", m.cvar95)]
  }

  /** The strictly negative returns (`daily_returns[daily_returns < 0]`). */
  function Losses(r: Vector): (l: Vector)
    ensures forall i :: 0 <= i < |l| ==> l[i] < 0.0
  {
    Filter(r, x => x < 0.0)
  }

  /** `cagr / vol if vol > 0 else 0.0`. */
  function SharpeRatio(cagr: real, vol: real): (r: real)
    ensures vol <= 0.0 ==> r == 0.0
    ensures vol > 0.0 ==> r * vol == cagr
  {
    if vol > 0.0 then cagr / vol else 0.0
  }

  /** `cagr / (downside * annualizer) if downside > 0 else 0.0`, for a positive
      annualising factor `sqrt(252)`. */
  function SortinoRatio(cagr: real, downside: real, annualizer: real): (r: real)
    requires 0.0 < annualizer
    ensures downside <= 0.0 ==> r == 0.0
    ensures downside > 0.0 ==> r * (downside * annualizer) == cagr
  {
    if downside > 0.0 then
      MulPositive(downside, annualizer);
      cagr / (downside * annualizer)
    else 0.0
  }

  /** `-cagr / max_dd if max_dd < 0 else 0.0`. */
  function CalmarRatio(cagr: real, maxDd: real): (r: real)
    ensures maxDd >= 0.0 ==> r == 0.0
    ensures maxDd < 0.0 ==> r * maxDd == -cagr
  {
    if maxDd < 0.0 then -cagr / maxDd else 0.0
  }

  /** `compute_metrics`. numpy's standard deviation of no losses is NaN, and
      `NaN > 0` is false, so the Sortino ratio is 0 then; the model's `Std([]) == 0`
      takes the same branch. */
  function ComputeMetrics(daily: Vector, turnover: Vector, targetVol: real, num: Numerics): (m: MetricsRecord)
    requires daily != [] && ValidNumerics(num)
    ensures m.cagr == AnnualizeReturn(daily, DaysPerYear, num)
    ensures m.vol == AnnualizeVol(daily, DaysPerYear, num) && 0.0 <= m.vol
    ensures m.sharpe == SharpeRatio(m.cagr, m.vol)
    ensures m.sortino == SortinoRatio(m.cagr, Std(Losses(daily), num), num.sqrt(DaysPerYear as real))
    ensures m.maxDrawdown == MaxDrawdown(daily)
    ensures m.calmar == CalmarRatio(m.cagr, m.maxDrawdown)
    ensures m.avgTurnover == Mean(turnover)
    ensures m.realizedVol == m.vol && m.volMinusTarget == m.vol - targetVol
    ensures m.var95 == Percentile(daily, 5.0)
    ensures m.cvar95 <= m.var95
    ensures m.cvar95 == Mean(Filter(daily, x => x <= m.var95))
  {
    var cagr := AnnualizeReturn(daily, DaysPerYear, num);
    var vol := AnnualizeVol(daily, DaysPerYear, num);
    var downside := Std(Losses(daily), num);
    var maxDd := MaxDrawdown(daily);
    var var95 := Percentile(daily, 5.0);
    ShortfallTailNonEmpty(daily);
    MetricsRecord(cagr, vol, SharpeRatio(cagr, vol), SortinoRatio(cagr, downside, num.sqrt(DaysPerYear as real)),
      maxDd, CalmarRatio(cagr, maxDd), Mean(turnover), vol, vol - targetVol, var95, ExpectedShortfall(daily, var95))
  }

  /** A series that never loses a whole unit has a non-positive maximum drawdown,
      and so a Calmar ratio of `-CAGR / MaxDrawdown` or 0. */
  lemma {:induction false} MetricsDrawdownNonPositive(daily: Vector, turnover: Vector, targetVol: real, num: Numerics)
    requires daily != [] && ValidNumerics(num)
    requires forall t :: 0 <= t < |daily| ==> -1.0 < daily[t]
    ensures -1.0 < ComputeMetrics(daily, turnover, targetVol, num).maxDrawdown <= 0.0
  {
    MaxDrawdownBounds(daily);
  }
}
