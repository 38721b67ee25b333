/** Long-only allocation rules (src/strategies/allocations.py): the Euclidean
    projection onto the probability simplex, equal weight, the two solver-based
    rules, the risk-parity fixed point and the volatility-targeting overlay. */
module Allocations {
  import opened Vectors
  import opened Matrices
  import opened Sorting
  import opened Numerics

  /** Trading days per year used to annualise a daily volatility. */
  const TradingDays: real := 252.0

  // ================================================================
  // Projection onto the simplex (sort, cumulative sum, threshold).
  // ================================================================

  /** Index `j` of the descending vector `v` passes `v[j] * (j + 1) > cssv[j] - 1`,
      where `cssv[j]` is the cumulative sum up to and including `j`. */
  predicate Feasible(v: Vector, j: nat)
    requires j < |v|
  {
    v[j] * (j + 1) as real > Sum(v[..j + 1]) - 1.0
  }

  /** Index 0 always passes: `v[0] > v[0] - 1`. So a threshold index always exists. */
  lemma FirstIndexFeasible(v: Vector)
    requires |v| >= 1
    ensures Feasible(v, 0)
  {
    assert v[..1] == [v[0]];
    assert Sum(v[..1]) == v[0] + Sum([]);
  }

  /** `np.nonzero(...)[0][-1]` over the indices below `k`: the LAST passing index. */
  function LastFeasible(v: Vector, k: nat): (rho: nat)
    requires 1 <= k <= |v|
    ensures rho < k && Feasible(v, rho)
    ensures forall j :: rho < j < k ==> !Feasible(v, j)
  {
    if Feasible(v, k - 1) then k - 1
    else
      FirstIndexFeasible(v);
      LastFeasible(v, k - 1)
  }

  /** `theta = (cssv[rho] - 1) / (rho + 1)`: the shift that takes the `rho + 1`
      largest entries down to a total of one. */
  function Threshold(v: Vector, rho: nat): (theta: real)
    requires rho < |v|
    ensures Sum(v[..rho + 1]) - (rho + 1) as real * theta == 1.0
  {
    (Sum(v[..rho + 1]) - 1.0) / (rho + 1) as real
  }

  /** `np.maximum(w - theta, 0)`. */
  function Shifted(w: Vector, theta: real): (r: Vector)
    ensures |r| == |w| && forall i {:trigger r[i]} :: 0 <= i < |w| ==> r[i] == Max(w[i] - theta, 0.0)
  {
    seq(|w|, i requires 0 <= i < |w| => Max(w[i] - theta, 0.0))
  }

  /** `project_to_simplex`: a point already on the simplex (within `project_to_simplex`'s
      tolerance) comes back unchanged; any other vector is shifted by the
      threshold and clipped at zero, which lands EXACTLY on the simplex. */
  function ProjectToSimplex(w: Vector): (r: Vector)
    requires |w| >= 1
    ensures |r| == |w|
    ensures forall i :: 0 <= i < |r| ==> 0.0 <= r[i]
    ensures OnSimplex(w) ==> r == w
    ensures !OnSimplex(w) ==> Sum(r) == 1.0
    ensures OnSimplex(r)
  {
    if OnSimplex(w) then w
    else
      var v := SortDescending(w);
      var rho := LastFeasible(v, |v|);
      ProjectionSumsToOne(w);
      Shifted(w, Threshold(v, rho))
  }

  /** Projecting twice is projecting once. */
  lemma ProjectionIdempotent(w: Vector)
    requires |w| >= 1
    ensures ProjectToSimplex(ProjectToSimplex(w)) == ProjectToSimplex(w)
  {
  }

  lemma SumShiftedAppend(a: Vector, b: Vector, theta: real)
    ensures Sum(Shifted(a + b, theta)) == Sum(Shifted(a, theta)) + Sum(Shifted(b, theta))
  {
    assert Shifted(a + b, theta) == Shifted(a, theta) + Shifted(b, theta);
    SumAppend(Shifted(a, theta), Shifted(b, theta));
  }

  /** The clipped shift of a vector and of any permutation of it have the same sum. */
  lemma {:induction false} ShiftedSumPermutation(a: Vector, b: Vector, theta: real)
    requires multiset(a) == multiset(b)
    ensures Sum(Shifted(a, theta)) == Sum(Shifted(b, theta))
    decreases |a|
  {
    if a == [] {
      assert |b| == |multiset(b)|;
      assert b == [];
    } else {
      var k := PermutationTail(a, b);
      ShiftedSumPermutation(a[1..], b[..k] + b[k + 1..], theta);
      assert a == [a[0]] + a[1..];
      SumShiftedAppend([a[0]], a[1..], theta);
      SumShiftedRemove(b, k, theta);
    }
  }

  /** The first entry of `a` sits at some `k` in its permutation `b`, and the rests
      are permutations of each other. */
  lemma PermutationTail(a: Vector, b: Vector) returns (k: nat)
    requires a != [] && multiset(a) == multiset(b)
    ensures k < |b| && b[k] == a[0]
    ensures multiset(a[1..]) == multiset(b[..k] + b[k + 1..])
  {
    assert a[0] in multiset(b);
    k :| 0 <= k < |b| && b[k] == a[0];
    RemoveAt(b, k);
    assert a == [a[0]] + a[1..];
  }

  /** Taking out the entry at `k` takes its clipped shift out of the sum. */
  lemma SumShiftedRemove(b: Vector, k: nat, theta: real)
    requires k < |b|
    ensures Sum(Shifted(b, theta)) == Sum(Shifted([b[k]], theta)) + Sum(Shifted(b[..k] + b[k + 1..], theta))
  {
    var left, right := b[..k], b[k + 1..];
    assert b == left + [b[k]] + right;
    SumShiftedAppend(left + [b[k]], right, theta);
    SumShiftedAppend(left, [b[k]], theta);
    SumShiftedAppend(left, right, theta);
  }

  /** Entries at least the threshold lose exactly the threshold. */
  lemma {:induction false} SumShiftedAbove(u: Vector, theta: real)
    requires forall i :: 0 <= i < |u| ==> theta <= u[i]
    ensures Sum(Shifted(u, theta)) == Sum(u) - |u| as real * theta
  {
    if u != [] {
      assert Shifted(u, theta)[1..] == Shifted(u[1..], theta);
      SumShiftedAbove(u[1..], theta);
    }
  }

  /** Entries at most the threshold are clipped to zero. */
  lemma {:induction false} SumShiftedBelow(u: Vector, theta: real)
    requires forall i :: 0 <= i < |u| ==> u[i] <= theta
    ensures Sum(Shifted(u, theta)) == 0.0
  {
    if u != [] {
      assert Shifted(u, theta)[1..] == Shifted(u[1..], theta);
      SumShiftedBelow(u[1..], theta);
    }
  }

  /** Sign facts about a positive factor, kept out of `ThresholdSplits`, where
      the solver does not find them among the sums. */
  lemma PositiveFactor(a: real, c: real)
    requires 0.0 < c && 0.0 < a * c
    ensures 0.0 < a
  {
  }

  lemma NonPositiveFactor(a: real, c: real)
    requires 0.0 < c && a * c <= 0.0
    ensures a <= 0.0
  {
  }

  /** On the sorted vector the threshold separates the first `rho + 1` entries
      (strictly above it) from the rest (at most it). */
  lemma ThresholdSplits(v: Vector, rho: nat)
    requires Descending(v) && rho < |v| && Feasible(v, rho)
    requires forall j :: rho < j < |v| ==> !Feasible(v, j)
    ensures forall j :: 0 <= j <= rho ==> v[j] > Threshold(v, rho)
    ensures forall j :: rho < j < |v| ==> v[j] <= Threshold(v, rho)
  {
    var theta := Threshold(v, rho);
    var c := (rho + 1) as real;
    var s := Sum(v[..rho + 1]);
    assert theta * c == s - 1.0;
    assert v[rho] * c > s - 1.0;
    assert (v[rho] - theta) * c == v[rho] * c - theta * c;
    PositiveFactor(v[rho] - theta, c);
    if rho + 1 < |v| {
      var x := v[rho + 1];
      assert v[..rho + 2] == v[..rho + 1] + [x];
      SumAppend(v[..rho + 1], [x]);
      assert Sum([x]) == x + Sum([]);
      assert !Feasible(v, rho + 1);
      assert x * (c + 1.0) <= s + x - 1.0;
      assert (x - theta) * c == x * c - theta * c;
      NonPositiveFactor(x - theta, c);
    }
  }

  /** The heart of the projection: over the reals the clipped shift sums to one. */
  lemma ProjectionSumsToOne(w: Vector)
    requires |w| >= 1
    ensures Sum(Shifted(w, Threshold(SortDescending(w), LastFeasible(SortDescending(w), |w|)))) == 1.0
  {
    var v := SortDescending(w);
    var theta := Threshold(v, LastFeasible(v, |v|));
    ShiftedSumPermutation(w, v, theta);
    SortedShiftedSumsToOne(v);
  }

  /** The same on the descending vector itself, where the threshold splits it in two. */
  lemma SortedShiftedSumsToOne(v: Vector)
    requires |v| >= 1 && Descending(v)
    ensures Sum(Shifted(v, Threshold(v, LastFeasible(v, |v|)))) == 1.0
  {
    var rho := LastFeasible(v, |v|);
    ThresholdSplits(v, rho);
    SumShiftedSplit(v, rho, Threshold(v, rho));
  }

  /** With the entries up to `rho` above the threshold and the rest at most it,
      the clipped shift sums to `cssv[rho] - (rho + 1) * theta`, which is one. */
  lemma SumShiftedSplit(v: Vector, rho: nat, theta: real)
    requires rho < |v|
    requires forall j :: 0 <= j <= rho ==> v[j] > theta
    requires forall j :: rho < j < |v| ==> v[j] <= theta
    requires theta == Threshold(v, rho)
    ensures Sum(Shifted(v, theta)) == 1.0
  {
    SumShiftedAtSplit(v, rho, theta);
    assert |v[..rho + 1]| == rho + 1;
  }

  /** Splitting at `rho`, only the entries up to it contribute, each by `v[j] - theta`. */
  lemma SumShiftedAtSplit(v: Vector, rho: nat, theta: real)
    requires rho < |v|
    requires forall j :: 0 <= j <= rho ==> v[j] > theta
    requires forall j :: rho < j < |v| ==> v[j] <= theta
    ensures Sum(Shifted(v, theta)) == Sum(v[..rho + 1]) - |v[..rho + 1]| as real * theta
  {
    var hi, lo := v[..rho + 1], v[rho + 1..];
    forall i | 0 <= i < |hi| ensures theta <= hi[i] {
      assert hi[i] == v[i];
    }
    forall i | 0 <= i < |lo| ensures lo[i] <= theta {
      assert lo[i] == v[rho + 1 + i];
    }
    assert v == hi + lo;
    SumShiftedHalves(hi, lo, theta);
  }

  /** Entries at least `theta` followed by entries at most `theta`. */
  lemma SumShiftedHalves(hi: Vector, lo: Vector, theta: real)
    requires forall i :: 0 <= i < |hi| ==> theta <= hi[i]
    requires forall i :: 0 <= i < |lo| ==> lo[i] <= theta
    ensures Sum(Shifted(hi + lo, theta)) == Sum(hi) - |hi| as real * theta
  {
    SumShiftedAbove(hi, theta);
    SumShiftedBelow(lo, theta);
    SumShiftedAppend(hi, lo, theta);
  }

  // ================================================================
  // Equal weight and the solver-based rules.
  // ================================================================

  /** `np.ones(n) / n`. */
  function EqualWeight(n: nat): (w: Vector)
    ensures |w| == n && forall i :: 0 <= i < n ==> w[i] == 1.0 / n as real
    ensures n >= 1 ==> Sum(w) == 1.0 && OnSimplex(w)
  {
    if n == 0 then []
    else
      var w := seq(n, _ => 1.0 / n as real);
      SumConstant(w, 1.0 / n as real);
      w
  }

  predicate WellShaped(obj: Objective, n: nat)
  {
    match obj
    case PortfolioVariance(cov) => IsSquare(cov, n)
    case MeanVarianceUtility(mu, cov, _) => |mu| == n && IsSquare(cov, n)
  }

  /** The objective closures: `w @ cov @ w` and `-mu @ w + 0.5 * gamma * (w @ cov @ w)`. */
  function ObjectiveValue(obj: Objective, w: Vector): real
    requires WellShaped(obj, |w|)
  {
    match obj
    case PortfolioVariance(cov) => Quadratic(cov, w)
    case MeanVarianceUtility(mu, cov, gamma) => -Dot(mu, w) + 0.5 * gamma * Quadratic(cov, w)
  }
  /** The variance objective `w @ cov @ w` is never negative for a positive
      semidefinite `cov`. */
  lemma VarianceObjectiveNonNegative(cov: Matrix, w: Vector)
    requires IsSquare(cov, |w|)
    ensures PositiveSemidefinite(cov) ==> 0.0 <= ObjectiveValue(PortfolioVariance(cov), w)
  {
    if PositiveSemidefinite(cov) {
      PositiveSemidefiniteAt(cov, w);
    }
  }

  /** The utility `-mu @ w + 0.5 * gamma * (w @ cov @ w)` is exactly minus the
      expected return without risk aversion, and never below it when
      `gamma >= 0` and `cov` is positive semidefinite. */
  lemma UtilityObjectiveBounds(mu: Vector, cov: Matrix, gamma: real, w: Vector)
    requires |mu| == |w| && IsSquare(cov, |w|)
    ensures gamma == 0.0 ==> ObjectiveValue(MeanVarianceUtility(mu, cov, gamma), w) == -Dot(mu, w)
    ensures 0.0 <= gamma && PositiveSemidefinite(cov) ==> -Dot(mu, w) <= ObjectiveValue(MeanVarianceUtility(mu, cov, gamma), w)
  {
    var q := Quadratic(cov, w);
    var f := ObjectiveValue(MeanVarianceUtility(mu, cov, gamma), w);
    UtilityParts(f, Dot(mu, w), q, gamma);
    if PositiveSemidefinite(cov) {
      PositiveSemidefiniteAt(cov, w);
    }
  }

  lemma PositiveSemidefiniteAt(m: Matrix, x: Vector)
    requires IsSquare(m, |x|) && PositiveSemidefinite(m)
    ensures 0.0 <= Quadratic(m, x)
  {
  }

  lemma UtilityParts(f: real, ret: real, q: real, gamma: real)
    requires f == -ret + 0.5 * gamma * q
    ensures gamma == 0.0 ==> f == -ret
    ensures 0.0 <= gamma && 0.0 <= q ==> -ret <= f
  {
    if 0.0 <= gamma && 0.0 <= q {
      MulLeftMono(gamma, 0.0, q);
    }
  }




  /** The gradient closures: `2 * cov @ w` and `-mu + gamma * cov @ w`. */
  function ObjectiveGradient(obj: Objective, w: Vector): (g: Vector)
    requires WellShaped(obj, |w|)
    ensures |g| == |w|
  {
    match obj
    case PortfolioVariance(cov) => Scale(MatVec(cov, w), 2.0)
    case MeanVarianceUtility(mu, cov, gamma) =>
      var cw := MatVec(cov, w);
      seq(|w|, i requires 0 <= i < |w| => -mu[i] + gamma * cw[i])
  }

  /** The factor of `h @ cov @ h` in each objective: one for the variance, `gamma / 2` for the utility. */
  function Curvature(obj: Objective): real
  {
    match obj
    case PortfolioVariance(_) => 1.0
    case MeanVarianceUtility(_, _, gamma) => 0.5 * gamma
  }

  /** Each gradient closure is the exact gradient of its objective closure:
      with a symmetric covariance, the objective at `w + h` is its value at
      `w`, plus the gradient at `w` dotted with `h`, plus `Curvature` times
      `h @ cov @ h`, a term of second order in `h`. */
  lemma {:induction false} ObjectiveExpansion(obj: Objective, w: Vector, h: Vector)
    requires WellShaped(obj, |w|) && |h| == |w| && IsSymmetric(obj.cov)
    ensures ObjectiveValue(obj, Add(w, h))
      == ObjectiveValue(obj, w) + Dot(ObjectiveGradient(obj, w), h) + Curvature(obj) * Quadratic(obj.cov, h)
  {
    if obj.PortfolioVariance? {
      VarianceExpansion(obj, w, h);
    } else {
      UtilityExpansion(obj, w, h);
    }
  }

  lemma {:induction false} VarianceExpansion(obj: Objective, w: Vector, h: Vector)
    requires obj.PortfolioVariance? && WellShaped(obj, |w|) && |h| == |w| && IsSymmetric(obj.cov)
    ensures ObjectiveValue(obj, Add(w, h))
      == ObjectiveValue(obj, w) + Dot(ObjectiveGradient(obj, w), h) + Curvature(obj) * Quadratic(obj.cov, h)
  {
    QuadraticExpand(obj.cov, w, h);
    DotScaleLeft(MatVec(obj.cov, w), 2.0, h);
  }

  lemma {:induction false} UtilityExpansion(obj: Objective, w: Vector, h: Vector)
    requires obj.MeanVarianceUtility? && WellShaped(obj, |w|) && |h| == |w| && IsSymmetric(obj.cov)
    ensures ObjectiveValue(obj, Add(w, h))
      == ObjectiveValue(obj, w) + Dot(ObjectiveGradient(obj, w), h) + Curvature(obj) * Quadratic(obj.cov, h)
  {
    var mu, cov, gamma := obj.mu, obj.cov, obj.gamma;
    QuadraticExpand(cov, w, h);
    DotAddRight(mu, w, h);
    UtilityGradientTimes(mu, cov, gamma, w, h);
    UtilityAlgebra(Dot(mu, Add(w, h)), Dot(mu, w), Dot(mu, h), Quadratic(cov, Add(w, h)),
      Quadratic(cov, w), Dot(MatVec(cov, w), h), Quadratic(cov, h), gamma);
  }

  /** The utility's gradient at `w` dotted with a step `h`. */
  lemma {:induction false} UtilityGradientTimes(mu: Vector, cov: Matrix, gamma: real, w: Vector, h: Vector)
    requires IsSquare(cov, |w|) && |mu| == |w| && |h| == |w|
    ensures Dot(ObjectiveGradient(MeanVarianceUtility(mu, cov, gamma), w), h) == -Dot(mu, h) + gamma * Dot(MatVec(cov, w), h)
  {
    var cw := MatVec(cov, w);
    assert ObjectiveGradient(MeanVarianceUtility(mu, cov, gamma), w) == Add(Scale(mu, -1.0), Scale(cw, gamma));
    DotAddLeft(Scale(mu, -1.0), Scale(cw, gamma), h);
    DotScaleLeft(mu, -1.0, h);
    DotScaleLeft(cw, gamma, h);
  }

  /** The rearrangement of the utility's expansion, on its scalar parts. */
  lemma UtilityAlgebra(muSum: real, muW: real, muH: real, qSum: real, qW: real, d: real, qH: real, gamma: real)
    requires muSum == muW + muH && qSum == qW + 2.0 * d + qH
    ensures -muSum + 0.5 * gamma * qSum == (-muW + 0.5 * gamma * qW) + (-muH + gamma * d) + 0.5 * gamma * qH
  {
  }

  /** `_minimize_with_constraints`: whatever SLSQP answers (started at equal
      weight), the projection puts it on the simplex; an answer already on the
      simplex is returned as it is. */
  function MinimizeWithConstraints(obj: Objective, n: nat, num: Numerics): (w: Vector)
    requires n >= 1 && WellShaped(obj, n) && ValidNumerics(num)
    ensures |w| == n && OnSimplex(w)
    ensures OnSimplex(num.slsqp(Problem(obj, EqualWeight(n)))) ==> w == num.slsqp(Problem(obj, EqualWeight(n)))
  {
    ProjectToSimplex(num.slsqp(Problem(obj, EqualWeight(n))))
  }

  function MinVarianceWeights(cov: Matrix, num: Numerics): (w: Vector)
    requires |cov| >= 1 && IsSquare(cov, |cov|) && ValidNumerics(num)
    ensures |w| == |cov| && OnSimplex(w)
  {
    MinimizeWithConstraints(PortfolioVariance(cov), |cov|, num)
  }

  function MeanVarianceWeights(mu: Vector, cov: Matrix, gamma: real, num: Numerics): (w: Vector)
    requires |cov| >= 1 && IsSquare(cov, |cov|) && |mu| == |cov| && ValidNumerics(num)
    ensures |w| == |cov| && OnSimplex(w)
  {
    MinimizeWithConstraints(MeanVarianceUtility(mu, cov, gamma), |cov|, num)
  }

  // ================================================================
  // Risk parity: a bounded multiplicative fixed-point iteration.
  // ================================================================

  /** Added to every risk contribution before dividing by it. */
  const RiskParityEps: real := 0.000000000001

  /** `rc = w * (cov @ w)`: each asset's contribution to the portfolio variance. */
  function RiskContributions(cov: Matrix, w: Vector): (rc: Vector)
    requires IsSquare(cov, |w|)
    ensures |rc| == |w| && forall i {:trigger rc[i]} :: 0 <= i < |w| ==> rc[i] == w[i] * Dot(cov[i], w)
  {
    var mrc := MatVec(cov, w);
    seq(|w|, i requires 0 <= i < |w| => w[i] * mrc[i])
  }

  /** `diff = rc - port_var / n`. */
  function Deviation(cov: Matrix, w: Vector): (d: Vector)
    requires |w| >= 1 && IsSquare(cov, |w|)
    ensures |d| == |w|
  {
    var rc := RiskContributions(cov, w);
    var target := Quadratic(cov, w) / |w| as real;
    seq(|w|, i requires 0 <= i < |w| => rc[i] - target)
  }

  /** Either `break` of the loop: the variance is not positive, or
      `np.linalg.norm(diff) < tol`, stated without the square root as
      `tol > 0 && sum(diff ** 2) < tol ** 2`. */
  predicate RiskParityStops(cov: Matrix, w: Vector, tol: real)
    requires |w| >= 1 && IsSquare(cov, |w|)
  {
    Quadratic(cov, w) <= 0.0 ||
      (var d := Deviation(cov, w); tol > 0.0 && Dot(d, d) < tol * tol)
  }

  lemma MulLeftMono(a: real, x: real, y: real)
    requires 0.0 <= a && x <= y
    ensures a * x <= a * y
  {
    assert a * y - a * x == a * (y - x);
  }

  lemma MulRightMono(x: real, y: real, b: real)
    requires 0.0 <= b && x <= y
    ensures x * b <= y * b
  {
    assert y * b - x * b == (y - x) * b;
  }

  lemma MulRightStrict(x: real, y: real, b: real)
    requires 0.0 < b && x < y
    ensures x * b < y * b
  {
    assert y * b - x * b == (y - x) * b;
  }

  /** A non-negative `norm` whose square is `sq` is below `tol` exactly when
      `tol` is positive and `sq` is below `tol * tol`. */
  lemma NormBelow(norm: real, sq: real, tol: real)
    requires 0.0 <= norm && norm * norm == sq
    ensures norm < tol <==> 0.0 < tol && sq < tol * tol
  {
    if norm < tol {
      calc {
        sq;
      ==
        norm * norm;
      <= { MulLeftMono(norm, norm, tol); }
        norm * tol;
      < { MulRightStrict(norm, tol, tol); }
        tol * tol;
      }
    } else if 0.0 < tol {
      calc {
        tol * tol;
      <= { MulRightMono(tol, norm, tol); }
        norm * tol;
      <= { MulLeftMono(norm, tol, norm); }
        norm * norm;
      ==
        sq;
      }
    }
  }

  /** With `norm` the Euclidean norm of `diff` (non-negative, squaring to
      `diff @ diff`), `RiskParityStops` is exactly the source's pair of tests
      `port_var <= 0` or `norm < tol`. */
  lemma RiskParityStopsIsNormTest(cov: Matrix, w: Vector, tol: real, norm: real)
    requires |w| >= 1 && IsSquare(cov, |w|)
    requires 0.0 <= norm && norm * norm == Dot(Deviation(cov, w), Deviation(cov, w))
    ensures RiskParityStops(cov, w, tol) <==> Quadratic(cov, w) <= 0.0 || norm < tol
  {
    var d := Deviation(cov, w);
    NormBelow(norm, Dot(d, d), tol);
  }

  /** `w * target_rc / (rc + 1e-12)`; an entry whose denominator is exactly zero keeps its weight. */
  function RiskParityUpdate(cov: Matrix, w: Vector): (u: Vector)
    requires |w| >= 1 && IsSquare(cov, |w|)
    ensures |u| == |w|
  {
    var rc := RiskContributions(cov, w);
    var target := Quadratic(cov, w) / |w| as real;
    seq(|w|, i requires 0 <= i < |w| =>
      if rc[i] + RiskParityEps == 0.0 then w[i] else w[i] * target / (rc[i] + RiskParityEps))
  }

  /** One pass: the multiplicative update followed by the projection back onto the simplex. */
  function RiskParityNext(cov: Matrix, w: Vector): (r: Vector)
    requires |w| >= 1 && IsSquare(cov, |w|)
    ensures |r| == |w| && OnSimplex(r)
  {
    ProjectToSimplex(RiskParityUpdate(cov, w))
  }

  /** `range(max_iter)` runs no iteration for a negative bound. */
  function IterationCap(maxIter: int): nat
  {
    if maxIter < 0 then 0 else maxIter
  }

  /** The iteration, `remaining` passes at most, from the iterate `w`. */
  function RiskParityFrom(cov: Matrix, w: Vector, remaining: nat, tol: real): (r: Vector)
    requires |w| >= 1 && IsSquare(cov, |w|)
    ensures |r| == |w|
    ensures OnSimplex(w) ==> OnSimplex(r)
    ensures remaining == 0 || RiskParityStops(cov, w, tol) ==> r == w
  {
    PassOfKeepsShape(cov, tol, |w|);
    IteratedKeepsShape(PassOf(cov, tol), w, remaining);
    PassOfApplied(cov, tol, w);
    Iterated(PassOf(cov, tol), w, remaining)
  }

  /** One pass of the iteration when neither stopping test holds. */
  lemma RiskParityStep(cov: Matrix, w: Vector, remaining: nat, tol: real)
    requires |w| >= 1 && IsSquare(cov, |w|)
    requires 0 < remaining && !RiskParityStops(cov, w, tol)
    ensures RiskParityFrom(cov, w, remaining, tol)
         == RiskParityFrom(cov, RiskParityNext(cov, w), remaining - 1, tol)
  {
    PassOfApplied(cov, tol, w);
    IteratedStep(PassOf(cov, tol), w, remaining);
  }

  /** `risk_parity_weights`: the iteration from equal weight, projected once more. */
  function RiskParity(cov: Matrix, maxIter: int, tol: real): (w: Vector)
    requires |cov| >= 1 && IsSquare(cov, |cov|)
    ensures |w| == |cov| && OnSimplex(w)
  {
    ProjectToSimplex(RiskParityFrom(cov, EqualWeight(|cov|), IterationCap(maxIter), tol))
  }

  /** Every iterate is already on the simplex, so the final projection changes nothing. */
  lemma RiskParityLastProjectionIsIdentity(cov: Matrix, maxIter: int, tol: real)
    requires |cov| >= 1 && IsSquare(cov, |cov|)
    ensures RiskParity(cov, maxIter, tol) == RiskParityFrom(cov, EqualWeight(|cov|), IterationCap(maxIter), tol)
  {
  }

  /** Where the iteration has ended, its result is the current iterate. */
  lemma RiskParityFinish(cov: Matrix, w: Vector, remaining: nat, maxIter: int, tol: real)
    requires |cov| >= 1 && IsSquare(cov, |cov|) && |w| == |cov|
    requires remaining == 0 || RiskParityStops(cov, w, tol)
    requires RiskParityFrom(cov, w, remaining, tol) == RiskParityFrom(cov, EqualWeight(|cov|), IterationCap(maxIter), tol)
    ensures ProjectToSimplex(w) == RiskParity(cov, maxIter, tol)
  {
  }

  /** `risk_parity_weights`: the loop from equal weight, then one more projection.
      `iterations` counts the updates made: at most `max_iter`, and fewer only when
      a stopping test held at the returned weights. */
  method RiskParityWeights(cov: Matrix, maxIter: int, tol: real) returns (w: Vector, ghost iterations: nat)
    requires |cov| >= 1 && IsSquare(cov, |cov|)
    ensures w == RiskParity(cov, maxIter, tol)
    ensures |w| == |cov| && OnSimplex(w)
    ensures iterations <= IterationCap(maxIter)
    ensures iterations < IterationCap(maxIter) ==> RiskParityStops(cov, w, tol)
  {
    var last, it := RiskParityLoop(cov, EqualWeight(|cov|), maxIter, tol);
    RiskParityFinish(cov, last, IterationCap(maxIter) - it, maxIter, tol);
    w := ProjectToSimplex(last);
    iterations := it;
  }

  /** The `for` loop of `risk_parity_weights` from the iterate `start`, with its two
      early exits: it ends at an iterate from which the remaining passes change nothing. */
  method RiskParityLoop(cov: Matrix, start: Vector, maxIter: int, tol: real) returns (w: Vector, it: nat)
    requires |start| >= 1 && IsSquare(cov, |start|) && OnSimplex(start)
    ensures |w| == |start| && OnSimplex(w)
    ensures it <= IterationCap(maxIter)
    ensures it < IterationCap(maxIter) ==> RiskParityStops(cov, w, tol)
    ensures RiskParityFrom(cov, w, IterationCap(maxIter) - it, tol)
         == RiskParityFrom(cov, start, IterationCap(maxIter), tol)
  {
    PassOfKeepsShape(cov, tol, |start|);
    w, it := PassLoop(PassOf(cov, tol), start, maxIter);
    PassOfApplied(cov, tol, w);
  }

  /** The body of one iteration: the variance test, the deviation-norm test and,
      when neither `break`s, the update and its projection. */
  function RiskParityPass(cov: Matrix, w: Vector, tol: real): (r: (bool, Vector))
    requires |w| >= 1 && IsSquare(cov, |w|)
    ensures r.0 == RiskParityStops(cov, w, tol)
    ensures !r.0 ==> r.1 == RiskParityNext(cov, w) && |r.1| == |w| && OnSimplex(r.1)
  {
    var portVar := Quadratic(cov, w);
    if portVar <= 0.0 then (true, w)
    else
      var diff := Deviation(cov, w);
      if tol > 0.0 && Dot(diff, diff) < tol * tol then (true, w)
      else (false, RiskParityNext(cov, w))
  }

  /** The pass as a value the loop can run; a vector of another shape ends the loop. */
  function PassOf(cov: Matrix, tol: real): Vector -> (bool, Vector)
  {
    w => if |w| >= 1 && IsSquare(cov, |w|) then RiskParityPass(cov, w, tol) else (true, w)
  }

  /** At most `remaining` passes of the loop body `pass` from `w`, stopping at a `break`. */
  function Iterated(pass: Vector -> (bool, Vector), w: Vector, remaining: nat): Vector
    decreases remaining
  {
    if remaining == 0 || pass(w).0 then w else Iterated(pass, pass(w).1, remaining - 1)
  }

  /** On a vector of the right shape the loop's pass is `RiskParityPass`. */
  lemma PassOfApplied(cov: Matrix, tol: real, w: Vector)
    requires |w| >= 1 && IsSquare(cov, |w|)
    ensures PassOf(cov, tol)(w) == RiskParityPass(cov, w, tol)
  {
  }

  /** Every pass of the right shape that goes on keeps the length and lands on the simplex. */
  lemma PassOfKeepsShape(cov: Matrix, tol: real, n: nat)
    requires n >= 1 && IsSquare(cov, n)
    ensures forall x :: |x| == n && !PassOf(cov, tol)(x).0 ==> |PassOf(cov, tol)(x).1| == n && OnSimplex(PassOf(cov, tol)(x).1)
  {
    forall x | |x| == n && !PassOf(cov, tol)(x).0
      ensures |PassOf(cov, tol)(x).1| == n && OnSimplex(PassOf(cov, tol)(x).1)
    {
      PassOfApplied(cov, tol, x);
    }
  }

  /** Iterating passes that keep the length and land on the simplex does the same. */
  lemma {:induction false} IteratedKeepsShape(pass: Vector -> (bool, Vector), w: Vector, remaining: nat)
    requires forall x :: |x| == |w| && !pass(x).0 ==> |pass(x).1| == |w| && OnSimplex(pass(x).1)
    ensures |Iterated(pass, w, remaining)| == |w|
    ensures OnSimplex(w) ==> OnSimplex(Iterated(pass, w, remaining))
    decreases remaining
  {
    if 0 < remaining && !pass(w).0 {
      IteratedKeepsShape(pass, pass(w).1, remaining - 1);
    }
  }

  /** A `break`, or no pass left, ends the iteration at the current iterate. */
  lemma IteratedStops(pass: Vector -> (bool, Vector), w: Vector, remaining: nat)
    requires remaining == 0 || pass(w).0
    ensures Iterated(pass, w, remaining) == w
  {
  }

  /** Otherwise it goes on from the next iterate with one pass fewer. */
  lemma IteratedStep(pass: Vector -> (bool, Vector), w: Vector, remaining: nat)
    requires 0 < remaining && !pass(w).0
    ensures Iterated(pass, w, remaining) == Iterated(pass, pass(w).1, remaining - 1)
  {
  }

  /** `for _ in range(max_iter)` over the loop body `pass`, leaving at its first `break`.
      Each pass that goes on keeps the iterate's length and its place on the simplex.
      The loop ends at an iterate from which the remaining passes change nothing. */
  method PassLoop(pass: Vector -> (bool, Vector), start: Vector, maxIter: int) returns (w: Vector, it: nat)
    requires OnSimplex(start)
    requires forall x :: |x| == |start| && !pass(x).0 ==> |pass(x).1| == |start| && OnSimplex(pass(x).1)
    ensures |w| == |start| && OnSimplex(w)
    ensures it <= IterationCap(maxIter)
    ensures it < IterationCap(maxIter) ==> pass(w).0
    ensures Iterated(pass, w, IterationCap(maxIter) - it) == Iterated(pass, start, IterationCap(maxIter))
  {
    w := start;
    it := 0;
    ghost var cap := IterationCap(maxIter);
    while it < maxIter
      invariant it <= cap
      invariant |w| == |start| && OnSimplex(w)
      invariant Iterated(pass, w, cap - it) == Iterated(pass, start, cap)
    {
      var r := pass(w);
      if r.0 {
        break;
      }
      w := r.1;
      it := it + 1;
    }
  }

  // ================================================================
  // Volatility targeting.
  // ================================================================

  /** What `apply_vol_targeting` returns: the scaled risky sleeve, the cash residual and the leverage. */
  datatype VolTargeting = VolTargeting(risky: Vector, cash: real, leverage: real)

  /** `recent_returns @ weights`: the portfolio's daily returns over the window. */
  function PortfolioReturns(rows: Matrix, w: Vector): (p: Vector)
    requires IsTable(rows, |w|)
    ensures |p| == |rows| && forall t {:trigger p[t]} :: 0 <= t < |rows| ==> p[t] == Dot(rows[t], w)
  {
    seq(|rows|, t requires 0 <= t < |rows| => Dot(rows[t], w))
  }

  /** `np.std(portfolio_rets) * np.sqrt(252)`. */
  function RealizedVol(rows: Matrix, w: Vector, num: Numerics): (vol: real)
    requires IsTable(rows, |w|) && ValidNumerics(num)
    ensures 0.0 <= vol
  {
    Std(PortfolioReturns(rows, w), num) * num.sqrt(TradingDays)
  }

  /** Offset that keeps the leverage's denominator positive. */
  const VolEps: real := 0.00000001

  /** `min(target_vol / (realized_vol + 1e-8), lmax)`: never above the cap, and
      not negative when the target and the cap are not. */
  function Leverage(weights: Vector, recent: Matrix, targetVol: real, lmax: real, num: Numerics): (lev: real)
    requires IsTable(recent, |weights|) && ValidNumerics(num)
    ensures lev <= lmax
    ensures 0.0 <= targetVol && 0.0 <= lmax ==> 0.0 <= lev
  {
    var realized := RealizedVol(recent, weights, num);
    assert 0.0 <= targetVol ==> 0.0 <= targetVol / (realized + VolEps);
    Min(targetVol / (realized + VolEps), lmax)
  }

  /** On a one-day window the realised volatility is zero, so the leverage is
      the target over the offset `1e-8`, capped at `lmax`. */
  lemma {:induction false} LeverageOfOneDay(weights: Vector, recent: Matrix, targetVol: real, lmax: real, num: Numerics)
    requires IsTable(recent, |weights|) && |recent| == 1 && ValidNumerics(num)
    ensures RealizedVol(recent, weights, num) == 0.0
    ensures Leverage(weights, recent, targetVol, lmax, num) == Min(targetVol / VolEps, lmax)
  {
    VarianceOfOne(PortfolioReturns(recent, weights));
  }

  /** `apply_vol_targeting`: the sleeve scaled by the leverage, and the residual of one in cash. */
  function ApplyVolTargeting(weights: Vector, recent: Matrix, targetVol: real, lmax: real, num: Numerics): (r: VolTargeting)
    requires IsTable(recent, |weights|) && ValidNumerics(num)
    ensures r.leverage == Leverage(weights, recent, targetVol, lmax, num)
    ensures r.risky == Scale(weights, r.leverage)
    ensures 0.0 <= r.cash && r.cash == Max(0.0, 1.0 - Sum(r.risky))
  {
    var leverage := Leverage(weights, recent, targetVol, lmax, num);
    var scaled := Scale(weights, leverage);
    VolTargeting(scaled, Max(0.0, 1.0 - Sum(scaled)), leverage)
  }

  /** A fully invested long-only sleeve scaled by a non-negative leverage stays
      long-only and invests exactly the leverage; the cash is what is left of one. */
  lemma VolTargetingOfFullyInvested(weights: Vector, recent: Matrix, targetVol: real, lmax: real, num: Numerics)
    requires IsTable(recent, |weights|) && ValidNumerics(num)
    requires forall i :: 0 <= i < |weights| ==> 0.0 <= weights[i]
    requires Sum(weights) == 1.0
    requires 0.0 <= ApplyVolTargeting(weights, recent, targetVol, lmax, num).leverage
    ensures var r := ApplyVolTargeting(weights, recent, targetVol, lmax, num);
      && (forall i :: 0 <= i < |r.risky| ==> 0.0 <= r.risky[i])
      && Sum(r.risky) == r.leverage
      && r.cash == Max(0.0, 1.0 - r.leverage)
  {
    var r := ApplyVolTargeting(weights, recent, targetVol, lmax, num);
    assert r.risky == Scale(weights, r.leverage);
    ScaleFullyInvested(weights, r.leverage);
  }

  /** Scaling a long-only vector that sums to one by `c >= 0` gives a long-only vector summing to `c`. */
  lemma ScaleFullyInvested(v: Vector, c: real)
    requires forall i :: 0 <= i < |v| ==> 0.0 <= v[i]
    requires Sum(v) == 1.0 && 0.0 <= c
    ensures forall i :: 0 <= i < |v| ==> 0.0 <= Scale(v, c)[i]
    ensures Sum(Scale(v, c)) == c
  {
    SumScale(v, c);
    forall i | 0 <= i < |v| ensures 0.0 <= Scale(v, c)[i] {
      MulNonNegative(v[i], c);
    }
  }
}
