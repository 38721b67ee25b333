/** The three covariance estimators of the engine (sample, EWMA, shrinkage
    toward the diagonal), the eigenvalue clipping that makes a matrix positive
    definite, and `get_covariance`, which picks an estimator by name. */
module Covariance {
  import opened Wrappers
  import opened Vectors
  import opened Matrices
  import opened Numerics

  /** Lower bound `ensure_psd` clips the eigenvalues to. */
  const PsdEpsilon: real := 0.000001
  /** Default decay of `ewma_covariance`. */
  const DefaultLambda: real := 0.94
  /** Default intensity of `shrinkage_covariance`. */
  const DefaultShrinkage: real := 0.1

  // ================================================================
  // Sample covariance (`DataFrame.cov()`, normalised by T - 1).
  // ================================================================

  /** Column `j` of the window minus its mean. */
  function Centered(rows: Matrix, j: nat): (d: Vector)
    requires forall t :: 0 <= t < |rows| ==> j < |rows[t]|
    ensures |d| == |rows|
    ensures forall t {:trigger d[t]} :: 0 <= t < |rows| ==> d[t] == rows[t][j] - Mean(Column(rows, j))
  {
    var m := Mean(Column(rows, j));
    seq(|rows|, t requires 0 <= t < |rows| => rows[t][j] - m)
  }

  /** Pairwise dot products of equally long vectors are symmetric, and the diagonal ones are sums of squares. */
  lemma {:induction false} GramFacts(d: seq<Vector>, len: nat)
    requires forall j :: 0 <= j < |d| ==> |d[j]| == len
    ensures forall j, k :: 0 <= j < |d| && 0 <= k < |d| ==> Dot(d[j], d[k]) == Dot(d[k], d[j])
    ensures forall j :: 0 <= j < |d| ==> 0.0 <= Dot(d[j], d[j])
  {
    forall j, k | 0 <= j < |d| && 0 <= k < |d| ensures Dot(d[j], d[k]) == Dot(d[k], d[j]) {
      DotSymmetric(d[j], d[k]);
    }
    forall j | 0 <= j < |d| ensures 0.0 <= Dot(d[j], d[j]) {
      DotSelfNonNegative(d[j]);
    }
  }

  /** `returns.cov()`: entry `(j, k)` is the sum of products of the centred
      columns `j` and `k` divided by `T - 1`. The result is symmetric and every
      variance on its diagonal is non-negative. */
  function SampleCovariance(rows: Matrix, n: nat): (c: Matrix)
    requires IsTable(rows, n) && |rows| >= 2
    ensures IsSquare(c, n) && IsSymmetric(c)
    ensures forall j :: 0 <= j < n ==> 0.0 <= c[j][j]
    ensures forall j, k {:trigger c[j][k]} :: 0 <= j < n && 0 <= k < n ==>
      c[j][k] == Dot(Centered(rows, j), Centered(rows, k)) / (|rows| - 1) as real
  {
    var d := seq(n, j requires 0 <= j < n => Centered(rows, j));
    var denom := (|rows| - 1) as real;
    GramFacts(d, |rows|);
    seq(n, j requires 0 <= j < n =>
      seq(n, k requires 0 <= k < n => Dot(d[j], d[k]) / denom))
  }

  /** Row `j` of the sample matrix is `DotsWith(d_j, d) / (T - 1)` for the centred columns `d`. */
  lemma {:induction false} SampleRow(rows: Matrix, n: nat, d: seq<Vector>, j: nat)
    requires IsTable(rows, n) && |rows| >= 2 && j < n
    requires |d| == n && forall k :: 0 <= k < n ==> d[k] == Centered(rows, k)
    ensures SampleCovariance(rows, n)[j] == Scale(DotsWith(d[j], d), 1.0 / (|rows| - 1) as real)
  {
    var s := SampleCovariance(rows, n);
    var r := Scale(DotsWith(d[j], d), 1.0 / (|rows| - 1) as real);
    forall k | 0 <= k < n ensures s[j][k] == r[k] {
      assert s[j][k] == Dot(d[j], d[k]) / (|rows| - 1) as real;
    }
  }

  /** `(c * DotsWith(a, d)) . x == c * (a . sum_k x[k] * d_k)`. */
  lemma {:induction false} ScaledDotsTimes(a: Vector, d: seq<Vector>, x: Vector, c: real)
    requires |x| == |d| && forall k :: 0 <= k < |d| ==> |d[k]| == |a|
    ensures Dot(Scale(DotsWith(a, d), c), x) == Dot(Combine(d, x, |a|), a) * c
  {
    DotScaleLeft(DotsWith(a, d), c, x);
    DotCombine(a, d, x);
    DotSymmetric(a, Combine(d, x, |a|));
  }

  /** `S @ x` for the sample matrix `S` is `DotsWith(y, d) / (T - 1)` with `y = sum_k x[k] * d_k`. */
  lemma {:induction false} SampleTimes(rows: Matrix, n: nat, d: seq<Vector>, x: Vector)
    requires IsTable(rows, n) && |rows| >= 2 && |x| == n
    requires |d| == n && forall k :: 0 <= k < n ==> d[k] == Centered(rows, k)
    ensures MatVec(SampleCovariance(rows, n), x) == Scale(DotsWith(Combine(d, x, |rows|), d), 1.0 / (|rows| - 1) as real)
  {
    var s := SampleCovariance(rows, n);
    var dy := DotsWith(Combine(d, x, |rows|), d);
    forall j | 0 <= j < n ensures MatVec(s, x)[j] == Scale(dy, 1.0 / (|rows| - 1) as real)[j] {
      SampleRow(rows, n, d, j);
      ScaledDotsTimes(d[j], d, x, 1.0 / (|rows| - 1) as real);
    }
  }

  /** The sample matrix is positive semidefinite: `x @ S @ x` is the sum of
      squares of `y = sum_j x[j] * d_j`, the centred columns combined by `x`,
      divided by `T - 1`. */
  lemma {:induction false} SamplePositiveSemidefinite(rows: Matrix, n: nat, x: Vector)
    requires IsTable(rows, n) && |rows| >= 2 && |x| == n
    ensures 0.0 <= Quadratic(SampleCovariance(rows, n), x)
  {
    var d := seq(n, j requires 0 <= j < n => Centered(rows, j));
    var inv := 1.0 / (|rows| - 1) as real;
    var y := Combine(d, x, |rows|);
    var dy := DotsWith(y, d);
    SampleTimes(rows, n, d, x);
    DotScaleRight(x, dy, inv);
    DotSymmetric(x, dy);
    DotCombine(y, d, x);
    DotSelfNonNegative(y);
    MulNonNegative(inv, Dot(y, y));
  }

  // ================================================================
  // EWMA covariance.
  // ================================================================

  /** `lam * cov + (1 - lam) * np.outer(r, r)`. */
  function EwmaStep(c: Matrix, r: Vector, lam: real): (next: Matrix)
    requires IsSquare(c, |r|)
    ensures IsSquare(next, |r|)
    ensures IsSymmetric(c) ==> IsSymmetric(next)
  {
    EwmaStepSymmetric(c, r, lam);
    MatAdd(MatScale(c, lam), MatScale(Outer(r, r), 1.0 - lam))
  }

  lemma EwmaStepSymmetric(c: Matrix, r: Vector, lam: real)
    requires IsSquare(c, |r|)
    ensures IsSymmetric(c) ==> IsSymmetric(MatAdd(MatScale(c, lam), MatScale(Outer(r, r), 1.0 - lam)))
  {
    if IsSymmetric(c) {
      OuterSymmetric(r);
      ScaleSymmetric(c, lam);
      ScaleSymmetric(Outer(r, r), 1.0 - lam);
      AddSymmetric(MatScale(c, lam), MatScale(Outer(r, r), 1.0 - lam));
    }
  }

  /** The EWMA recursion folded over the rows in order, from the zero matrix. */
  function EwmaFold(rows: Matrix, n: nat, lam: real): (c: Matrix)
    requires IsTable(rows, n)
    ensures IsSquare(c, n) && IsSymmetric(c)
    decreases |rows|
  {
    if rows == [] then ZeroMatrix(n)
    else EwmaStep(EwmaFold(rows[..|rows| - 1], n, lam), rows[|rows| - 1], lam)
  }

  /** One more row is one more step applied to the fold so far. */
  lemma {:induction false} EwmaFoldAppend(rows: Matrix, r: Vector, n: nat, lam: real)
    requires IsTable(rows, n) && |r| == n
    ensures EwmaFold(rows + [r], n, lam) == EwmaStep(EwmaFold(rows, n, lam), r, lam)
  {
    assert (rows + [r])[..|rows|] == rows;
  }

  lemma {:induction false} EwmaFoldPrefix(rows: Matrix, t: nat, n: nat, lam: real)
    requires IsTable(rows, n) && t < |rows|
    ensures EwmaFold(rows[..t + 1], n, lam) == EwmaStep(EwmaFold(rows[..t], n, lam), rows[t], lam)
  {
    assert rows[..t + 1] == rows[..t] + [rows[t]];
    EwmaFoldAppend(rows[..t], rows[t], n, lam);
  }

  lemma {:induction false} EwmaStepDiagonal(c: Matrix, r: Vector, lam: real, i: nat)
    requires IsSquare(c, |r|) && i < |r|
    requires 0.0 <= lam <= 1.0 && 0.0 <= c[i][i]
    ensures 0.0 <= EwmaStep(c, r, lam)[i][i]
  {
    var next := EwmaStep(c, r, lam);
    assert next[i][i] == c[i][i] * lam + r[i] * r[i] * (1.0 - lam);
    MulNonNegative(c[i][i], lam);
    MulNonNegative(r[i] * r[i], 1.0 - lam);
  }

  /** With `0 <= lam <= 1` every EWMA variance is non-negative. */
  lemma {:induction false} EwmaDiagonalNonNegative(rows: Matrix, n: nat, lam: real)
    requires IsTable(rows, n) && 0.0 <= lam <= 1.0
    ensures forall i :: 0 <= i < n ==> 0.0 <= EwmaFold(rows, n, lam)[i][i]
    decreases |rows|
  {
    if rows != [] {
      var prefix := rows[..|rows| - 1];
      EwmaDiagonalNonNegative(prefix, n, lam);
      forall i | 0 <= i < n ensures 0.0 <= EwmaFold(rows, n, lam)[i][i] {
        EwmaStepDiagonal(EwmaFold(prefix, n, lam), rows[|rows| - 1], lam, i);
      }
    }
  }

  /** One EWMA step keeps `x @ C @ x` non-negative. */
  lemma {:induction false} EwmaStepQuadratic(c: Matrix, r: Vector, lam: real, x: Vector)
    requires IsSquare(c, |r|) && |x| == |r|
    requires 0.0 <= lam <= 1.0 && 0.0 <= Quadratic(c, x)
    ensures 0.0 <= Quadratic(EwmaStep(c, r, lam), x)
  {
    QuadraticAdd(MatScale(c, lam), MatScale(Outer(r, r), 1.0 - lam), x);
    QuadraticScale(c, lam, x);
    QuadraticScale(Outer(r, r), 1.0 - lam, x);
    QuadraticOuter(r, x);
    MulNonNegative(lam, Quadratic(c, x));
    MulNonNegative(1.0 - lam, Dot(r, x) * Dot(r, x));
  }

  /** With `0 <= lam <= 1` every EWMA iterate is positive semidefinite. */
  lemma {:induction false} EwmaPositiveSemidefinite(rows: Matrix, n: nat, lam: real, x: Vector)
    requires IsTable(rows, n) && |x| == n && 0.0 <= lam <= 1.0
    ensures 0.0 <= Quadratic(EwmaFold(rows, n, lam), x)
    decreases |rows|
  {
    if rows == [] {
      QuadraticZero(n, x);
    } else {
      var prefix := rows[..|rows| - 1];
      EwmaPositiveSemidefinite(prefix, n, lam, x);
      EwmaStepQuadratic(EwmaFold(prefix, n, lam), rows[|rows| - 1], lam, x);
    }
  }

  /** `ewma_covariance`: the loop over the rows, then the eigenvalue clipping. */
  method EwmaCovariance(rows: Matrix, n: nat, lam: real, num: Numerics) returns (cov: Matrix)
    requires IsTable(rows, n) && ValidNumerics(num)
    ensures cov == EnsurePsd(EwmaFold(rows, n, lam), num)
    ensures IsSquare(cov, n) && IsSymmetric(cov)
  {
    var c := ZeroMatrix(n);
    var t := 0;
    while t < |rows|
      invariant 0 <= t <= |rows|
      invariant c == EwmaFold(rows[..t], n, lam)
    {
      EwmaFoldPrefix(rows, t, n, lam);
      c := EwmaStep(c, rows[t], lam);
      t := t + 1;
    }
    assert rows[..|rows|] == rows;
    cov := EnsurePsd(c, num);
  }

  // ================================================================
  // Eigenvalue clipping.
  // ================================================================

  /** `0.5 * (m + m.T)`: symmetric, and a symmetric input is left as it is. */
  function Symmetrize(m: Matrix): (s: Matrix)
    requires IsSquare(m, |m|)
    ensures IsSquare(s, |m|) && IsSymmetric(s)
    ensures forall i, j :: 0 <= i < |m| && 0 <= j < |m| ==> s[i][j] == (m[i][j] + m[j][i]) / 2.0
    ensures IsSymmetric(m) ==> s == m
  {
    var s := MatScale(MatAdd(m, Transpose(m)), 0.5);
    if IsSymmetric(m) then
      SymmetrizeSymmetric(m, s);
      s
    else s
  }

  lemma {:induction false} SymmetrizeSymmetric(m: Matrix, s: Matrix)
    requires IsSquare(m, |m|) && IsSymmetric(m) && IsSquare(s, |m|)
    requires forall i, j :: 0 <= i < |m| && 0 <= j < |m| ==> s[i][j] == (m[i][j] + m[j][i]) * 0.5
    ensures s == m
  {
    forall i | 0 <= i < |m| ensures s[i] == m[i] {
      forall j | 0 <= j < |m| ensures s[i][j] == m[i][j] {
        assert m[i][j] == m[j][i];
      }
    }
  }

  /** `np.clip(values, eps, None)`. */
  function Clip(values: Vector, eps: real): (c: Vector)
    ensures |c| == |values|
    ensures forall k :: 0 <= k < |values| ==> eps <= c[k] && (eps <= values[k] ==> c[k] == values[k])
  {
    seq(|values|, k requires 0 <= k < |values| => Max(values[k], eps))
  }

  /** `V @ diag(c) @ V.T`, written as the sum over the columns `v_k` of `V`
      (the rows of `cols`) of `c[k] * outer(v_k, v_k)`. */
  function Reconstruct(cols: Matrix, c: Vector, n: nat): (r: Matrix)
    requires IsTable(cols, n) && |c| == |cols|
    ensures IsSquare(r, n) && IsSymmetric(r)
    decreases |cols|
  {
    if cols == [] then ZeroMatrix(n)
    else
      OuterSymmetric(cols[0]);
      ScaleSymmetric(Outer(cols[0], cols[0]), c[0]);
      AddSymmetric(MatScale(Outer(cols[0], cols[0]), c[0]), Reconstruct(cols[1..], c[1..], n));
      MatAdd(MatScale(Outer(cols[0], cols[0]), c[0]), Reconstruct(cols[1..], c[1..], n))
  }

  /** `sum_k c[k] * y[k] ** 2`. */
  function WeightedSquares(c: Vector, y: Vector): real
    requires |c| == |y|
  {
    if c == [] then 0.0 else c[0] * (y[0] * y[0]) + WeightedSquares(c[1..], y[1..])
  }

  lemma {:induction false} MatVecTail(cols: Matrix, x: Vector)
    requires IsTable(cols, |x|) && cols != []
    ensures MatVec(cols, x)[1..] == MatVec(cols[1..], x)
  {
  }

  /** `x @ (V diag(c) V.T) @ x == sum_k c[k] * (v_k . x) ** 2`. */
  lemma {:induction false} ReconstructQuadratic(cols: Matrix, c: Vector, x: Vector)
    requires IsTable(cols, |x|) && |c| == |cols|
    ensures Quadratic(Reconstruct(cols, c, |x|), x) == WeightedSquares(c, MatVec(cols, x))
    decreases |cols|
  {
    var n := |x|;
    if cols == [] {
      QuadraticZero(n, x);
    } else {
      var outer := Outer(cols[0], cols[0]);
      var rest := Reconstruct(cols[1..], c[1..], n);
      var y := MatVec(cols, x);
      QuadraticOuter(cols[0], x);
      calc {
        Quadratic(Reconstruct(cols, c, n), x);
        Quadratic(MatAdd(MatScale(outer, c[0]), rest), x);
        { QuadraticAdd(MatScale(outer, c[0]), rest, x); }
        Quadratic(MatScale(outer, c[0]), x) + Quadratic(rest, x);
        { QuadraticScale(outer, c[0], x); }
        c[0] * Quadratic(outer, x) + Quadratic(rest, x);
        { ReconstructQuadratic(cols[1..], c[1..], x); MatVecTail(cols, x); }
        c[0] * Quadratic(outer, x) + WeightedSquares(c[1..], y[1..]);
        { WeightedSquaresCons(c, y, Quadratic(outer, x)); }
        WeightedSquares(c, y);
      }
    }
  }

  /** Peels the first weighted square, given as `q`. */
  lemma WeightedSquaresCons(c: Vector, y: Vector, q: real)
    requires |c| == |y| && c != [] && y[0] * y[0] == q
    ensures WeightedSquares(c, y) == c[0] * q + WeightedSquares(c[1..], y[1..])
  {
  }

  /** Weights of at least `eps` give at least `eps` times the sum of squares. */
  lemma {:induction false} WeightedSquaresAtLeast(c: Vector, y: Vector, eps: real)
    requires |c| == |y|
    requires forall k :: 0 <= k < |c| ==> eps <= c[k]
    ensures eps * Dot(y, y) <= WeightedSquares(c, y)
  {
    if c != [] {
      WeightedSquaresAtLeast(c[1..], y[1..], eps);
      MulNonNegative(c[0] - eps, y[0] * y[0]);
    }
  }

  /** `ensure_psd`: symmetrise, decompose, clip the eigenvalues at `PsdEpsilon`, recompose. */
  function EnsurePsd(m: Matrix, num: Numerics): (p: Matrix)
    requires IsSquare(m, |m|) && ValidNumerics(num)
    ensures IsSquare(p, |m|) && IsSymmetric(p)
  {
    var e := num.eigh(Symmetrize(m));
    Reconstruct(Transpose(e.vectors), Clip(e.values, PsdEpsilon), |m|)
  }

  /** The clipped reconstruction bounds its quadratic form from below by
      `PsdEpsilon` times the squared length of `V.T @ x`; in particular it is
      positive semidefinite. */
  lemma {:induction false} EnsurePsdBound(m: Matrix, num: Numerics, x: Vector)
    requires IsSquare(m, |m|) && ValidNumerics(num) && |x| == |m|
    ensures var y := MatVec(Transpose(num.eigh(Symmetrize(m)).vectors), x);
      PsdEpsilon * Dot(y, y) <= Quadratic(EnsurePsd(m, num), x)
    ensures 0.0 <= Quadratic(EnsurePsd(m, num), x)
  {
    var e := num.eigh(Symmetrize(m));
    ClippedReconstructionBound(Transpose(e.vectors), e.values, x);
  }

  lemma {:induction false} ClippedReconstructionBound(cols: Matrix, values: Vector, x: Vector)
    requires IsTable(cols, |x|) && |values| == |cols|
    ensures var y := MatVec(cols, x);
      PsdEpsilon * Dot(y, y) <= Quadratic(Reconstruct(cols, Clip(values, PsdEpsilon), |x|), x)
    ensures 0.0 <= Quadratic(Reconstruct(cols, Clip(values, PsdEpsilon), |x|), x)
  {
    var c := Clip(values, PsdEpsilon);
    var y := MatVec(cols, x);
    ReconstructQuadratic(cols, c, x);
    WeightedSquaresAtLeast(c, y, PsdEpsilon);
    DotSelfNonNegative(y);
    MulNonNegative(PsdEpsilon, Dot(y, y));
  }

  /** The eigenvector matrix `V` is orthogonal: `V.T` preserves lengths. */
  ghost predicate PreservesLength(v: Matrix)
    requires IsSquare(v, |v|)
  {
    forall x :: |x| == |v| ==> Dot(MatVec(Transpose(v), x), MatVec(Transpose(v), x)) == Dot(x, x)
  }

  /** When `eigh` answers with orthonormal eigenvectors, every eigenvalue of the
      result is at least `PsdEpsilon`: `x @ P @ x >= PsdEpsilon * |x| ** 2`. */
  lemma {:induction false} EnsurePsdEigenvaluesAtLeastEpsilon(m: Matrix, num: Numerics, x: Vector)
    requires IsSquare(m, |m|) && ValidNumerics(num) && |x| == |m|
    requires PreservesLength(num.eigh(Symmetrize(m)).vectors)
    ensures PsdEpsilon * Dot(x, x) <= Quadratic(EnsurePsd(m, num), x)
  {
    EnsurePsdBound(m, num, x);
  }

  // ================================================================
  // Shrinkage.
  // ================================================================

  /** `np.diag(np.diag(m))`. */
  function DiagonalPrior(m: Matrix): (d: Matrix)
    requires IsSquare(m, |m|)
    ensures IsSquare(d, |m|)
    ensures forall i, j :: 0 <= i < |m| && 0 <= j < |m| ==> d[i][j] == if i == j then m[i][i] else 0.0
  {
    seq(|m|, i requires 0 <= i < |m| => seq(|m|, j requires 0 <= j < |m| => if i == j then m[i][i] else 0.0))
  }

  /** `(1 - shrinkage) * sample + shrinkage * prior`. */
  function Shrink(sample: Matrix, prior: Matrix, shrinkage: real): (c: Matrix)
    requires IsSquare(sample, |sample|) && IsSquare(prior, |sample|)
    ensures IsSquare(c, |sample|)
  {
    MatAdd(MatScale(sample, 1.0 - shrinkage), MatScale(prior, shrinkage))
  }

  /** Toward the diagonal prior the variances stay, every covariance is scaled
      by `1 - shrinkage`, and no shrinkage leaves the sample matrix. */
  lemma {:induction false} ShrinkTowardDiagonal(sample: Matrix, shrinkage: real)
    requires IsSquare(sample, |sample|)
    ensures var c := Shrink(sample, DiagonalPrior(sample), shrinkage);
      && (forall i :: 0 <= i < |sample| ==> c[i][i] == sample[i][i])
      && (forall i, j :: 0 <= i < |sample| && 0 <= j < |sample| && i != j ==> c[i][j] == (1.0 - shrinkage) * sample[i][j])
      && (shrinkage == 0.0 ==> c == sample)
  {
    var c := Shrink(sample, DiagonalPrior(sample), shrinkage);
    var n := |sample|;
    forall i, j | 0 <= i < n && 0 <= j < n
      ensures c[i][j] == if i == j then sample[i][j] else (1.0 - shrinkage) * sample[i][j]
    {
      assert c[i][j] == sample[i][j] * (1.0 - shrinkage) + DiagonalPrior(sample)[i][j] * shrinkage;
    }
    if shrinkage == 0.0 {
      forall i | 0 <= i < n ensures c[i] == sample[i] {
        assert forall j :: 0 <= j < n ==> c[i][j] == sample[i][j];
      }
    }
  }

  /** `shrinkage_covariance`, toward `prior` when one is given, else toward the diagonal of the sample. */
  function ShrinkageCovariance(rows: Matrix, n: nat, shrinkage: real, prior: Option<Matrix>, num: Numerics): (c: Matrix)
    requires IsTable(rows, n) && |rows| >= 2 && ValidNumerics(num)
    requires prior.Some? ==> IsSquare(prior.value, n)
    ensures IsSquare(c, n) && IsSymmetric(c)
  {
    var sample := SampleCovariance(rows, n);
    var p := if prior.None? then DiagonalPrior(sample) else prior.value;
    EnsurePsd(Shrink(sample, p, shrinkage), num)
  }

  // ================================================================
  // Choosing an estimator by name.
  // ================================================================

  /** `str.lower` on ASCII letters. */
  function LowerChar(ch: char): char
  {
    if 'A' <= ch <= 'Z' then (ch as int + 32) as char else ch
  }

  function Lower(s: string): (r: string)
    ensures |r| == |s| && forall i {:trigger r[i]} :: 0 <= i < |s| ==> r[i] == LowerChar(s[i])
  {
    seq(|s|, i requires 0 <= i < |s| => LowerChar(s[i]))
  }

  lemma {:induction false} LowerIdempotent(s: string)
    ensures Lower(Lower(s)) == Lower(s)
  {
    forall i | 0 <= i < |s| ensures Lower(Lower(s))[i] == Lower(s)[i] {
      assert LowerChar(LowerChar(s[i])) == LowerChar(s[i]);
    }
  }

  predicate KnownEstimator(name: string)
  {
    Lower(name) == "sample" || Lower(name) == "ewma" || Lower(name) == "shrinkage"
  }

  /** The sample and shrinkage estimators divide by `T - 1` and need two rows;
      the EWMA recursion is defined on any number of rows. */
  predicate EnoughRows(rows: nat, name: string)
  {
    2 <= rows || (Lower(name) != "sample" && Lower(name) != "shrinkage")
  }

  /** `get_covariance` with the estimators' defaults: the sample matrix (not
      clipped), EWMA at decay `lam`, or 10% shrinkage toward the diagonal. */
  function GetCovariance(rows: Matrix, n: nat, name: string, lam: real, num: Numerics): (r: Result<Matrix, string>)
    requires IsTable(rows, n) && EnoughRows(|rows|, name) && ValidNumerics(num)
    ensures r.Failure? <==> !KnownEstimator(name)
    ensures r.Failure? ==> r.error == "Unknown covariance estimator: " + Lower(name)
    ensures r.Success? ==> IsSquare(r.value, n) && IsSymmetric(r.value)
    ensures Lower(name) == "sample" ==> r == Success(SampleCovariance(rows, n))
    ensures Lower(name) == "ewma" ==> r == Success(EnsurePsd(EwmaFold(rows, n, lam), num))
    ensures Lower(name) == "shrinkage" ==> r == Success(ShrinkageCovariance(rows, n, DefaultShrinkage, None, num))
  {
    var m := Lower(name);
    if m == "sample" then Success(SampleCovariance(rows, n))
    else if m == "ewma" then Success(EnsurePsd(EwmaFold(rows, n, lam), num))
    else if m == "shrinkage" then Success(ShrinkageCovariance(rows, n, DefaultShrinkage, None, num))
    else Failure("Unknown covariance estimator: " + m)
  }

  /** Names differing only in letter case pick the same estimator. */
  lemma {:induction false} GetCovarianceCaseInsensitive(rows: Matrix, n: nat, name: string, lam: real, num: Numerics)
    requires IsTable(rows, n) && EnoughRows(|rows|, name) && ValidNumerics(num)
    ensures EnoughRows(|rows|, Lower(name))
    ensures GetCovariance(rows, n, Lower(name), lam, num) == GetCovariance(rows, n, name, lam, num)
  {
    LowerIdempotent(name);
  }

  /** Every matrix `get_covariance` answers with is positive semidefinite:
      the sample matrix as it is, the EWMA and shrinkage matrices through the
      eigenvalue clipping. */
  lemma {:induction false} GetCovariancePositiveSemidefinite(rows: Matrix, n: nat, name: string, lam: real, num: Numerics, x: Vector)
    requires IsTable(rows, n) && EnoughRows(|rows|, name) && ValidNumerics(num) && |x| == n
    requires KnownEstimator(name)
    ensures 0.0 <= Quadratic(GetCovariance(rows, n, name, lam, num).value, x)
  {
    if Lower(name) == "sample" {
      SamplePositiveSemidefinite(rows, n, x);
    } else if Lower(name) == "ewma" {
      EnsurePsdBound(EwmaFold(rows, n, lam), num, x);
    } else {
      var sample := SampleCovariance(rows, n);
      EnsurePsdBound(Shrink(sample, DiagonalPrior(sample), DefaultShrinkage), num, x);
    }
  }
}
