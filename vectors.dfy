/** Dense real vectors and matrices, the values numpy arrays hold in the engine.
    Every number is a `real`: floating-point rounding is not modelled. */
module Vectors {

  type Vector = seq<real>
  type Matrix = seq<seq<real>>

  /** Tolerance `project_to_simplex` accepts for "already sums to one". */
  const SimplexTol: real := 0.00000001

  function Abs(x: real): real { if x < 0.0 then -x else x }
  function Max(a: real, b: real): real { if a < b then b else a }
  function Min(a: real, b: real): real { if a < b then a else b }

  /** Sign facts about a product of reals, stated once for the non-linear steps. */
  lemma MulNonNegative(a: real, b: real)
    requires 0.0 <= a && 0.0 <= b
    ensures 0.0 <= a * b
  {
  }

  lemma MulPositive(a: real, b: real)
    requires 0.0 < a && 0.0 < b
    ensures 0.0 < a * b
  {
  }

  // ---------------------------------------------------------------- sums

  /** `np.sum`. */
  function Sum(v: Vector): real
  {
    if v == [] then 0.0 else v[0] + Sum(v[1..])
  }

  lemma {:induction false} SumAppend(a: Vector, b: Vector)
    ensures Sum(a + b) == Sum(a) + Sum(b)
  {
    if a == [] {
      assert a + b == b;
    } else {
      assert (a + b)[1..] == a[1..] + b;
      SumAppend(a[1..], b);
    }
  }

  lemma {:induction false} SumNonNegative(v: Vector)
    requires forall i :: 0 <= i < |v| ==> 0.0 <= v[i]
    ensures 0.0 <= Sum(v)
  {
    if v != [] {
      SumNonNegative(v[1..]);
    }
  }

  /** Termwise comparison carries over to the sums. */
  lemma {:induction false} SumMonotone(a: Vector, b: Vector)
    requires |a| == |b|
    requires forall i :: 0 <= i < |a| ==> a[i] <= b[i]
    ensures Sum(a) <= Sum(b)
  {
    if a != [] {
      SumMonotone(a[1..], b[1..]);
    }
  }

  /** A vector whose every entry is `c` sums to `|v| * c`. */
  lemma {:induction false} SumConstant(v: Vector, c: real)
    requires forall i :: 0 <= i < |v| ==> v[i] == c
    ensures Sum(v) == |v| as real * c
  {
    if v != [] {
      SumConstant(v[1..], c);
    }
  }

  /** `np.zeros(n)`. */
  function Zeros(n: nat): (z: Vector)
    ensures |z| == n && forall i :: 0 <= i < n ==> z[i] == 0.0
  {
    seq(n, _ => 0.0)
  }

  /** `v * c` for a scalar `c`. */
  function Scale(v: Vector, c: real): (r: Vector)
    ensures |r| == |v| && forall i {:trigger r[i]} :: 0 <= i < |v| ==> r[i] == v[i] * c
  {
    seq(|v|, i requires 0 <= i < |v| => v[i] * c)
  }

  lemma ScaleTail(v: Vector, c: real)
    requires v != []
    ensures Scale(v, c)[1..] == Scale(v[1..], c)
  {
    forall i | 0 <= i < |v| - 1 ensures Scale(v, c)[1..][i] == Scale(v[1..], c)[i] {
      assert Scale(v, c)[i + 1] == v[i + 1] * c;
    }
  }

  lemma {:induction false} SumScale(v: Vector, c: real)
    ensures Sum(Scale(v, c)) == Sum(v) * c
  {
    if v != [] {
      ScaleTail(v, c);
      SumScale(v[1..], c);
    }
  }

  /** `a + b`, entrywise. */
  function Add(a: Vector, b: Vector): (r: Vector)
    requires |a| == |b|
    ensures |r| == |a| && forall i {:trigger r[i]} :: 0 <= i < |a| ==> r[i] == a[i] + b[i]
  {
    seq(|a|, i requires 0 <= i < |a| => a[i] + b[i])
  }

  /** `np.mean`; pandas and numpy answer NaN on an empty series, the model answers 0. */
  function Mean(v: Vector): real
  {
    if v == [] then 0.0 else Sum(v) / |v| as real
  }

  /** A mean never exceeds a bound that every entry respects. */
  lemma MeanAtMost(v: Vector, bound: real)
    requires v != []
    requires forall i :: 0 <= i < |v| ==> v[i] <= bound
    ensures Mean(v) <= bound
  {
    SumMonotone(v, seq(|v|, _ => bound));
    SumConstant(seq(|v|, _ => bound), bound);
    assert Sum(v) <= |v| as real * bound;
    MeanBound(Sum(v), |v| as real, bound);
  }

  lemma MeanBound(s: real, n: real, bound: real)
    requires 0.0 < n && s <= n * bound
    ensures s / n <= bound
  {
    var q := s / n;
    assert q * n == s;
    assert (q - bound) * n <= 0.0;
  }

  // ---------------------------------------------------------------- products

  /** `a.dot(b)`. */
  function Dot(a: Vector, b: Vector): real
    requires |a| == |b|
  {
    if a == [] then 0.0 else a[0] * b[0] + Dot(a[1..], b[1..])
  }

  lemma {:induction false} DotZerosLeft(b: Vector)
    ensures Dot(Zeros(|b|), b) == 0.0
  {
    if b != [] {
      assert Zeros(|b|)[1..] == Zeros(|b| - 1);
      DotZerosLeft(b[1..]);
    }
  }

  lemma {:induction false} DotSymmetric(a: Vector, b: Vector)
    requires |a| == |b|
    ensures Dot(a, b) == Dot(b, a)
  {
    if a != [] {
      DotSymmetric(a[1..], b[1..]);
    }
  }

  lemma {:induction false} DotAddLeft(a: Vector, b: Vector, x: Vector)
    requires |a| == |b| == |x|
    ensures Dot(Add(a, b), x) == Dot(a, x) + Dot(b, x)
  {
    if a != [] {
      assert Add(a, b)[1..] == Add(a[1..], b[1..]);
      DotAddLeft(a[1..], b[1..], x[1..]);
    }
  }

  lemma {:induction false} DotAddRight(x: Vector, a: Vector, b: Vector)
    requires |a| == |b| == |x|
    ensures Dot(x, Add(a, b)) == Dot(x, a) + Dot(x, b)
  {
    DotSymmetric(x, Add(a, b));
    DotSymmetric(x, a);
    DotSymmetric(x, b);
    DotAddLeft(a, b, x);
  }

  lemma {:induction false} DotScaleLeft(a: Vector, c: real, x: Vector)
    requires |a| == |x|
    ensures Dot(Scale(a, c), x) == c * Dot(a, x)
  {
    if a != [] {
      ScaleTail(a, c);
      DotScaleLeft(a[1..], c, x[1..]);
    }
  }

  lemma {:induction false} DotScaleRight(x: Vector, a: Vector, c: real)
    requires |a| == |x|
    ensures Dot(x, Scale(a, c)) == c * Dot(x, a)
  {
    DotSymmetric(x, Scale(a, c));
    DotSymmetric(x, a);
    DotScaleLeft(a, c, x);
  }

  /** A sum of squares is never negative. */
  lemma {:induction false} DotSelfNonNegative(a: Vector)
    ensures 0.0 <= Dot(a, a)
  {
    if a != [] {
      DotSelfNonNegative(a[1..]);
    }
  }

  /** `np.abs(a - b).sum()`, the turnover between two weight vectors. */
  function L1Distance(a: Vector, b: Vector): (d: real)
    requires |a| == |b|
    ensures 0.0 <= d
    ensures a == b ==> d == 0.0
  {
    if a == [] then 0.0 else Abs(a[0] - b[0]) + L1Distance(a[1..], b[1..])
  }

  /** The turnover between two weight vectors is zero only when they are equal. */
  lemma {:induction false} L1Separates(a: Vector, b: Vector)
    requires |a| == |b|
    ensures L1Distance(a, b) == 0.0 <==> a == b
  {
    if a != [] {
      L1Separates(a[1..], b[1..]);
      if L1Distance(a, b) == 0.0 {
        assert a == [a[0]] + a[1..] && b == [b[0]] + b[1..];
      }
    }
  }

  /** Leaving cash (all-zero weights) for a long-only vector trades its whole sum. */
  lemma {:induction false} L1FromZeros(a: Vector)
    requires forall i :: 0 <= i < |a| ==> 0.0 <= a[i]
    ensures L1Distance(a, Zeros(|a|)) == Sum(a)
  {
    if a != [] {
      assert Zeros(|a|)[1..] == Zeros(|a| - 1);
      L1FromZeros(a[1..]);
    }
  }

  /** The probability simplex, with the tolerance on the sum that `project_to_simplex` accepts. */
  predicate OnSimplex(w: Vector)
  {
    (forall i :: 0 <= i < |w| ==> 0.0 <= w[i]) && Abs(Sum(w) - 1.0) < SimplexTol
  }

  // ---------------------------------------------------------------- matrices

  /** Every row has `cols` entries. */
  predicate IsTable(m: Matrix, cols: nat)
  {
    forall r :: 0 <= r < |m| ==> |m[r]| == cols
  }

  predicate IsSquare(m: Matrix, n: nat)
  {
    |m| == n && IsTable(m, n)
  }

  predicate IsSymmetric(m: Matrix)
    requires IsSquare(m, |m|)
  {
    forall i, j :: 0 <= i < |m| && 0 <= j < |m| ==> m[i][j] == m[j][i]
  }

  /** `m.T` of a square matrix. */
  function Transpose(m: Matrix): (t: Matrix)
    requires IsSquare(m, |m|)
    ensures IsSquare(t, |m|)
    ensures forall i, j {:trigger t[i][j]} :: 0 <= i < |m| && 0 <= j < |m| ==> t[i][j] == m[j][i]
  {
    seq(|m|, i requires 0 <= i < |m| => seq(|m|, j requires 0 <= j < |m| => m[j][i]))
  }

  /** `np.zeros((n, n))`. */
  function ZeroMatrix(n: nat): (z: Matrix)
    ensures IsSquare(z, n)
    ensures forall i, j :: 0 <= i < n && 0 <= j < n ==> z[i][j] == 0.0
  {
    seq(n, _ => Zeros(n))
  }

  /** `m @ w`. */
  function MatVec(m: Matrix, w: Vector): (r: Vector)
    requires IsTable(m, |w|)
    ensures |r| == |m| && forall i {:trigger r[i]} :: 0 <= i < |m| ==> r[i] == Dot(m[i], w)
  {
    seq(|m|, i requires 0 <= i < |m| => Dot(m[i], w))
  }

  /** `w @ m @ w`, the portfolio variance for a covariance `m`. */
  function Quadratic(m: Matrix, w: Vector): real
    requires IsSquare(m, |w|)
  {
    Dot(w, MatVec(m, w))
  }

  /** Column `j` of a table of rows. */
  function Column(rows: Matrix, j: nat): (c: Vector)
    requires forall r :: 0 <= r < |rows| ==> j < |rows[r]|
    ensures |c| == |rows| && forall t {:trigger c[t]} :: 0 <= t < |rows| ==> c[t] == rows[t][j]
  {
    seq(|rows|, t requires 0 <= t < |rows| => rows[t][j])
  }

  /** `returns.mean().values`: the arithmetic mean of every column. */
  function ColumnMeans(rows: Matrix, n: nat): (mu: Vector)
    requires IsTable(rows, n)
    ensures |mu| == n && forall j :: 0 <= j < n ==> mu[j] == Mean(Column(rows, j))
  {
    seq(n, j requires 0 <= j < n => Mean(Column(rows, j)))
  }
}
