/** Square-matrix algebra used by the covariance estimators: entrywise sums and
    scalings, outer products, and the linearity of the quadratic form `x @ m @ x`
    that the positive-semidefiniteness arguments rest on. */
module Matrices {
  import opened Vectors

  /** `a + b` for two n-by-n matrices. */
  function MatAdd(a: Matrix, b: Matrix): (r: Matrix)
    requires IsSquare(a, |a|) && IsSquare(b, |a|)
    ensures IsSquare(r, |a|)
    ensures forall i, j {:trigger r[i][j]} :: 0 <= i < |a| && 0 <= j < |a| ==> r[i][j] == a[i][j] + b[i][j]
  {
    seq(|a|, i requires 0 <= i < |a| => Add(a[i], b[i]))
  }

  /** `c * a` for a scalar `c`. */
  function MatScale(a: Matrix, c: real): (r: Matrix)
    requires IsSquare(a, |a|)
    ensures IsSquare(r, |a|)
    ensures forall i, j {:trigger r[i][j]} :: 0 <= i < |a| && 0 <= j < |a| ==> r[i][j] == a[i][j] * c
  {
    seq(|a|, i requires 0 <= i < |a| => Scale(a[i], c))
  }

  /** `np.outer(u, v)`. */
  function Outer(u: Vector, v: Vector): (r: Matrix)
    ensures |r| == |u| && IsTable(r, |v|)
    ensures forall i {:trigger r[i]} :: 0 <= i < |u| ==> r[i] == Scale(v, u[i])
  {
    seq(|u|, i requires 0 <= i < |u| => Scale(v, u[i]))
  }

  /** An outer product of a vector with itself is symmetric. */
  lemma OuterSymmetric(v: Vector)
    ensures IsSquare(Outer(v, v), |v|) && IsSymmetric(Outer(v, v))
  {
    var o := Outer(v, v);
    forall i, j | 0 <= i < |v| && 0 <= j < |v| ensures o[i][j] == o[j][i] {
      assert o[i][j] == v[j] * v[i];
      assert o[j][i] == v[i] * v[j];
    }
  }

  /** A scaled symmetric matrix is symmetric. */
  lemma ScaleSymmetric(a: Matrix, c: real)
    requires IsSquare(a, |a|) && IsSymmetric(a)
    ensures IsSymmetric(MatScale(a, c))
  {
    var m := MatScale(a, c);
    forall i, j | 0 <= i < |a| && 0 <= j < |a| ensures m[i][j] == m[j][i] {
      assert m[i][j] == a[i][j] * c && m[j][i] == a[j][i] * c;
    }
  }

  /** The sum of two symmetric matrices is symmetric. */
  lemma AddSymmetric(a: Matrix, b: Matrix)
    requires IsSquare(a, |a|) && IsSquare(b, |a|) && IsSymmetric(a) && IsSymmetric(b)
    ensures IsSymmetric(MatAdd(a, b))
  {
    var m := MatAdd(a, b);
    forall i, j | 0 <= i < |a| && 0 <= j < |a| ensures m[i][j] == m[j][i] {
      assert m[i][j] == a[i][j] + b[i][j] && m[j][i] == a[j][i] + b[j][i];
    }
  }

  /** `x @ m @ x >= 0` for every `x`. */
  ghost predicate PositiveSemidefinite(m: Matrix)
    requires IsSquare(m, |m|)
  {
    forall x :: |x| == |m| ==> 0.0 <= Quadratic(m, x)
  }

  lemma {:induction false} QuadraticZero(n: nat, x: Vector)
    requires |x| == n
    ensures Quadratic(ZeroMatrix(n), x) == 0.0
  {
    var z := ZeroMatrix(n);
    forall i | 0 <= i < n ensures MatVec(z, x)[i] == 0.0 {
      assert z[i] == Zeros(n);
      DotZerosLeft(x);
    }
    assert MatVec(z, x) == Zeros(n);
    DotSymmetric(x, Zeros(n));
    DotZerosLeft(x);
  }

  /** The quadratic form is additive in the matrix. */
  lemma {:induction false} QuadraticAdd(a: Matrix, b: Matrix, x: Vector)
    requires IsSquare(a, |x|) && IsSquare(b, |x|)
    ensures Quadratic(MatAdd(a, b), x) == Quadratic(a, x) + Quadratic(b, x)
  {
    var s := MatAdd(a, b);
    forall i | 0 <= i < |x| ensures MatVec(s, x)[i] == Add(MatVec(a, x), MatVec(b, x))[i] {
      assert s[i] == Add(a[i], b[i]);
      DotAddLeft(a[i], b[i], x);
    }
    assert MatVec(s, x) == Add(MatVec(a, x), MatVec(b, x));
    DotAddRight(x, MatVec(a, x), MatVec(b, x));
  }

  /** The quadratic form is homogeneous in the matrix. */
  lemma {:induction false} QuadraticScale(a: Matrix, c: real, x: Vector)
    requires IsSquare(a, |x|)
    ensures Quadratic(MatScale(a, c), x) == c * Quadratic(a, x)
  {
    var s := MatScale(a, c);
    forall i | 0 <= i < |x| ensures MatVec(s, x)[i] == Scale(MatVec(a, x), c)[i] {
      assert s[i] == Scale(a[i], c);
      DotScaleLeft(a[i], c, x);
    }
    assert MatVec(s, x) == Scale(MatVec(a, x), c);
    DotScaleRight(x, MatVec(a, x), c);
  }

  /** `x @ outer(v, v) @ x == (v . x) ** 2`. */
  lemma {:induction false} QuadraticOuter(v: Vector, x: Vector)
    requires |v| == |x|
    ensures Quadratic(Outer(v, v), x) == Dot(v, x) * Dot(v, x)
  {
    MatVecOuter(v, v, x);
    DotScaleRight(x, v, Dot(v, x));
    DotSymmetric(x, v);
  }

  /** `outer(u, v) @ x == u * (v . x)`. */
  lemma {:induction false} MatVecOuter(u: Vector, v: Vector, x: Vector)
    requires |v| == |x|
    ensures MatVec(Outer(u, v), x) == Scale(u, Dot(v, x))
  {
    var mv := MatVec(Outer(u, v), x);
    var sv := Scale(u, Dot(v, x));
    forall i | 0 <= i < |u| ensures mv[i] == sv[i] {
      OuterRowTimes(u, v, x, i);
    }
  }

  lemma {:induction false} OuterRowTimes(u: Vector, v: Vector, x: Vector, i: nat)
    requires |v| == |x| && i < |u|
    ensures Dot(Outer(u, v)[i], x) == u[i] * Dot(v, x)
  {
    assert Outer(u, v)[i] == Scale(v, u[i]);
    DotScaleLeft(v, u[i], x);
  }

  // ---------------------------------------------------------------- combinations of rows

  /** `sum_k x[k] * d[k]` for vectors `d[k]` of length `len`. */
  function Combine(d: seq<Vector>, x: Vector, len: nat): (y: Vector)
    requires |x| == |d| && forall k :: 0 <= k < |d| ==> |d[k]| == len
    ensures |y| == len
    decreases |d|
  {
    if d == [] then Zeros(len) else Add(Scale(d[0], x[0]), Combine(d[1..], x[1..], len))
  }

  /** The dot products of `a` with each of the vectors `d`. */
  function DotsWith(a: Vector, d: seq<Vector>): (r: Vector)
    requires forall k :: 0 <= k < |d| ==> |d[k]| == |a|
    ensures |r| == |d| && forall k {:trigger r[k]} :: 0 <= k < |d| ==> r[k] == Dot(a, d[k])
  {
    seq(|d|, k requires 0 <= k < |d| => Dot(a, d[k]))
  }

  /** `sum_k x[k] * (a . d[k]) == a . (sum_k x[k] * d[k])`. */
  lemma {:induction false} DotCombine(a: Vector, d: seq<Vector>, x: Vector)
    requires |x| == |d| && forall k :: 0 <= k < |d| ==> |d[k]| == |a|
    ensures Dot(DotsWith(a, d), x) == Dot(a, Combine(d, x, |a|))
    decreases |d|
  {
    if d == [] {
      DotSymmetric(a, Zeros(|a|));
      DotZerosLeft(a);
    } else {
      var rest := Combine(d[1..], x[1..], |a|);
      var dots := DotsWith(a, d);
      assert dots[1..] == DotsWith(a, d[1..]);
      assert Dot(dots, x) == Dot(a, d[0]) * x[0] + Dot(dots[1..], x[1..]);
      assert Combine(d, x, |a|) == Add(Scale(d[0], x[0]), rest);
      DotCombine(a, d[1..], x[1..]);
      DotAddRight(a, Scale(d[0], x[0]), rest);
      DotScaleRight(a, d[0], x[0]);
    }
  }

  /** Entry `j` of `sum_k x[k] * d[k]` is column `j` of the `d[k]` dotted with `x`. */
  lemma {:induction false} CombineEntry(d: seq<Vector>, x: Vector, len: nat, j: nat)
    requires |x| == |d| && forall k :: 0 <= k < |d| ==> |d[k]| == len
    requires j < len
    ensures Combine(d, x, len)[j] == Dot(Column(d, j), x)
    decreases |d|
  {
    if d != [] {
      CombineEntry(d[1..], x[1..], len, j);
      assert Column(d, j)[1..] == Column(d[1..], j);
    }
  }

  /** Combining the rows of a symmetric matrix by `u` is multiplying the matrix by `u`. */
  lemma {:induction false} CombineSymmetric(m: Matrix, u: Vector)
    requires IsSquare(m, |u|) && IsSymmetric(m)
    ensures Combine(m, u, |u|) == MatVec(m, u)
  {
    forall j | 0 <= j < |u| ensures Combine(m, u, |u|)[j] == MatVec(m, u)[j] {
      CombineEntry(m, u, |u|, j);
      assert Column(m, j) == m[j];
    }
  }

  /** `u @ m @ v == v @ m @ u` for a symmetric `m`. */
  lemma {:induction false} BilinearSymmetric(m: Matrix, u: Vector, v: Vector)
    requires IsSquare(m, |u|) && IsSymmetric(m) && |v| == |u|
    ensures Dot(u, MatVec(m, v)) == Dot(v, MatVec(m, u))
  {
    assert MatVec(m, v) == DotsWith(v, m) by {
      forall i | 0 <= i < |m| ensures MatVec(m, v)[i] == DotsWith(v, m)[i] {
        DotSymmetric(m[i], v);
      }
    }
    DotSymmetric(u, MatVec(m, v));
    DotCombine(v, m, u);
    CombineSymmetric(m, u);
  }

  /** `m @ (a + b) == m @ a + m @ b`. */
  lemma {:induction false} MatVecAdd(m: Matrix, a: Vector, b: Vector)
    requires IsTable(m, |a|) && |b| == |a|
    ensures MatVec(m, Add(a, b)) == Add(MatVec(m, a), MatVec(m, b))
  {
    forall i | 0 <= i < |m| ensures MatVec(m, Add(a, b))[i] == Add(MatVec(m, a), MatVec(m, b))[i] {
      DotAddRight(m[i], a, b);
    }
  }

  /** `(w + h) @ m @ (w + h) == w @ m @ w + 2 (m @ w) . h + h @ m @ h` for a symmetric `m`. */
  lemma {:induction false} QuadraticExpand(m: Matrix, w: Vector, h: Vector)
    requires IsSquare(m, |w|) && IsSymmetric(m) && |h| == |w|
    ensures Quadratic(m, Add(w, h)) == Quadratic(m, w) + 2.0 * Dot(MatVec(m, w), h) + Quadratic(m, h)
  {
    var mw := MatVec(m, w);
    var mh := MatVec(m, h);
    MatVecAdd(m, w, h);
    DotAddLeft(w, h, Add(mw, mh));
    DotAddRight(w, mw, mh);
    DotAddRight(h, mw, mh);
    BilinearSymmetric(m, w, h);
    DotSymmetric(h, mw);
  }
}
