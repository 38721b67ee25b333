/** The non-algebraic numerical primitives the engine calls: `np.sqrt`, the
    fractional power `**`, `np.linalg.eigh` and SciPy's SLSQP solver. The model
    does not compute them; a run is given them as function values, and only the
    contracts in `ValidNumerics` are assumed of them. */
module Numerics {
  import opened Vectors

  /** What `np.linalg.eigh` returns: eigenvalues and a matrix whose COLUMNS are the eigenvectors. */
  datatype Eigen = Eigen(values: Vector, vectors: Matrix)

  /** The two objectives handed to the constrained solver (with their gradients, see Allocations). */
  datatype Objective =
    | PortfolioVariance(cov: Matrix)
    | MeanVarianceUtility(mu: Vector, cov: Matrix, gamma: real)

  /** One SLSQP call: minimise `objective` from `start` subject to
      `sum(w) == 1` and `0 <= w[i] <= 1`. */
  datatype Problem = Problem(objective: Objective, start: Vector)

  datatype Numerics = Numerics(
    sqrt: real -> real,
    pow: (real, real) -> real,
    eigh: Matrix -> Eigen,
    slsqp: Problem -> Vector)

  /** The only facts the model relies on: the square root of zero is zero, of
      a non-negative number non-negative, and of a positive number positive;
      `eigh` answers with an n-vector and an n-by-n matrix for an n-by-n input;
      and the solver answers with a vector as long as its start point. */
  ghost predicate ValidNumerics(num: Numerics)
  {
    && num.sqrt(0.0) == 0.0
    && (forall x :: 0.0 <= x ==> 0.0 <= num.sqrt(x) && (0.0 < x ==> 0.0 < num.sqrt(x)))
    && (forall m :: IsSquare(m, |m|) ==>
          |num.eigh(m).values| == |m| && IsSquare(num.eigh(m).vectors, |m|))
    && (forall p :: |num.slsqp(p)| == |p.start|)
  }

  /** Population variance (`np.var`, ddof 0): the mean squared deviation from the mean. */
  function Variance(v: Vector): (r: real)
    ensures 0.0 <= r
  {
    if v == [] then 0.0
    else
      var m := Mean(v);
      var d := seq(|v|, i requires 0 <= i < |v| => v[i] - m);
      DotSelfNonNegative(d);
      Dot(d, d) / |v| as real
  }

  /** A series of one value does not deviate from its mean. */
  lemma VarianceOfOne(v: Vector)
    requires |v| == 1
    ensures Variance(v) == 0.0
  {
    assert v[1..] == [];
    assert Sum(v) == v[0] + Sum(v[1..]) == v[0];
    assert Mean(v) == Sum(v) / 1.0 == v[0];
    var d := seq(|v|, i requires 0 <= i < |v| => v[i] - Mean(v));
    assert d[0] == 0.0 && d[1..] == [];
    assert Dot(d, d) == d[0] * d[0] + Dot(d[1..], d[1..]) == 0.0;
  }

  /** `np.std`; numpy answers NaN on an empty series, the model answers 0. */
  function Std(v: Vector, num: Numerics): (s: real)
    ensures ValidNumerics(num) ==> 0.0 <= s
  {
    if v == [] then 0.0 else num.sqrt(Variance(v))
  }
}
