/** The contract assumed of the foreign symmetric tridiagonal eigensolver
    (`scipy.linalg.eigh_tridiagonal`). Only the shape and the ascending order of its result
    are assumed; orthonormality and the eigen-equation are not. */
module Eigensolver {

  /** The solver's result: eigenvalues `w` and the eigenvector matrix `v`, stored row by
      row, whose column k belongs to `w[k]`. */
  datatype Eigh = Eigh(w: seq<real>, v: seq<seq<real>>)

  predicate Ascending(w: seq<real>)
  {
    forall i, j :: 0 <= i <= j < |w| ==> w[i] <= w[j]
  }

  /** v is an m-by-m matrix. */
  predicate IsSquare(v: seq<seq<real>>, m: nat)
  {
    |v| == m && forall r :: 0 <= r < m ==> |v[r]| == m
  }

  /** For a diagonal d and an off-diagonal e one shorter, the solver returns |d|
      eigenvalues in ascending order and a |d|-by-|d| eigenvector matrix. */
  predicate SolverContract(d: seq<real>, e: seq<real>, r: Eigh)
  {
    |e| + 1 == |d| ==> |r.w| == |d| && Ascending(r.w) && IsSquare(r.v, |d|)
  }

  /** Every solver the model may be given. Being a function, a solver is deterministic:
      the same entries always give the same spectrum. */
  type Solver = f: (seq<real>, seq<real>) -> Eigh | forall d, e :: SolverContract(d, e, f(d, e))
    witness (d: seq<real>, e: seq<real>) => Eigh(seq(|d|, _ => 0.0), seq(|d|, _ => seq(|d|, _ => 0.0)))
}
