/** The numpy values the ensembles work on: real matrices given by their
    rows, real vectors, and the indexing and elementwise operations the
    ensembles apply to them. */
module Linalg {

  /** A matrix, row by row, with its column count (which a matrix without
      rows still has). */
  datatype Grid = Grid(rows: seq<seq<real>>, cols: nat)
  {
    predicate Rectangular() { forall r :: 0 <= r < |rows| ==> |rows[r]| == cols }
  }

  /** `X.shape == (|X.rows|, X.cols)`. */
  type Matrix = g: Grid | g.Rectangular() witness Grid([], 0)

  /** Every entry of `idx` is a valid position below `bound`. */
  predicate InRange(idx: seq<nat>, bound: nat)
  {
    forall j :: 0 <= j < |idx| ==> idx[j] < bound
  }

  predicate AllInRange(indices: seq<seq<nat>>, bound: nat)
  {
    forall t :: 0 <= t < |indices| ==> InRange(indices[t], bound)
  }

  /** `row[feat]`: the entries of one row at the given columns, in order. */
  function Restrict(row: seq<real>, feat: seq<nat>): seq<real>
    requires InRange(feat, |row|)
  {
    seq(|feat|, j requires 0 <= j < |feat| => row[feat[j]])
  }

  /** `X[:, feat]`: every row, restricted to the columns `feat`. */
  function Columns(X: Matrix, feat: seq<nat>): (M: Matrix)
    requires InRange(feat, X.cols)
    ensures |M.rows| == |X.rows| && M.cols == |feat|
  {
    Grid(seq(|X.rows|, r requires 0 <= r < |X.rows| => Restrict(X.rows[r], feat)), |feat|)
  }

  /** `X[obj]`: the rows at positions `obj`, repetitions included. */
  function Rows(X: Matrix, obj: seq<nat>): (M: Matrix)
    requires InRange(obj, |X.rows|)
    ensures |M.rows| == |obj| && M.cols == X.cols
  {
    Grid(seq(|obj|, j requires 0 <= j < |obj| => X.rows[obj[j]]), X.cols)
  }

  /** `v[idx]` for a vector. */
  function Gather(v: seq<real>, idx: seq<nat>): seq<real>
    requires InRange(idx, |v|)
  {
    seq(|idx|, j requires 0 <= j < |idx| => v[idx[j]])
  }

  /** `np.zeros(n)`. */
  function Zeros(n: nat): seq<real>
  {
    seq(n, _ => 0.0)
  }

  /** `u + v`. */
  function Add(u: seq<real>, v: seq<real>): seq<real>
    requires |u| == |v|
  {
    seq(|u|, i requires 0 <= i < |u| => u[i] + v[i])
  }

  /** `u + c * v`. */
  function AddScaled(u: seq<real>, c: real, v: seq<real>): seq<real>
    requires |u| == |v|
  {
    seq(|u|, i requires 0 <= i < |u| => u[i] + c * v[i])
  }

  /** `v / c`. */
  function DivideBy(v: seq<real>, c: real): seq<real>
    requires c != 0.0
  {
    seq(|v|, i requires 0 <= i < |v| => v[i] / c)
  }
}
