/** Vectors and two-dimensional grids of reals: the numpy arrays of the
    source, with numpy's outer-product broadcasting written out entrywise. */
module Grids {

  /** A one-dimensional array (indexed by wavenumber or by redshift). */
  type Vec = seq<real>

  /** A two-dimensional array, stored row by row. */
  type Grid = seq<seq<real>>

  /** `g` has shape `(rows, cols)`. */
  ghost predicate IsGrid(g: Grid, rows: nat, cols: nat)
  {
    |g| == rows && forall i :: 0 <= i < rows ==> |g[i]| == cols
  }

  /** Every row of `b` has length `n`. */
  ghost predicate AllOfLength(b: seq<Vec>, n: nat)
  {
    forall t :: 0 <= t < |b| ==> |b[t]| == n
  }

  /** numpy's `.T` on an array of shape `(rows, cols)`. */
  function Transpose(g: Grid, rows: nat, cols: nat): (r: Grid)
    requires IsGrid(g, rows, cols)
    ensures IsGrid(r, cols, rows)
    ensures forall j, i :: 0 <= j < cols && 0 <= i < rows ==> r[j][i] == g[i][j]
  {
    seq(cols, j requires 0 <= j < cols =>
      seq(rows, i requires 0 <= i < rows => g[i][j]))
  }

  /** Transposing twice gives back the grid. */
  lemma {:induction false} TransposeInvolution(g: Grid, rows: nat, cols: nat)
    requires IsGrid(g, rows, cols)
    ensures Transpose(Transpose(g, rows, cols), cols, rows) == g
  {
    var t := Transpose(Transpose(g, rows, cols), cols, rows);
    assert |t| == |g|;
    forall i | 0 <= i < rows
      ensures t[i] == g[i]
    {
      assert |t[i]| == |g[i]|;
    }
  }

  /** `f` applied to every element of `v` (a vectorised call such as
      `tracer.b1(z_arr)`). */
  function Map(f: real -> real, v: Vec): (r: Vec)
    ensures |r| == |v|
    ensures forall j :: 0 <= j < |v| ==> r[j] == f(v[j])
  {
    seq(|v|, j requires 0 <= j < |v| => f(v[j]))
  }

  /** The vector of zeros of length `n`. */
  function Zeros(n: nat): (r: Vec)
    ensures |r| == n
    ensures forall j :: 0 <= j < n ==> r[j] == 0.0
  {
    seq(n, j requires 0 <= j < n => 0.0)
  }

  /** The vector of ones of length `n`. */
  function Ones(n: nat): (r: Vec)
    ensures |r| == n
    ensures forall j :: 0 <= j < n ==> r[j] == 1.0
  {
    seq(n, j requires 0 <= j < n => 1.0)
  }
}
