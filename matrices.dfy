/**
 * The numpy matrix operations the view-uncertainty formula is written with, over
 * `real`: `np.dot`, `.T`, `np.diag` (of a vector and of a matrix) and scaling.
 * A matrix is a sequence of rows; where a row count of zero would hide the
 * column count, the column count is passed explicitly.
 */
module Matrices {

  type Matrix = seq<seq<real>>

  predicate IsMatrix(m: Matrix, rows: nat, cols: nat) {
    |m| == rows && forall i :: 0 <= i < rows ==> |m[i]| == cols
  }

  /** The inner product of two vectors of the same length. */
  function Dot(u: seq<real>, v: seq<real>): real
    requires |u| == |v|
  {
    if u == [] then 0.0 else u[0] * v[0] + Dot(u[1..], v[1..])
  }

  /** Column `j` of a matrix whose rows all have more than `j` entries. */
  function Column(m: Matrix, j: nat): (c: seq<real>)
    requires forall i :: 0 <= i < |m| ==> j < |m[i]|
    ensures |c| == |m| && forall i :: 0 <= i < |m| ==> c[i] == m[i][j]
  {
    seq(|m|, i requires 0 <= i < |m| && j < |m[i]| => m[i][j])
  }

  /** `np.dot(a, b)` for an `|a|`-by-`|b|` matrix `a` and a `|b|`-by-`cols` matrix `b`. */
  function MatMul(a: Matrix, b: Matrix, cols: nat): (c: Matrix)
    requires IsMatrix(a, |a|, |b|) && IsMatrix(b, |b|, cols)
    ensures IsMatrix(c, |a|, cols)
    ensures forall i, j :: 0 <= i < |a| && 0 <= j < cols ==> c[i][j] == Dot(a[i], Column(b, j))
  {
    seq(|a|, i requires 0 <= i < |a| =>
      seq(cols, j requires 0 <= j < cols => Dot(a[i], Column(b, j))))
  }

  /** `m.T` for a matrix with `cols` columns. */
  function Transpose(m: Matrix, cols: nat): (t: Matrix)
    requires IsMatrix(m, |m|, cols)
    ensures IsMatrix(t, cols, |m|)
    ensures forall i, j :: 0 <= i < cols && 0 <= j < |m| ==> t[i][j] == m[j][i]
  {
    seq(cols, j requires 0 <= j < cols => Column(m, j))
  }

  /** `np.diag(d)` of a vector: the square matrix with `d` on its diagonal. */
  function DiagMatrix(d: seq<real>): (m: Matrix)
    ensures IsMatrix(m, |d|, |d|)
    ensures forall i, j :: 0 <= i < |d| && 0 <= j < |d| ==> m[i][j] == if i == j then d[i] else 0.0
  {
    seq(|d|, i requires 0 <= i < |d| => seq(|d|, j requires 0 <= j < |d| => if i == j then d[i] else 0.0))
  }

  /** `np.diag(m)` of a square matrix: its diagonal. */
  function Diagonal(m: Matrix): (d: seq<real>)
    requires IsMatrix(m, |m|, |m|)
    ensures |d| == |m| && forall i :: 0 <= i < |m| ==> d[i] == m[i][i]
  {
    seq(|m|, i requires 0 <= i < |m| && |m[i]| == |m| => m[i][i])
  }

  /** `m * c` for a scalar `c`. */
  function Scale(m: Matrix, c: real): (s: Matrix)
    ensures |s| == |m| && forall i :: 0 <= i < |m| ==> |s[i]| == |m[i]|
    ensures forall i, j :: 0 <= i < |m| && 0 <= j < |m[i]| ==> s[i][j] == m[i][j] * c
  {
    seq(|m|, i requires 0 <= i < |m| => seq(|m[i]|, j requires 0 <= j < |m[i]| => m[i][j] * c))
  }

  /** The entrywise squares of a vector. */
  function Squares(v: seq<real>): (s: seq<real>)
    ensures |s| == |v| && forall j :: 0 <= j < |v| ==> s[j] == v[j] * v[j]
  {
    seq(|v|, j requires 0 <= j < |v| => v[j] * v[j])
  }

  lemma {:induction false} DotOfZero(u: seq<real>, v: seq<real>)
    requires |u| == |v| && forall j :: 0 <= j < |v| ==> v[j] == 0.0
    ensures Dot(u, v) == 0.0
  {
    if u != [] { DotOfZero(u[1..], v[1..]); }
  }

  /** Against a vector with one possibly non-zero entry, the inner product picks that entry out. */
  lemma {:induction false} DotOfSingle(u: seq<real>, v: seq<real>, k: nat)
    requires |u| == |v| && k < |v|
    requires forall j :: 0 <= j < |v| && j != k ==> v[j] == 0.0
    ensures Dot(u, v) == u[k] * v[k]
  {
    if k == 0 {
      DotOfZero(u[1..], v[1..]);
    } else {
      DotOfSingle(u[1..], v[1..], k - 1);
    }
  }

  /** Against a vector with two possibly non-zero entries, the inner product picks both out. */
  lemma {:induction false} DotOfPair(u: seq<real>, v: seq<real>, k1: nat, k2: nat)
    requires |u| == |v| && k1 < |v| && k2 < |v| && k1 != k2
    requires forall j :: 0 <= j < |v| && j != k1 && j != k2 ==> v[j] == 0.0
    ensures Dot(u, v) == u[k1] * v[k1] + u[k2] * v[k2]
  {
    if k1 == 0 {
      DotOfSingle(u[1..], v[1..], k2 - 1);
    } else if k2 == 0 {
      DotOfSingle(u[1..], v[1..], k1 - 1);
    } else {
      DotOfPair(u[1..], v[1..], k1 - 1, k2 - 1);
    }
  }

  /** Inner products of vectors with the same entrywise products are equal. */
  lemma {:induction false} DotPointwise(u: seq<real>, v: seq<real>, x: seq<real>, y: seq<real>)
    requires |u| == |v| == |x| == |y|
    requires forall j :: 0 <= j < |u| ==> u[j] * v[j] == x[j] * y[j]
    ensures Dot(u, v) == Dot(x, y)
  {
    if u != [] { DotPointwise(u[1..], v[1..], x[1..], y[1..]); }
  }

  /** Inner product of two entrywise non-negative vectors is non-negative. */
  lemma {:induction false} DotNonNegative(u: seq<real>, v: seq<real>)
    requires |u| == |v|
    requires forall j :: 0 <= j < |u| ==> u[j] >= 0.0 && v[j] >= 0.0
    ensures Dot(u, v) >= 0.0
  {
    if u != [] { DotNonNegative(u[1..], v[1..]); }
  }

  /** Multiplying by a diagonal matrix scales each column by its diagonal entry. */
  lemma ProductWithDiagonal(p: Matrix, d: seq<real>, i: nat)
    requires IsMatrix(p, |p|, |d|) && i < |p|
    ensures forall j :: 0 <= j < |d| ==> MatMul(p, DiagMatrix(d), |d|)[i][j] == p[i][j] * d[j]
  {
    var m := DiagMatrix(d);
    forall j | 0 <= j < |d|
      ensures MatMul(p, m, |d|)[i][j] == p[i][j] * d[j]
    {
      DotOfSingle(p[i], Column(m, j), j);
    }
  }

  /** Column i of the transpose is row i. */
  lemma ColumnOfTranspose(m: Matrix, cols: nat, i: nat)
    requires IsMatrix(m, |m|, cols) && i < |m|
    ensures Column(Transpose(m, cols), i) == m[i]
  {
    var c := Column(Transpose(m, cols), i);
    assert forall j :: 0 <= j < cols ==> c[j] == m[i][j];
  }
}
