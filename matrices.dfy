/**
 * The mathematical meaning of the matrix operations: a matrix is a sequence of
 * rows, and each operation is given by a reference definition that the
 * imperative code is proved against.
 */
module Matrices {

  /** A dense matrix, row by row. Elements are reals, so sums and products are exact. */
  type Matrix = seq<seq<real>>

  /** Number of columns, read off the first row as the source does (0 for no rows). */
  function Cols(m: Matrix): nat {
    if |m| == 0 then 0 else |m[0]|
  }

  /** Every row has the length of the first one. */
  predicate Rectangular(m: Matrix) {
    forall i :: 0 <= i < |m| ==> |m[i]| == Cols(m)
  }

  /** Two rectangular matrices with the same number of rows and of columns. */
  predicate SameShape(a: Matrix, b: Matrix) {
    Rectangular(a) && Rectangular(b) && |a| == |b| && Cols(a) == Cols(b)
  }

  /** `a` has as many columns as `b` has rows. */
  predicate Conformable(a: Matrix, b: Matrix) {
    Rectangular(a) && Rectangular(b) && Cols(a) == |b|
  }

  /** A freshly made row of `n` zero values. */
  function Zeros(n: nat): (z: seq<real>)
    ensures |z| == n
    ensures forall j :: 0 <= j < n ==> z[j] == 0.0
  {
    seq(n, _ => 0.0)
  }

  /** Column `j` of `m`, read top to bottom. */
  function Column(m: Matrix, j: nat): (v: seq<real>)
    requires Rectangular(m) && j < Cols(m)
    ensures |v| == |m|
  {
    seq(|m|, i requires 0 <= i < |m| => m[i][j])
  }

  /** The entries of `m` in row-major order. */
  function Flatten(m: Matrix): seq<real> {
    if |m| == 0 then [] else Flatten(m[..|m| - 1]) + m[|m| - 1]
  }

  /** Entry-wise sum. */
  function Sum(a: Matrix, b: Matrix): (s: Matrix)
    requires SameShape(a, b)
    ensures |s| == |a| && Rectangular(s) && Cols(s) == Cols(a)
  {
    seq(|a|, i requires 0 <= i < |a| =>
      seq(|a[i]|, j requires 0 <= j < |a[i]| => a[i][j] + b[i][j]))
  }

  /**
   * The sum of `u[k] * v[k]` for `k` in `0 .. n-1`, accumulated from zero in
   * increasing `k`, which is the order the source's inner loop adds terms in.
   */
  function Dot(u: seq<real>, v: seq<real>, n: nat): real
    requires n <= |u| && n <= |v|
  {
    if n == 0 then 0.0 else Dot(u, v, n - 1) + u[n - 1] * v[n - 1]
  }

  /** Matrix product: entry `(i, j)` is row `i` of `a` dotted with column `j` of `b`. */
  function Product(a: Matrix, b: Matrix): (p: Matrix)
    requires Conformable(a, b)
    ensures |p| == |a| && Rectangular(p)
    ensures |a| > 0 ==> Cols(p) == Cols(b)
  {
    seq(|a|, i requires 0 <= i < |a| =>
      seq(Cols(b), j requires 0 <= j < Cols(b) => Dot(a[i], Column(b, j), |b|)))
  }

  /** Transposition: row `j` of the result is column `j` of `m`. */
  function Trans(m: Matrix): (t: Matrix)
    requires Rectangular(m)
    ensures |t| == Cols(m) && Rectangular(t)
    ensures |t| > 0 ==> Cols(t) == |m|
  {
    seq(Cols(m), j requires 0 <= j < Cols(m) => Column(m, j))
  }
}
