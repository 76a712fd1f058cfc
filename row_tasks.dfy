/**
 * The bodies of the goroutines that fill the output, one task per output row.
 * Both versions of the package run the very same bodies. Each task is given the
 * shared output `c` (the array of rows made by `make(Matrix, n)`), reads only
 * the input matrices and writes only row `i` of `c`: its postcondition says that
 * afterwards `c` is the old `c` with row `i` replaced by row `i` of the result,
 * and every other row untouched.
 */
module RowTasks {
  import opened Matrices

  /** Row task of `Add`: `c[i]` becomes `a[i] + b[i]`, entry by entry. */
  method AddRow(a: Matrix, b: Matrix, c: array<seq<real>>, i: nat)
    requires SameShape(a, b) && c.Length == |a| && i < |a|
    modifies c
    ensures c[..] == old(c[..])[i := Sum(a, b)[i]]
  {
    c[i] := Zeros(|a[i]|);
    for j := 0 to |a[i]|
      invariant |c[i]| == |a[i]|
      invariant forall q :: 0 <= q < j ==> c[i][q] == a[i][q] + b[i][q]
      invariant forall r :: 0 <= r < c.Length && r != i ==> c[r] == old(c[r])
    {
      c[i] := c[i][j := a[i][j] + b[i][j]];
    }
    assert c[i] == Sum(a, b)[i];
  }

  /**
   * Row task of `Multiply`: `c[i]` starts as a zero row of `len(b[0])` entries,
   * and entry `j` accumulates `a[i][k] * b[k][j]` for `k` from 0 up.
   */
  method MultiplyRow(a: Matrix, b: Matrix, c: array<seq<real>>, i: nat)
    requires Conformable(a, b) && |b| > 0 && c.Length == |a| && i < |a|
    modifies c
    ensures c[..] == old(c[..])[i := Product(a, b)[i]]
  {
    c[i] := Zeros(|b[0]|);
    for j := 0 to |b[0]|
      invariant |c[i]| == |b[0]|
      invariant forall q :: 0 <= q < j ==> c[i][q] == Dot(a[i], Column(b, q), |b|)
      invariant forall q :: j <= q < |b[0]| ==> c[i][q] == 0.0
      invariant forall r :: 0 <= r < c.Length && r != i ==> c[r] == old(c[r])
    {
      for k := 0 to |b|
        invariant |c[i]| == |b[0]|
        invariant c[i][j] == Dot(a[i], Column(b, j), k)
        invariant forall q :: 0 <= q < j ==> c[i][q] == Dot(a[i], Column(b, q), |b|)
        invariant forall q :: j < q < |b[0]| ==> c[i][q] == 0.0
        invariant forall r :: 0 <= r < c.Length && r != i ==> c[r] == old(c[r])
      {
        c[i] := c[i][j := c[i][j] + a[i][k] * b[k][j]];
      }
    }
    assert c[i] == Product(a, b)[i];
  }

  /**
   * Column task of `Transpose`: the output row `col` was made beforehand as a
   * zero row of `len(a)` entries; the task copies column `col` of `a` into it.
   */
  method TransposeRow(a: Matrix, t: array<seq<real>>, col: nat)
    requires Rectangular(a) && t.Length == Cols(a) && col < Cols(a)
    requires |t[col]| == |a|
    modifies t
    ensures t[..] == old(t[..])[col := Trans(a)[col]]
  {
    for row := 0 to |a|
      invariant |t[col]| == |a|
      invariant forall q :: 0 <= q < row ==> t[col][q] == a[q][col]
      invariant forall r :: 0 <= r < t.Length && r != col ==> t[r] == old(t[r])
    {
      t[col] := t[col][row := a[row][col]];
    }
    assert t[col] == Trans(a)[col];
  }
}
