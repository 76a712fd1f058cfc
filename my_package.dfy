/**
 * The error-returning version of the package (myPackage.go). A shape mismatch
 * returns no matrix together with an error; here that pair is
 * `Failure(ShapeMismatch)` and a successful `(c, nil)` is `Success(c)`.
 * `New` is the same code as in matrix.go and is modelled there.
 */
module MyPackage {
  import opened Wrappers
  import opened Matrices
  import RowTasks

  /** The one error the package reports: "matrix sizes do not match". */
  datatype Error = ShapeMismatch

  /**
   * `Add(a, b)`: the error when the row counts or the first-row lengths differ;
   * otherwise no error and the entry-wise sum, one row task per row of `a`.
   * The check stops at differing row counts before it reads `a[0]`, so only
   * two matrices with no rows at all are outside its domain.
   */
  method Add(a: Matrix, b: Matrix) returns (r: Result<Matrix, Error>)
    requires Rectangular(a) && Rectangular(b)
    requires |a| > 0 || |a| != |b|
    ensures r.Failure? <==> (|a| != |b| || |a[0]| != |b[0]|)
    ensures r.Success? ==> r.value == Sum(a, b)
    ensures r.Success? ==> |r.value| == |a| && forall i :: 0 <= i < |a| ==> |r.value[i]| == |a[i]|
    ensures r.Success? ==>
      forall i, j :: 0 <= i < |a| && 0 <= j < |a[i]| ==> r.value[i][j] == a[i][j] + b[i][j]
  {
    if |a| != |b| || |a[0]| != |b[0]| {
      return Failure(ShapeMismatch);
    }
    ghost var result := Sum(a, b);
    var c := new seq<real>[|a|](_ => []);
    for i := 0 to |a|
      invariant forall q :: 0 <= q < i ==> c[q] == result[q]
      invariant forall q :: i <= q < |a| ==> c[q] == []
    {
      RowTasks.AddRow(a, b, c, i);
    }
    assert c[..] == result;
    return Success(c[..]);
  }

  /**
   * `Multiply(a, b)`: the error when `len(a[0]) != len(b)`; otherwise no error
   * and the `len(a)` by `len(b[0])` product, one row task per row of `a`.
   */
  method Multiply(a: Matrix, b: Matrix) returns (r: Result<Matrix, Error>)
    requires Rectangular(a) && Rectangular(b) && |a| > 0
    requires |b| > 0 || |a[0]| != |b|
    ensures r.Failure? <==> |a[0]| != |b|
    ensures r.Success? ==> r.value == Product(a, b)
    ensures r.Success? ==> |r.value| == |a| && forall i :: 0 <= i < |a| ==> |r.value[i]| == |b[0]|
    ensures r.Success? ==>
      forall i, j :: 0 <= i < |a| && 0 <= j < |b[0]| ==> r.value[i][j] == Dot(a[i], Column(b, j), |b|)
  {
    if |a[0]| != |b| {
      return Failure(ShapeMismatch);
    }
    ghost var result := Product(a, b);
    var c := new seq<real>[|a|](_ => []);
    for i := 0 to |a|
      invariant forall q :: 0 <= q < i ==> c[q] == result[q]
      invariant forall q :: i <= q < |a| ==> c[q] == []
    {
      RowTasks.MultiplyRow(a, b, c, i);
    }
    assert c[..] == result;
    return Success(c[..]);
  }

  /** `TimeAdd`: the matrix and the error of `Add(a, b)`, passed through unchanged. */
  method TimeAdd(a: Matrix, b: Matrix) returns (r: Result<Matrix, Error>)
    requires Rectangular(a) && Rectangular(b)
    requires |a| > 0 || |a| != |b|
    ensures r.Failure? <==> (|a| != |b| || |a[0]| != |b[0]|)
    ensures r.Success? ==> r.value == Sum(a, b)
  {
    r := Add(a, b);
  }

  /** `TimeMultiply`: the matrix and the error of `Multiply(a, b)`, passed through unchanged. */
  method TimeMultiply(a: Matrix, b: Matrix) returns (r: Result<Matrix, Error>)
    requires Rectangular(a) && Rectangular(b) && |a| > 0
    requires |b| > 0 || |a[0]| != |b|
    ensures r.Failure? <==> |a[0]| != |b|
    ensures r.Success? ==> r.value == Product(a, b)
  {
    r := Multiply(a, b);
  }
}
