/**
 * Callers of both versions on worked examples: `Add` and `Multiply` of the
 * error-returning version, `Transpose` of the printing version. The contracts
 * of those methods alone fix every output, errors included.
 */
module Scenarios {
  import opened Wrappers
  import opened Matrices
  import MatrixLaws
  import MatrixGo
  import MyPackage

  /** Adding two 2x2 matrices succeeds with their entry-wise sum. */
  method AddTwoByTwo() returns (r: Result<Matrix, MyPackage.Error>)
    ensures r == Success([[6.0, 8.0], [10.0, 12.0]])
  {
    MatrixLaws.SumExample();
    r := MyPackage.Add([[1.0, 2.0], [3.0, 4.0]], [[5.0, 6.0], [7.0, 8.0]]);
  }

  /** A 1x2 and a 1x3 matrix cannot be added: two columns against three. */
  method AddColumnMismatch() returns (r: Result<Matrix, MyPackage.Error>)
    ensures r == Failure(MyPackage.ShapeMismatch)
  {
    r := MyPackage.Add([[1.0, 2.0]], [[1.0, 2.0, 3.0]]);
    assert r.error.ShapeMismatch?;
  }

  /**
   * A matrix with no rows and one with a row cannot be added: the row counts
   * differ, so the check fails before the first row of either is read.
   */
  method AddRowCountMismatch() returns (r: Result<Matrix, MyPackage.Error>)
    ensures r == Failure(MyPackage.ShapeMismatch)
  {
    r := MyPackage.Add([], [[1.0]]);
    assert r.error.ShapeMismatch?;
  }

  /** A 1x3 and a 1x3 matrix cannot be multiplied: three columns against one row. */
  method MultiplyInnerMismatch() returns (r: Result<Matrix, MyPackage.Error>)
    ensures r == Failure(MyPackage.ShapeMismatch)
  {
    r := MyPackage.Multiply([[1.0, 2.0, 3.0]], [[1.0, 2.0, 3.0]]);
    assert r.error.ShapeMismatch?;
  }

  /** Multiplying two 2x2 matrices succeeds with [[19,22],[43,50]]. */
  method MultiplyTwoByTwo() returns (r: Result<Matrix, MyPackage.Error>)
    ensures r == Success([[19.0, 22.0], [43.0, 50.0]])
  {
    MatrixLaws.ProductExample();
    r := MyPackage.Multiply([[1.0, 2.0], [3.0, 4.0]], [[5.0, 6.0], [7.0, 8.0]]);
  }

  /** A 1x3 row times a 3x1 column succeeds with [[14]]. */
  method MultiplyRowByColumn() returns (r: Result<Matrix, MyPackage.Error>)
    ensures r == Success([[14.0]])
  {
    MatrixLaws.RowTimesColumnExample();
    r := MyPackage.Multiply([[1.0, 2.0, 3.0]], [[1.0], [2.0], [3.0]]);
  }

  /** Transposing a 2x3 matrix gives the 3x2 matrix of its columns, and back. */
  method TransposeTwoByThree() returns (t: Matrix, back: Matrix)
    ensures t == [[1.0, 4.0], [2.0, 5.0], [3.0, 6.0]]
    ensures back == [[1.0, 2.0, 3.0], [4.0, 5.0, 6.0]]
  {
    var m: Matrix := [[1.0, 2.0, 3.0], [4.0, 5.0, 6.0]];
    MatrixLaws.TransExample();
    MatrixLaws.TransposeInvolutive(m);
    t := MatrixGo.Transpose(m);
    back := MatrixGo.Transpose(t);
  }
}
