/**
 * The printing version of the package (matrix.go). A shape mismatch prints a
 * message and returns no matrix; the message is not modelled and "no matrix" is
 * `None`. Inputs are values, so the operations cannot change them.
 */
module MatrixGo {
  import opened Wrappers
  import opened Matrices
  import RowTasks

  /**
   * `New(rows, cols)`: a `rows` by `cols` matrix filled row by row from the
   * pseudo-random stream `draws` (the values `rand.Float64()` would return after
   * the generator is seeded from the clock), each of which lies in [0, 1).
   */
  method New(rows: int, cols: int, draws: seq<real>) returns (m: Matrix)
    requires 0 <= rows && 0 <= cols
    requires rows * cols <= |draws|
    requires forall d :: 0 <= d < |draws| ==> 0.0 <= draws[d] < 1.0
    ensures |m| == rows && forall i :: 0 <= i < rows ==> |m[i]| == cols
    ensures Rectangular(m)
    ensures Flatten(m) == draws[..rows * cols]
    ensures forall i, j :: 0 <= i < rows && 0 <= j < cols ==> 0.0 <= m[i][j] < 1.0
  {
    var out := new seq<real>[rows](_ => []);
    var next := 0;
    for i := 0 to rows
      invariant next == i * cols && next <= |draws|
      invariant forall r :: 0 <= r < i ==> |out[r]| == cols
      invariant Flatten(out[..i]) == draws[..next]
      invariant forall r, j :: 0 <= r < i && 0 <= j < cols ==> 0.0 <= out[r][j] < 1.0
    {
      RowFits(i, rows, cols);
      ghost var done := out[..i];
      out[i] := Zeros(cols);
      for j := 0 to cols
        invariant |out[i]| == cols
        invariant forall q :: 0 <= q < j ==> out[i][q] == draws[next + q]
        invariant out[..i] == done
      {
        out[i] := out[i][j := draws[next + j]];
      }
      assert out[..i + 1] == done + [out[i]];
      FlattenExtend(done, out[i], draws, next);
      next := next + cols;
    }
    m := out[..];
    assert out[..rows] == m;
  }

  /** Appending the row made from the next `|row|` draws extends the consumed prefix. */
  lemma FlattenExtend(done: Matrix, row: seq<real>, draws: seq<real>, next: nat)
    requires next + |row| <= |draws| && Flatten(done) == draws[..next]
    requires forall q :: 0 <= q < |row| ==> row[q] == draws[next + q]
    ensures Flatten(done + [row]) == draws[..next + |row|]
  {
    assert (done + [row])[..|done|] == done;
    assert row == draws[next..next + |row|];
    assert draws[..next + |row|] == draws[..next] + draws[next..next + |row|];
  }

  /** Rows `0 ..= i` of a `rows` by `cols` matrix use at most `rows * cols` draws. */
  lemma RowFits(i: nat, rows: nat, cols: nat)
    requires i < rows
    ensures i * cols + cols <= rows * cols
  {
    assert i * cols + cols == (i + 1) * cols;
  }

  /**
   * `Add(a, b)`: no matrix when the row counts or the first-row lengths differ;
   * otherwise the entry-wise sum, one row task per row of `a`.
   * The check stops at differing row counts before it reads `a[0]`, so only
   * two matrices with no rows at all are outside its domain.
   */
  method Add(a: Matrix, b: Matrix) returns (r: Option<Matrix>)
    requires Rectangular(a) && Rectangular(b)
    requires |a| > 0 || |a| != |b|
    ensures r.None? <==> (|a| != |b| || |a[0]| != |b[0]|)
    ensures r.Some? ==> r.value == Sum(a, b)
    ensures r.Some? ==> |r.value| == |a| && forall i :: 0 <= i < |a| ==> |r.value[i]| == |a[i]|
    ensures r.Some? ==>
      forall i, j :: 0 <= i < |a| && 0 <= j < |a[i]| ==> r.value[i][j] == a[i][j] + b[i][j]
  {
    if |a| != |b| || |a[0]| != |b[0]| {
      return None;
    }
    ghost var result := Sum(a, b);
    var c := new seq<real>[|a|](_ => []);
    for i := 0 to |a|
      invariant forall q :: 0 <= q < i ==> c[q] == result[q]
      invariant forall q :: i <= q < |a| ==> c[q] == []
    {
      RowTasks.AddRow(a, b, c, i);
    }
    assert c[..] == result;
    return Some(c[..]);
  }

  /**
   * `Multiply(a, b)`: no matrix when `len(a[0]) != len(b)`; otherwise the
   * `len(a)` by `len(b[0])` product, one row task per row of `a`.
   */
  method Multiply(a: Matrix, b: Matrix) returns (r: Option<Matrix>)
    requires Rectangular(a) && Rectangular(b) && |a| > 0
    requires |b| > 0 || |a[0]| != |b|
    ensures r.None? <==> |a[0]| != |b|
    ensures r.Some? ==> r.value == Product(a, b)
    ensures r.Some? ==> |r.value| == |a| && forall i :: 0 <= i < |a| ==> |r.value[i]| == |b[0]|
    ensures r.Some? ==>
      forall i, j :: 0 <= i < |a| && 0 <= j < |b[0]| ==> r.value[i][j] == Dot(a[i], Column(b, j), |b|)
  {
    if |a[0]| != |b| {
      return None;
    }
    ghost var result := Product(a, b);
    var c := new seq<real>[|a|](_ => []);
    for i := 0 to |a|
      invariant forall q :: 0 <= q < i ==> c[q] == result[q]
      invariant forall q :: i <= q < |a| ==> c[q] == []
    {
      RowTasks.MultiplyRow(a, b, c, i);
    }
    assert c[..] == result;
    return Some(c[..]);
  }

  /**
   * `Transpose(a)`: makes `len(a[0])` zero rows of `len(a)` entries, then one
   * task per column of `a` copies that column into its output row.
   */
  method Transpose(a: Matrix) returns (t: Matrix)
    requires Rectangular(a) && |a| > 0
    ensures t == Trans(a)
    ensures |t| == |a[0]| && forall col :: 0 <= col < |t| ==> |t[col]| == |a|
    ensures forall row, col :: 0 <= row < |a| && 0 <= col < |a[0]| ==> t[col][row] == a[row][col]
  {
    var rows := |a|;
    var cols := |a[0]|;
    var transposed := new seq<real>[cols](_ => []);
    for i := 0 to cols
      invariant forall k :: 0 <= k < i ==> transposed[k] == Zeros(rows)
    {
      transposed[i] := Zeros(rows);
    }
    ghost var result := Trans(a);
    for i := 0 to cols
      invariant forall k :: 0 <= k < i ==> transposed[k] == result[k]
      invariant forall k :: i <= k < cols ==> transposed[k] == Zeros(rows)
    {
      RowTasks.TransposeRow(a, transposed, i);
    }
    t := transposed[..];
    assert t == result;
  }

  /** `TimeAdd`: the matrix `Add(a, b)` returns, passed through unchanged. */
  method TimeAdd(a: Matrix, b: Matrix) returns (r: Option<Matrix>)
    requires Rectangular(a) && Rectangular(b)
    requires |a| > 0 || |a| != |b|
    ensures r.None? <==> (|a| != |b| || |a[0]| != |b[0]|)
    ensures r.Some? ==> r.value == Sum(a, b)
  {
    r := Add(a, b);
  }

  /** `TimeMultiply`: the matrix `Multiply(a, b)` returns, passed through unchanged. */
  method TimeMultiply(a: Matrix, b: Matrix) returns (r: Option<Matrix>)
    requires Rectangular(a) && Rectangular(b) && |a| > 0
    requires |b| > 0 || |a[0]| != |b|
    ensures r.None? <==> |a[0]| != |b|
    ensures r.Some? ==> r.value == Product(a, b)
  {
    r := Multiply(a, b);
  }

  /** `TimeTranspose`: the matrix `Transpose(a)` returns, passed through unchanged. */
  method TimeTranspose(a: Matrix) returns (t: Matrix)
    requires Rectangular(a) && |a| > 0
    ensures t == Trans(a)
  {
    t := Transpose(a);
  }
}
