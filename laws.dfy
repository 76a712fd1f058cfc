/**
 * Properties of the reference definitions: what the operations promise beyond
 * a single call (double transposition, independence of the row tasks from
 * their completion order, associativity of the product) and worked
 * examples of each operation.
 */
module MatrixLaws {
  import opened Matrices
  import RowTasks

  /** Transposing twice gives back any rectangular matrix that has a column. */
  lemma TransposeInvolutive(m: Matrix)
    requires Rectangular(m) && Cols(m) > 0
    ensures Trans(Trans(m)) == m
  {
    var t := Trans(m);
    var tt := Trans(t);
    assert |tt| == |m|;
    forall i | 0 <= i < |m|
      ensures tt[i] == m[i]
    {
      assert |tt[i]| == |m[i]|;
      forall j | 0 <= j < |m[i]|
        ensures tt[i][j] == m[i][j]
      {
        assert tt[i][j] == t[j][i];
      }
    }
  }

  /**
   * Without the column the round trip fails: a matrix of one empty row
   * transposes to no rows at all. `Trans` maps no rows to no rows again,
   * whereas `Transpose` in the source reads `a[0]` and panics on that input.
   */
  lemma TransposeOfEmptyRows()
    ensures Trans([[]]) == [] && Trans(Trans([[]])) != [[]]
  {
  }

  // ---------------------------------------------------------------------------
  // Row tasks in any completion order

  /**
   * The output after the row tasks named in `order` have run, one after the
   * other, starting from `c`; the task for row `i` overwrites row `i` with row
   * `i` of `result` and touches nothing else.
   */
  function RunTasks(c: Matrix, order: seq<nat>, result: Matrix): (d: Matrix)
    requires |c| == |result|
    requires forall t :: 0 <= t < |order| ==> order[t] < |c|
    ensures |d| == |c|
    decreases |order|
  {
    if order == [] then c else RunTasks(c[order[0] := result[order[0]]], order[1..], result)
  }

  /**
   * Whatever order the row tasks finish in, once every row still to be
   * computed has had its task run, the output is exactly the result: the
   * fan-out/join equals the sequential loop over rows.
   */
  lemma {:induction false} AnyOrderGivesResult(c: Matrix, order: seq<nat>, result: Matrix)
    requires |c| == |result|
    requires forall t :: 0 <= t < |order| ==> order[t] < |c|
    requires forall i :: 0 <= i < |c| && c[i] != result[i] ==> i in order
    ensures RunTasks(c, order, result) == result
    decreases |order|
  {
    if order == [] {
      assert forall i :: 0 <= i < |c| ==> c[i] == result[i];
    } else {
      var c' := c[order[0] := result[order[0]]];
      forall i | 0 <= i < |c'| && c'[i] != result[i]
        ensures i in order[1..]
      {
        assert i != order[0] && i in order;
        var t :| 0 <= t < |order| && order[t] == i;
        assert t != 0 && order[1..][t - 1] == i;
      }
      AnyOrderGivesResult(c', order[1..], result);
    }
  }

  /** Two runs over all rows, in any two orders, give the same output. */
  lemma SameOutputEveryRun(n: nat, first: seq<nat>, second: seq<nat>, result: Matrix)
    requires |result| == n
    requires forall t :: 0 <= t < |first| ==> first[t] < n
    requires forall t :: 0 <= t < |second| ==> second[t] < n
    requires forall i :: 0 <= i < n ==> i in first && i in second
    ensures RunTasks(seq(n, _ => []), first, result) == RunTasks(seq(n, _ => []), second, result)
  {
    AnyOrderGivesResult(seq(n, _ => []), first, result);
    AnyOrderGivesResult(seq(n, _ => []), second, result);
  }

  /**
   * The `Add` row tasks, run on the shared output in the completion order
   * `order`: the output is what `RunTasks` predicts, and once every row has had
   * its task it is the sum, whatever the order.
   */
  method AddInAnyOrder(a: Matrix, b: Matrix, c: array<seq<real>>, order: seq<nat>)
    requires SameShape(a, b) && c.Length == |a|
    requires forall t :: 0 <= t < |order| ==> order[t] < |a|
    modifies c
    ensures c[..] == RunTasks(old(c[..]), order, Sum(a, b))
    ensures (forall i :: 0 <= i < |a| ==> i in order) ==> c[..] == Sum(a, b)
  {
    ghost var result := Sum(a, b);
    for t := 0 to |order|
      invariant RunTasks(c[..], order[t..], result) == RunTasks(old(c[..]), order, result)
    {
      assert order[t..][1..] == order[t + 1..];
      RowTasks.AddRow(a, b, c, order[t]);
    }
    assert order[|order|..] == [];
    if forall i :: 0 <= i < |a| ==> i in order {
      AnyOrderGivesResult(old(c[..]), order, result);
    }
  }

  /**
   * The `Multiply` row tasks in the completion order `order`: the output is
   * what `RunTasks` predicts, and the product once every row has had its task.
   */
  method MultiplyInAnyOrder(a: Matrix, b: Matrix, c: array<seq<real>>, order: seq<nat>)
    requires Conformable(a, b) && |b| > 0 && c.Length == |a|
    requires forall t :: 0 <= t < |order| ==> order[t] < |a|
    modifies c
    ensures c[..] == RunTasks(old(c[..]), order, Product(a, b))
    ensures (forall i :: 0 <= i < |a| ==> i in order) ==> c[..] == Product(a, b)
  {
    ghost var result := Product(a, b);
    for t := 0 to |order|
      invariant RunTasks(c[..], order[t..], result) == RunTasks(old(c[..]), order, result)
    {
      assert order[t..][1..] == order[t + 1..];
      RowTasks.MultiplyRow(a, b, c, order[t]);
    }
    assert order[|order|..] == [];
    if forall i :: 0 <= i < |a| ==> i in order {
      AnyOrderGivesResult(old(c[..]), order, result);
    }
  }

  /**
   * The `Transpose` column tasks in the completion order `order`, on output
   * rows made beforehand with `len(a)` entries each: the output is what
   * `RunTasks` predicts, and the transpose once every column has had its task.
   */
  method TransposeInAnyOrder(a: Matrix, t: array<seq<real>>, order: seq<nat>)
    requires Rectangular(a) && t.Length == Cols(a)
    requires forall k :: 0 <= k < t.Length ==> |t[k]| == |a|
    requires forall s :: 0 <= s < |order| ==> order[s] < Cols(a)
    modifies t
    ensures t[..] == RunTasks(old(t[..]), order, Trans(a))
    ensures (forall col :: 0 <= col < Cols(a) ==> col in order) ==> t[..] == Trans(a)
  {
    ghost var result := Trans(a);
    for s := 0 to |order|
      invariant forall k :: 0 <= k < t.Length ==> |t[k]| == |a|
      invariant RunTasks(t[..], order[s..], result) == RunTasks(old(t[..]), order, result)
    {
      assert order[s..][1..] == order[s + 1..];
      RowTasks.TransposeRow(a, t, order[s]);
    }
    assert order[|order|..] == [];
    if forall col :: 0 <= col < Cols(a) ==> col in order {
      AnyOrderGivesResult(old(t[..]), order, result);
    }
  }

  // ---------------------------------------------------------------------------
  // Associativity of the product

  /** All `n` terms of `u * z` are zero when `z` is zero on them. */
  lemma {:induction false} DotZero(u: seq<real>, z: seq<real>, n: nat)
    requires n <= |u| && n <= |z|
    requires forall k :: 0 <= k < n ==> z[k] == 0.0
    ensures Dot(u, z, n) == 0.0
  {
    if n > 0 {
      DotZero(u, z, n - 1);
    }
  }

  /** The dot product distributes over an entry-wise sum of its right operand. */
  lemma {:induction false} DotAdd(u: seq<real>, x: seq<real>, y: seq<real>, z: seq<real>, n: nat)
    requires n <= |u| && n <= |x| && n <= |y| && n <= |z|
    requires forall k :: 0 <= k < n ==> z[k] == x[k] + y[k]
    ensures Dot(u, z, n) == Dot(u, x, n) + Dot(u, y, n)
  {
    if n > 0 {
      DotAdd(u, x, y, z, n - 1);
      assert u[n - 1] * z[n - 1] == u[n - 1] * x[n - 1] + u[n - 1] * y[n - 1];
    }
  }

  /** Scaling the right operand scales the dot product. */
  lemma {:induction false} DotScale(u: seq<real>, x: seq<real>, y: seq<real>, s: real, n: nat)
    requires n <= |u| && n <= |x| && n <= |y|
    requires forall k :: 0 <= k < n ==> y[k] == x[k] * s
    ensures Dot(u, y, n) == Dot(u, x, n) * s
  {
    if n > 0 {
      DotScale(u, x, y, s, n - 1);
      assert u[n - 1] * y[n - 1] == (u[n - 1] * x[n - 1]) * s;
    }
  }

  /** The row vector `u` times `b`. */
  function RowTimes(u: seq<real>, b: Matrix): (v: seq<real>)
    requires Rectangular(b) && |b| <= |u|
    ensures |v| == Cols(b)
  {
    seq(Cols(b), l requires 0 <= l < Cols(b) => Dot(u, Column(b, l), |b|))
  }

  /** `b` times the column vector `w`, summing over the first `m` columns only. */
  function TimesColumn(b: Matrix, w: seq<real>, m: nat): (v: seq<real>)
    requires Rectangular(b) && m <= Cols(b) && m <= |w|
    ensures |v| == |b|
  {
    seq(|b|, k requires 0 <= k < |b| => Dot(b[k], w, m))
  }

  /**
   * The double sum over `k` and `l` of `u[k] * b[k][l] * w[l]` may be taken
   * over `l` outside (left) or over `k` outside (right); here for the first `m`
   * values of `l`.
   */
  lemma {:induction false} SwapSums(u: seq<real>, b: Matrix, w: seq<real>, m: nat)
    requires Rectangular(b) && |b| <= |u| && m <= Cols(b) && m <= |w|
    ensures Dot(RowTimes(u, b), w, m) == Dot(u, TimesColumn(b, w, m), |b|)
  {
    if m == 0 {
      DotZero(u, TimesColumn(b, w, 0), |b|);
    } else {
      SwapSums(u, b, w, m - 1);
      var col := Column(b, m - 1);
      var scaled := seq(|b|, k requires 0 <= k < |b| => col[k] * w[m - 1]);
      DotScale(u, col, scaled, w[m - 1], |b|);
      DotAdd(u, TimesColumn(b, w, m - 1), scaled, TimesColumn(b, w, m), |b|);
    }
  }

  /** Multiplication is associative, and the shapes propagate through it. */
  lemma ProductAssociative(a: Matrix, b: Matrix, c: Matrix)
    requires Conformable(a, b) && Conformable(b, c) && |a| > 0
    ensures Conformable(Product(a, b), c) && Conformable(a, Product(b, c))
    ensures Product(Product(a, b), c) == Product(a, Product(b, c))
  {
    var ab, bc := Product(a, b), Product(b, c);
    var left, right := Product(ab, c), Product(a, bc);
    assert |left| == |right| == |a|;
    forall i | 0 <= i < |a|
      ensures left[i] == right[i]
    {
      assert ab[i] == RowTimes(a[i], b);
      assert |left[i]| == |right[i]| == Cols(c);
      forall j | 0 <= j < Cols(c)
        ensures left[i][j] == right[i][j]
      {
        var w := Column(c, j);
        SwapSums(a[i], b, w, Cols(b));
        assert Column(bc, j) == TimesColumn(b, w, Cols(b));
      }
    }
  }

  // ---------------------------------------------------------------------------
  // Worked examples

  /** [[1,2],[3,4]] + [[5,6],[7,8]] = [[6,8],[10,12]]. */
  lemma SumExample()
    ensures Sum([[1.0, 2.0], [3.0, 4.0]], [[5.0, 6.0], [7.0, 8.0]]) == [[6.0, 8.0], [10.0, 12.0]]
  {
    var s := Sum([[1.0, 2.0], [3.0, 4.0]], [[5.0, 6.0], [7.0, 8.0]]);
    assert s[0] == [6.0, 8.0];
    assert s[1] == [10.0, 12.0];
  }

  /** [[1,2],[3,4]] * [[5,6],[7,8]] = [[19,22],[43,50]]. */
  lemma ProductExample()
    ensures Product([[1.0, 2.0], [3.0, 4.0]], [[5.0, 6.0], [7.0, 8.0]]) == [[19.0, 22.0], [43.0, 50.0]]
  {
    var b: Matrix := [[5.0, 6.0], [7.0, 8.0]];
    assert Column(b, 0) == [5.0, 7.0];
    assert Column(b, 1) == [6.0, 8.0];
    assert Dot([1.0, 2.0], [5.0, 7.0], 2) == 19.0;
    assert Dot([1.0, 2.0], [6.0, 8.0], 2) == 22.0;
    assert Dot([3.0, 4.0], [5.0, 7.0], 2) == 43.0;
    assert Dot([3.0, 4.0], [6.0, 8.0], 2) == 50.0;
    var p := Product([[1.0, 2.0], [3.0, 4.0]], b);
    assert p[0] == [19.0, 22.0];
    assert p[1] == [43.0, 50.0];
  }

  /** A 1x3 row times a 3x1 column is the 1x1 matrix [[14]]. */
  lemma RowTimesColumnExample()
    ensures Product([[1.0, 2.0, 3.0]], [[1.0], [2.0], [3.0]]) == [[14.0]]
  {
    var b: Matrix := [[1.0], [2.0], [3.0]];
    assert Column(b, 0) == [1.0, 2.0, 3.0];
    var p := Product([[1.0, 2.0, 3.0]], b);
    assert p[0] == [14.0];
  }

  /** The transpose of [[1,2,3],[4,5,6]] is [[1,4],[2,5],[3,6]]. */
  lemma TransExample()
    ensures Trans([[1.0, 2.0, 3.0], [4.0, 5.0, 6.0]]) == [[1.0, 4.0], [2.0, 5.0], [3.0, 6.0]]
  {
    var m: Matrix := [[1.0, 2.0, 3.0], [4.0, 5.0, 6.0]];
    var t := Trans(m);
    assert t[0] == Column(m, 0) == [1.0, 4.0];
    assert t[1] == Column(m, 1) == [2.0, 5.0];
    assert t[2] == Column(m, 2) == [3.0, 6.0];
  }
}
