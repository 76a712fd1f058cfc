# Dense matrices with one task per output row

This project models a small dense-matrix package. The package exists in two versions of the same API:

- `matrix.go` reports a shape mismatch by printing a message and returning no matrix.
- `myPackage.go` reports it as an error value.

Both versions provide the same operations. `New` builds a random matrix. `Add` and `Multiply` check the operand shapes and then start one goroutine per output row. `Transpose` (only in `matrix.go`) starts one goroutine per output row, that is, per input column. Each goroutine writes only its own row of the shared output. A `sync.WaitGroup` join waits for all of them before the result is returned. The timed wrappers call the operation and pass its result through.

The model has these parts:

- `Matrices` (`matrices.dfy`): the reference definitions. A matrix is `seq<seq<real>>`. Its column count is read off the first row, as the source does. `Rectangular` is the invariant the source assumes but never checks. `Sum`, `Product` (with `Dot`, accumulated from zero in increasing index order) and `Trans` are the operations' meanings.
- `RowTasks` (`row_tasks.dfy`): the goroutine bodies, which are identical in the two files. Each is a method on the shared output array `c`. The array is made as `new seq<real>[n](_ => [])`, the model of `make(Matrix, n)` with nil rows. A task's postcondition is that `c` afterwards is the old `c` with row `i` replaced by row `i` of the result, and every other row unchanged. Rows are updated entry by entry, as `c[i][j] = …` and `c[i][j] += …` do.
- `MatrixGo` (`matrix_go.dfy`) and `MyPackage` (`my_package.dfy`): one module per source file. The validation comes first and returns before anything is allocated. The WaitGroup fan-out is a sequential loop over rows, whose invariant says that rows below `i` are finished and the rest are still nil.
- `MatrixLaws` (`laws.dfy`): properties of the reference definitions. It proves that transposing twice is the identity when there is at least one column. It proves that the row tasks give the same output whatever order they finish in, that the product is associative with the shapes propagating, and worked examples of each operation.
- `Scenarios` (`scenarios.dfy`): callers of both versions on worked examples, showing that the method contracts alone determine the outputs, including the mismatch errors.
- `Wrappers` (`wrappers.dfy`): `Option` for the printing version and `Result` for the error-returning version.

Inputs are Dafny values, so no operation can change `a` or `b`.

The source demands some things of its callers, because it panics without them. The model states these as preconditions:

- every operand is rectangular, since only the first row's length is ever checked;
- for `Add`, `len(a) > 0` when the row counts agree, because Go's `||` reads `a[0]` only once `len(a) == len(b)` has been found; with different row counts it reports the mismatch;
- for `Multiply` and `Transpose`, `len(a) > 0`, because `a[0]` is read first;
- for `Multiply`, `len(b) > 0` whenever the shapes agree, because `b[0]` is read only once the check has passed.

The bare `return` at `matrix.go:31` and `matrix.go:54` does not compile in a function that returns a `Matrix`. The model takes its evident intent, "no matrix", as `None`.

## Model

| member | source | states |
|---|---|---|
| `Matrices.Sum` | matrix.go:33-46 | the sum of two same-shaped matrices has the rows of `a`, is rectangular and has the columns of `a` |
| `Matrices.Product` | matrix.go:56-72 | the product has `len(a)` rows, is rectangular and has the column count of `b` |
| `Matrices.Trans` | matrix.go:76-82 | the transpose has `len(a[0])` rows, is rectangular and each row has `len(a)` entries |
| `RowTasks.AddRow` | matrix.go:37-43 | the `Add` row task sets `c[i]` to row `i` of the sum and leaves every other row of `c` unchanged |
| `RowTasks.MultiplyRow` | matrix.go:60-68 | the `Multiply` row task sets `c[i]` to row `i` of the product, accumulated from zero over `k` in order, and leaves every other row unchanged |
| `RowTasks.TransposeRow` | matrix.go:87-92 | the `Transpose` column task fills output row `col` with column `col` of `a` and leaves every other output row unchanged |
| `MatrixGo.New` | matrix.go:15-25 | `rows` rows of `cols` entries, filled in row-major order from the random stream, every entry in [0, 1) |
| `MatrixGo.Add` | matrix.go:28-47 | no matrix exactly when the row counts or first-row lengths differ; otherwise `len(a)` rows, row `i` of length `len(a[i])`, `c[i][j] == a[i][j] + b[i][j]` |
| `MatrixGo.Multiply` | matrix.go:51-72 | no matrix exactly when `len(a[0]) != len(b)`; otherwise `len(a)` rows of `len(b[0])` entries with `c[i][j]` the sum over `k` of `a[i][k]*b[k][j]` |
| `MatrixGo.Transpose` | matrix.go:75-97 | `len(a[0])` rows of `len(a)` entries with `t[col][row] == a[row][col]` |
| `MatrixGo.TimeAdd` | matrix.go:100-105 | returns exactly what `Add` returns, including "no matrix" |
| `MatrixGo.TimeMultiply` | matrix.go:108-113 | returns exactly what `Multiply` returns, including "no matrix" |
| `MatrixGo.TimeTranspose` | matrix.go:116-121 | returns exactly the transpose |
| `MyPackage.Add` | myPackage.go:28-46 | the error exactly when the row counts or first-row lengths differ; otherwise no error, `len(a)` rows, row `i` of length `len(a[i])`, `c[i][j] == a[i][j] + b[i][j]` |
| `MyPackage.Multiply` | myPackage.go:50-70 | the error exactly when `len(a[0]) != len(b)`; otherwise no error and a `len(a)` by `len(b[0])` matrix with `c[i][j]` the sum over `k` of `a[i][k]*b[k][j]` |
| `MyPackage.TimeAdd` | myPackage.go:73-78 | returns the same matrix and the same error as `Add`, on both paths |
| `MyPackage.TimeMultiply` | myPackage.go:81-86 | returns the same matrix and the same error as `Multiply`, on both paths |
| `MatrixLaws.TransposeInvolutive` | matrix.go:75-97 | transposing a rectangular matrix with at least one column twice gives the matrix back |
| `MatrixLaws.TransposeOfEmptyRows` | matrix.go:76-81 | with no columns the round trip fails: `[[]]` transposes to `[]`; the reference `Trans` maps `[]` to `[]` again, whereas the source's `Transpose([])` panics reading `a[0]` at line 77 |
| `MatrixLaws.AnyOrderGivesResult` | matrix.go:34-45 | in whatever order the row tasks complete, once every unfinished row's task has run, the output equals the result |
| `MatrixLaws.AddInAnyOrder` | matrix.go:34-46 | the real `Add` row tasks, completing in any order, leave the output `RunTasks` predicts, and the sum once every row has had its task |
| `MatrixLaws.MultiplyInAnyOrder` | matrix.go:57-71 | the real `Multiply` row tasks, completing in any order, leave the output `RunTasks` predicts, and the product once every row has had its task |
| `MatrixLaws.TransposeInAnyOrder` | matrix.go:86-96 | the real `Transpose` column tasks, completing in any order, leave the output `RunTasks` predicts, and the transpose once every column has had its task |
| `MatrixLaws.SameOutputEveryRun` | myPackage.go:33-44 | two runs of the fan-out over all rows, in any two completion orders, give identical output |
| `MatrixLaws.ProductAssociative` | matrix.go:51-72 | `(a*b)*c == a*(b*c)`, with both products conformable |
| `MatrixLaws.SumExample` | matrix.go:28-47 | `[[1,2],[3,4]] + [[5,6],[7,8]] == [[6,8],[10,12]]` |
| `MatrixLaws.ProductExample` | matrix.go:51-72 | `[[1,2],[3,4]] * [[5,6],[7,8]] == [[19,22],[43,50]]` |
| `MatrixLaws.RowTimesColumnExample` | myPackage.go:50-70 | `[[1,2,3]] * [[1],[2],[3]] == [[14]]` |
| `MatrixLaws.TransExample` | matrix.go:75-97 | the transpose of `[[1,2,3],[4,5,6]]` is `[[1,4],[2,5],[3,6]]` |
| `Scenarios.AddTwoByTwo` | myPackage.go:28-46 | `Add` of the two 2x2 examples succeeds with `[[6,8],[10,12]]` |
| `Scenarios.AddColumnMismatch` | myPackage.go:29-31 | `Add([[1,2]], [[1,2,3]])` fails with the shape-mismatch error |
| `Scenarios.AddRowCountMismatch` | myPackage.go:29-31 | `Add([], [[1]])` fails with the shape-mismatch error, without reading `a[0]` |
| `Scenarios.MultiplyInnerMismatch` | myPackage.go:51-53 | multiplying two 1x3 matrices fails with the shape-mismatch error |
| `Scenarios.MultiplyTwoByTwo` | myPackage.go:50-70 | `Multiply` of the two 2x2 examples succeeds with `[[19,22],[43,50]]` |
| `Scenarios.MultiplyRowByColumn` | myPackage.go:54-69 | a 1x3 row times a 3x1 column succeeds with `[[14]]` |
| `Scenarios.TransposeTwoByThree` | matrix.go:75-97 | `Transpose` of the 2x3 example gives its 3x2 transpose, and transposing that gives the original back |

## Left out

- Goroutines and `sync.WaitGroup`: the fan-out and join are a sequential loop over rows. Each task writes only its own row, as its postcondition states. `RunTasks` treats each task as one atomic step. Instruction-level interleavings are therefore not modelled. They cannot change the result, because the tasks' writes are disjoint.
- float64 arithmetic: elements are `real`, so sums and products are exact. IEEE-754 rounding, NaN and overflow are not modelled.
- The elapsed `time.Duration` of the timed wrappers, and the clock (`time.Now`, `time.Since`): the wrappers return only the operation's result.
- The message printed by `fmt.Println` in `matrix.go`, and the text of the `myPackage.go` error: the failure is `None`, or the single error value `ShapeMismatch`.
- The random generator and its seeding from the clock in `New`: the values `rand.Float64()` would produce are a parameter `draws`, and the model assumes each lies in [0, 1).
- `New` in `myPackage.go` (lines 15-25) is the same code as in `matrix.go` and is modelled once, by `MatrixGo.New`.
- Allocation on the error path: results are values, so whether `make` ran is not observable. In every method the mismatch check returns before the output array is created.
- Slices as shared references: a row is a sequence value, so aliasing between rows or with the inputs is not modelled. The source creates every output row fresh.
- Ragged matrices: every operand must be `Rectangular`. The source checks only the first row's length. Some ragged inputs then index out of range and others return a result; the model excludes all of them.
- Zero-row operands: `Multiply` and `Transpose` require `len(a) > 0`, because the source reads `a[0]` and panics on an empty matrix. `Add` requires it only when `len(b)` is also 0, the one case where it reaches `a[0]`; with different row counts it reports the mismatch. `Multiply` also requires `len(b) > 0` when the shapes agree. A matrix whose rows are all empty, times a matrix with no rows, passes the check and then panics at `b[0]`.
