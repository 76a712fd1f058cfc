/** Failure-carrying results used by the two versions of the matrix API. */
module Wrappers {

  /** A value or nothing: the "no matrix" outcome of the printing version. */
  datatype Option<+T> = None | Some(value: T)

  /** A value or an error: the `(Matrix, error)` pair of the error-returning version. */
  datatype Result<+T, +E> = Success(value: T) | Failure(error: E)
}
