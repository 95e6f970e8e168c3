/** Option and Result, used for the missing cells of the table and for the
    outcome of loading it. */
module Wrappers {

  /** A value that may be absent: a missing (NaN) cell of the table. */
  datatype Option<+T> = None | Some(value: T)

  /** The outcome of an operation that can fail with an error value. */
  datatype Result<+R, +E> = Success(value: R) | Failure(error: E)
}
