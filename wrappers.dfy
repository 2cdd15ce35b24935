/** Option and Result, used for the Go client's nil pointers and (value, error) returns. */
module Wrappers {

  /** A value that may be absent (a nil pointer in the Go client). */
  datatype Option<+T> = None | Some(value: T)

  /** The outcome of an operation that returns either a value or an error. */
  datatype Result<+R, +E> = Success(value: R) | Failure(error: E)
}
