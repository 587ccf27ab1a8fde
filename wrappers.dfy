/** Failure-carrying values used for the Go functions' (value, error) returns. */
module Wrappers {

  /** A value that may be absent (a nil pointer in the source). */
  datatype Option<+T> = None | Some(value: T)

  /** Either a value or the error that replaced it. */
  datatype Result<+R, +E> = Success(value: R) | Failure(error: E)

  /** An `error` return with no accompanying value: nil, or the error. */
  datatype Outcome<+E> = Pass | Fail(error: E)
}
