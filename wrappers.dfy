/** Failure-compatible result types used for the error paths of the model. */
module Wrappers {

  datatype Option<+T> = None | Some(value: T)

  /** A computation that either yields a value or fails with an error. */
  datatype Result<+R, +E> = Success(value: R) | Failure(error: E)

  /** A computation that yields no value and either passes or fails. */
  datatype Outcome<+E> = Pass | Fail(error: E)
}
