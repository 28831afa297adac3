/** Option and Result values standing in for Python's None and raised exceptions. */
module Wrappers {

  datatype Option<+T> = None | Some(value: T)

  datatype Result<+R, +E> = Success(value: R) | Failure(error: E)

  /** Pass or Fail with an error value, for operations that only succeed or raise. */
  datatype Outcome<+E> = Pass | Fail(error: E)
}
