/** Optional values and error-carrying results: PHP's nullable values and thrown exceptions. */
module Wrappers {

  /** A PHP `?T`: either null or a value. */
  datatype Option<+T> = None | Some(value: T)

  /** The value an operation returns, or the exception it throws. */
  datatype Result<+R, +E> = Success(value: R) | Failure(error: E)

  /** An operation that returns nothing useful, or throws. */
  datatype Outcome<+E> = Pass | Fail(error: E)
}
