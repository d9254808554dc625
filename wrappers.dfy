/** Optional values and the success-or-thrown-error outcome of a JavaScript expression. */
module Wrappers {

  /** A value that may be missing. */
  datatype Option<+T> = None | Some(value: T)

  /** Either a value, or the error an expression threw. */
  datatype Result<+T, +E> = Success(value: T) | Failure(error: E)
}
