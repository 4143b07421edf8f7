/** Optional values and success-or-failure results shared by the other modules. */
module Wrappers {

  /** A value that may be absent (JavaScript `undefined`/`null`). */
  datatype Option<+T> = None | Some(value: T)

  /** The outcome of an operation that may fail with an error of type E. */
  datatype Result<+R, +E> = Success(value: R) | Failure(error: E)
}
