/** Optional values and results with an error, as Go returns them in pairs. */
module Wrappers {

  /** A value that may be missing, like Go's `(T, bool)` or `(T, error)` where the error is dropped. */
  datatype Option<+T> = None | Some(value: T)

  /** Go's `(T, error)` pair when the caller only looks at one of the two. */
  datatype Result<+T, +E> = Success(value: T) | Failure(error: E)
}
