/** Optional values and results with an error, used throughout the model. */
module Wrappers {

  /** Python's `X | None`. */
  datatype Option<+T> = None | Some(value: T)

  /** A value, or the exception the source raises instead. */
  datatype Result<+R, +E> = Success(value: R) | Failure(error: E)
}
