/** Optional values and success-or-error outcomes, as returned by the tag store. */
module Wrappers {

  /** Python's `None` or a value. */
  datatype Option<+T> = None | Some(value: T)

  /** A returned value, or one of the exceptions an operation raises. */
  datatype Result<+R, +E> = Success(value: R) | Failure(error: E)
}
