/** Optional values and failure-carrying results used across the cart model. */
module Wrappers {

  /** A value that may be absent, as Python's `None` or a missing dict entry. */
  datatype Option<+T> = None | Some(value: T)

  /** The outcome of an operation that can raise: a value or the raised error. */
  datatype Result<+R, +E> = Success(value: R) | Failure(error: E)
}
