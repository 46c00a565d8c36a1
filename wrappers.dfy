/** Optional values and failure outcomes used across the model. */
module Wrappers {

  /** Python's `Optional[T]`: `None` or a present value. */
  datatype Option<+T> = None | Some(value: T)

  /** The result of an operation that either succeeds with a value or raises. */
  datatype Result<+R, +E> = Success(value: R) | Failure(error: E)
}
