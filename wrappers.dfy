/** Optional values and the outcome of an operation that may throw. */
module Wrappers {

  /** A value that may be absent (`null` or `undefined` in the source). */
  datatype Option<+T> = None | Some(value: T)

  /** The result of a request handler: its data, or the error it throws. */
  datatype Result<+T, +E> = Success(value: T) | Failure(error: E)
}
