/** Optional values and error results, standing in for C#'s nullable values and exceptions. */
module Wrappers {

  /** A value that may be absent (`char?`, a null `string`). */
  datatype Option<+T> = None | Some(value: T)

  /** The outcome of an operation that either produces a value or fails with an error. */
  datatype Result<+R, +E> = Success(value: R) | Failure(error: E)
}
