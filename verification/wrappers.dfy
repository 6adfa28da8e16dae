/** Option and Result for the library's `(value, ok)` and `(value, err)` returns. */
module Wrappers {

  /** An optional value: the `(value, ok)` pairs of the library. */
  datatype Option<+T> = None | Some(value: T)

  /** Either a value or the reason the operation failed. */
  datatype Result<+R, +E> = Success(value: R) | Failure(error: E)
}
