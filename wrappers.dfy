/** Go's `nil`-able values and `(value, error)` returns, as datatypes. */
module Wrappers {

  /** A value that may be absent (a nil pointer, or a nil `error`). */
  datatype Option<+T> = None | Some(value: T)

  /** A `(value, error)` pair in which exactly one side is meaningful. */
  datatype Result<+T, +E> = Success(value: T) | Failure(error: E)
}
