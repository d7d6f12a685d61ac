/** Failure-compatible wrappers shared by the model: a Go `nil` pointer or a
    missing value becomes `None`, a `(value, error)` pair becomes a `Result`. */
module Wrappers {

  datatype Option<+T> = None | Some(value: T)

  datatype Result<+T, +E> = Success(value: T) | Failure(error: E)
}
