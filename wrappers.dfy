/** Option and Result: the model's stand-ins for Go's nil results and error returns. */
module Wrappers {

  datatype Option<+T> = None | Some(value: T)

  /** A Go `(T, error)` pair: either a value, or an error carrying its message. */
  datatype Result<+T, +E> = Success(value: T) | Failure(error: E)
}
