/** Option and Result, the two shapes in which Go's `(value, error)` returns are modelled. */
module Wrappers {

  datatype Option<+T> = None | Some(value: T)

  datatype Result<+R, +E> = Success(value: R) | Failure(error: E)
}
