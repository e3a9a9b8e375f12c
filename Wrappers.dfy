/** Option, Result and Outcome: the shapes in which the model returns a Go
    value that may be absent, a (value, error) pair, and a bare `error`. */
module Wrappers {

  datatype Option<+T> = None | Some(value: T)

  datatype Result<+R, +E> = Success(value: R) | Failure(error: E)

  /** A Go `error` result on its own: `Pass` is `nil`. */
  datatype Outcome<+E> = Pass | Fail(error: E)
}
