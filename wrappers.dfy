/** Option, Result and Outcome: the model's stand-ins for Go's nil pointers
    and its `(value, error)` / `error` return pairs. */
module Wrappers {

  datatype Option<+T> = None | Some(value: T)

  /** A Go `(T, error)` pair where exactly one side is meaningful. */
  datatype Result<+T, +E> = Success(value: T) | Failure(error: E)

  /** A Go function that returns only an `error`: nil is `Pass`. */
  datatype Outcome<+E> = Pass | Fail(error: E)
}
