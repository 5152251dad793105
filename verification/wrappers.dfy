/** Option and Result: the absent value (Python's None) and the
    value-or-raised-exception outcome of an operation. */
module Wrappers {

  datatype Option<+T> = None | Some(value: T)

  /** Success carries the returned value, Failure the exception raised. */
  datatype Result<+R, +E> = Success(value: R) | Failure(error: E)
}
