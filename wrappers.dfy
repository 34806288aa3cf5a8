/** Wrappers for the scripts' `None` returns and raised exceptions. */
module Wrappers {

  /** A value that may be missing (Python's `Optional`). */
  datatype Option<+T> = None | Some(value: T)

  /** Either a value or the error a Python call would have raised. */
  datatype Result<+T, +E> = Success(value: T) | Failure(error: E)
}
