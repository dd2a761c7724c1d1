/** Option and Result: Python's `None`-or-value and raised-exception-or-value. */
module Wrappers {

  /** A value that may be absent (Python's `Optional[...]`). */
  datatype Option<+T> = None | Some(value: T)

  /** The outcome of a call that may raise: a value, or an error carrying its reason. */
  datatype Result<+T, +E> = Success(value: T) | Failure(error: E)
}
