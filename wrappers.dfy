/** Python's `None`-or-value and JavaScript's `null`-or-value, and the outcome of
    a computation that may raise. */
module Wrappers {
  datatype Option<+T> = None | Some(value: T)

  /** A value, or the message of the exception raised instead. */
  datatype Result<+T> = Success(value: T) | Failure(error: string)
}
