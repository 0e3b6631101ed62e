/** Option and Result, the two shapes every operation of the model returns. */
module Wrappers {

  /** A value that may be absent: a Go pointer that may be nil. */
  datatype Option<+T> = None | Some(value: T)

  /** The (value, error) pair a Go function returns, with exactly one side set. */
  datatype Result<+T, +E> = Success(value: T) | Failure(error: E)
}
