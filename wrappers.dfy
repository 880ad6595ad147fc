// Option and Result wrappers shared by the other modules.
module Wrappers {

  /** A value that may be absent: Go's nil pointer, nil func or nil channel. */
  datatype Option<+T> = None | Some(value: T)

  /** The result of a Go call that returns a value and an error. */
  datatype Result<+T, +E> = Success(value: T) | Failure(error: E)
}
