/** Option and Result, used for the source's nullable values and its thrown exceptions. */
module Wrappers {

  /** A value that may be absent: `None` stands for a C# `null`. */
  datatype Option<+T> = None | Some(value: T)

  /** Either a value or the error that the source would throw instead of returning. */
  datatype Result<+T, +E> = Success(value: T) | Failure(error: E)
}
