/** Optional values and results with an error message, used for Python's `None` and raised errors. */
module Outcomes {

  /** A value that may be absent (Python's `None`). */
  datatype Option<T> = None | Some(value: T)

  /** The outcome of an operation that can raise: its value, or the message of the error raised. */
  datatype Result<T> = Ok(value: T) | Err(message: string)
}
