/** Failure-carrying values shared by the configuration loader and the summary builder. */
module Wrappers {

  /** A value that may be absent: a nil pointer in the Go program. */
  datatype Option<+T> = None | Some(value: T)

  /** A value or the error that was returned instead of it. */
  datatype Result<+T, +E> = Ok(value: T) | Err(error: E)
}
