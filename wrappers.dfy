/** Option and Result: the values the model uses where the source has None and raised exceptions. */
module Wrappers {

  /** A value that may be absent, such as the last stored measurement interval. */
  datatype Option<+T> = None | Some(value: T)

  /** The outcome of a computation that may raise: a value, or the error it raised. */
  datatype Result<+T, +E> = Ok(value: T) | Err(error: E)
}
