/** Failure-carrying values shared by every module of the model. */
module Wrappers {

  datatype Option<+T> = None | Some(value: T)

  /** A thrown error (`Err`) or the value a step produced (`Ok`). */
  datatype Result<+T> = Ok(value: T) | Err(message: string)

  /** The outcome of a validator that either passes or throws. */
  datatype Outcome = Pass | Fail(message: string)
}
