/** Failure-carrying values shared by the command models. */
module Wrappers {

  datatype Option<+T> = None | Some(value: T)

  /** The outcome of a command: a value, or the error reply the command sends. */
  datatype Result<+T, +E> = Ok(value: T) | Err(error: E)
}
