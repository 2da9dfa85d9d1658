/** Option and Result, the two failure-carrying types used throughout the model. */
module Wrappers {

  datatype Option<+T> = None | Some(value: T)

  /** A computation that either produced a value or raised; `error` is the exception's message. */
  datatype Result<+T> = Ok(value: T) | Err(error: string)
}
