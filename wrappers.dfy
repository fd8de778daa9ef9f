/** Option and Result, used for JavaScript's `undefined`/`null` and for handler errors. */
module Wrappers {

  datatype Option<+T> = None | Some(value: T)

  /** The outcome of a server-side decision: a value, or the message of a 400 response. */
  datatype Result<+T> = Ok(value: T) | Err(error: string)
}
