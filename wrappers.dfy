/** Optional values and the outcome of a call into the vector-store client. */
module Wrappers {

  /** Python's `None` or a value. */
  datatype Option<+T> = None | Some(value: T)

  /** The outcome of a client call: a value, or the message of the exception it raised. */
  datatype Result<+T> = Ok(value: T) | Err(message: string)
}
