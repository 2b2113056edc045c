/** Option and Result values for operations that can fail. */
module Wrappers {

  datatype Option<+T> = None | Some(value: T)

  /** The outcome of a call that either returns a value or throws with a message. */
  datatype Result<+T> = Ok(value: T) | Err(message: string)
}
