/** Option and Result values shared by the modules of the model. */
module Wrappers {

  /** A value that may be absent: JavaScript's `null` (or a missing field) is `None`. */
  datatype Option<+T> = None | Some(value: T)

  /** The outcome of an operation that either returns a value or throws an `Error` with a message. */
  datatype Result<+T> = Ok(value: T) | Err(error: string)
}
