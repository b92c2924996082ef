/** Option and Result values shared by the rest of the model. */
module Wrappers {

  /** A value that may be absent; `None` plays the part of JavaScript's `undefined`. */
  datatype Option<+T> = None | Some(value: T)

  /** The outcome of an operation that can be refused. */
  datatype Result<+T, +E> = Ok(value: T) | Err(error: E)
}
