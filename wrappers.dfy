/** Option and Result, the two failure-carrying shapes the rest of the model uses. */
module Wrappers {

  datatype Option<+T> = None | Some(value: T)

  /** A synchronous stand-in for a JavaScript call that either returns or throws. */
  datatype Result<+T, +E> = Ok(value: T) | Err(error: E)
}
