/** Option and Result values shared by the whole model. */
module Wrappers {

  datatype Option<+T> = None | Some(value: T)

  /** The outcome of a request handler or library call that can fail with an error of type E. */
  datatype Result<+T, +E> = Ok(value: T) | Err(error: E)
}
