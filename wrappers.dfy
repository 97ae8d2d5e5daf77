/** Failure-carrying values shared by every module of the model. */
module Wrappers {

  datatype Option<+T> = None | Some(value: T)

  /** A step that either produced a value or raised one of the handler's exceptions. */
  datatype Result<+R, +E> = Ok(value: R) | Err(error: E)
}
