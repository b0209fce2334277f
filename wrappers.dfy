/** Small failure-carrying datatypes shared by the modules of the model. */
module Wrappers {

  datatype Option<+T> = None | Some(value: T)

  datatype Result<+T, +E> = Ok(value: T) | Err(error: E)

  /** The outcome of a step that produces no value: Go's `error` return, nil or not. */
  datatype Outcome<+E> = Pass | Fail(error: E)
}
