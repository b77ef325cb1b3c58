/** Option and Result, the shapes in which the model returns "nothing" and "an exception". */
module Wrappers {

  datatype Option<+T> = None | Some(value: T)

  /** `Err` stands for a Python exception raised by a collaborator. */
  datatype Result<+T, +E> = Ok(value: T) | Err(error: E)
}
