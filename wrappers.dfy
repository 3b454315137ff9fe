/** Option and Result: the absence of a value and the exceptions of the modelled code. */
module Wrappers {

  datatype Option<+T> = None | Some(value: T)

  /** `Err` stands for a Python exception that escapes the modelled call. */
  datatype Result<+T, +E> = Ok(value: T) | Err(error: E)
}
