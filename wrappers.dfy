/** Failure-compatible result types shared by the modules of this model. */
module Wrappers {

  datatype Option<+T> = None | Some(value: T)

  /** A value or an error; stands for a Python call that returns or raises. */
  datatype Result<+T, +E> = Ok(value: T) | Err(error: E)

  /** Success without a value, or an error; stands for a call returning None or raising. */
  datatype Outcome<+E> = Pass | Fail(error: E)
}
