/** Option and Result: the model's stand-ins for a nullable value and for a thrown error. */
module Wrappers {

  /** `None` plays the part of `null`. */
  datatype Option<+T> = None | Some(value: T)

  /** `Err` plays the part of an exception that aborts the computation. */
  datatype Result<+T, +E> = Ok(value: T) | Err(error: E)
}
