/** Failure-carrying result types shared by the model's modules. */
module Wrappers {

  /** A value that may be absent, standing for a pointer that may be null. */
  datatype Option<+T> = None | Some(value: T)

  /** Either a value or the reason an operation gave up. */
  datatype Result<+T, +E> = Ok(value: T) | Err(error: E)
}
