/** Option and Result, the two failure-carrying datatypes used throughout the model. */
module Wrappers {

  /** A value that may be absent (Python's `None`). */
  datatype Option<+T> = None | Some(value: T)

  /** Either a value or the error a Python call would raise. */
  datatype Result<+T, +E> = Ok(value: T) | Err(error: E)
}
