/** Option and Result: the two failure-carrying datatypes of the model. */
module Wrappers {

  /** A value that may be absent (SQL NULL, a missing JSON field). */
  datatype Option<+T> = None | Some(value: T)

  /** The outcome of a step that may fail with an error of type E. */
  datatype Result<+T, +E> = Ok(value: T) | Err(error: E)
}
