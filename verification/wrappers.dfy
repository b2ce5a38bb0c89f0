/** Option and Result datatypes shared by every module of the model. */
module Wrappers {

  /** A value that may be absent: Go's nil pointer, a missing map entry, an untaken branch. */
  datatype Option<+T> = None | Some(value: T)

  /** A value or an error, for Go functions that return `(T, error)`. */
  datatype Result<+T, +E> = Ok(value: T) | Err(error: E)
}
