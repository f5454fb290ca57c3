/** Small failure-carrying datatypes shared by the modules of the model. */
module Wrappers {

  /** A value that may be missing: Go's nil pointer or empty lookup result. */
  datatype Option<+T> = None | Some(value: T)

  /** A value or an error, as a Go function returning `(T, error)` does. */
  datatype Result<+T, +E> = Ok(value: T) | Err(error: E)
}
