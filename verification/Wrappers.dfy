/** The result types shared by every component of the model. */
module Wrappers {

  /** A nullable column or an optional answer. */
  datatype Option<+T> = None | Some(value: T)

  /** A value or the error that a Go function returns in its place. */
  datatype Result<+T, +E> = Ok(value: T) | Err(error: E)
}
