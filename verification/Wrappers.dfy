/** The two result shapes the models share: an optional value, and a Go
    `(value, error)` pair of which exactly one side is meaningful. */
module Wrappers {
  datatype Option<+T> = None | Some(value: T)

  datatype Result<+T, +E> = Ok(value: T) | Err(error: E)
}
