/** Option and Result, the two shapes the modelled code returns: an optional value and a value or an error. */
module Wrappers {

  datatype Option<+T> = None | Some(value: T)

  /** Rust's `Result<T, E>`: a value on success, an error otherwise. */
  datatype Result<+T, +E> = Success(value: T) | Failure(error: E)
}
