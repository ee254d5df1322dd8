/** Failure-carrying result types shared by the model. */
module Wrappers {

  datatype Option<T> = None | Some(value: T)

  /** The outcome of a Rust call that either returns a value or panics
      (an `unwrap` of `None`, an index out of bounds). */
  datatype Result<T> = Ok(value: T) | Panic
}
