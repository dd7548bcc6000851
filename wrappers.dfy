/** Failure-carrying value types shared by the modules of this model:
    Rust's `Option<T>` and `Result<T, E>`, and `Result<(), E>` as `Outcome<E>`. */
module Wrappers {

  datatype Option<+T> = None | Some(value: T)

  datatype Result<+T, +E> = Ok(value: T) | Err(error: E)

  /** A `Result` that carries no success value (Rust's `Result<(), E>`). */
  datatype Outcome<+E> = Pass | Fail(error: E)
}
