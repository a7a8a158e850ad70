/** Option, Result and Outcome: the shapes of Rust's `Option<T>`,
    `anyhow::Result<T>` and `anyhow::Result<()>` in this model. */
module Wrappers {

  datatype Option<+T> = None | Some(value: T)

  datatype Result<+T, +E> = Ok(value: T) | Err(error: E)

  /** A `Result<()>`: either the operation passed or it failed with an error. */
  datatype Outcome<+E> = Pass | Fail(error: E)
}
