/** Option and Result, the two failure-carrying values the model uses for Rust's
    `Option<T>` and `Result<T, anyhow::Error>`. */
module Wrappers {

  datatype Option<+T> = None | Some(value: T)

  datatype Result<+T, +E> = Success(value: T) | Failure(error: E)
}
