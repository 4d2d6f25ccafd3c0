/**
 * The `Option` and `Result` shapes the Rust code returns, and the outcome
 * of an operation that may abort the program with a `panic!` (a failed
 * `assert!`, a debug-build integer overflow, an `unwrap` of `None`).
 */
module Wrappers {
  datatype Option<T> = None | Some(value: T)

  datatype Result<T, E> = Ok(value: T) | Err(error: E)

  datatype Outcome<T> = Normal(value: T) | Panic
}
