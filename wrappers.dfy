/** Failure-carrying values shared by every module of the ledger model:
    Rust's `Option<T>`, `Result<T, E>` and a value-less `Result<(), E>`. */
module Wrappers {

  datatype Option<+T> = None | Some(value: T)

  datatype Result<+T, +E> = Success(value: T) | Failure(error: E)

  /** `Result<(), E>`: the operation either passes or fails with an error. */
  datatype Outcome<+E> = Pass | Fail(error: E)
}
