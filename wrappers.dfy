/** Failure-carrying values shared by the modules of the model. */
module Wrappers {

  datatype Option<+T> = None | Some(value: T)

  /** The outcome of an operation that can fail: an `unwrap` on a missing value in the
      source becomes an `Err` here, so that callers see the failure path. */
  datatype Result<+T, +E> = Ok(value: T) | Err(error: E)
}
