/** Failure-carrying values used by the pipeline: `Option` for a value that may be absent and
    `Result` for an operation that either succeeds with a value or fails with an error. */
module Wrappers {

  datatype Option<+T> = None | Some(value: T)

  datatype Result<+T, +E> = Ok(value: T) | Err(error: E)
}
