/** Plain sum types that stand in for exceptions and nullable values
    throughout the model: each is matched on explicitly. */
module Wrappers {

  /** A value that may be absent (Python's `None`, TypeScript's `null`/`undefined`). */
  datatype Option<+T> = None | Some(value: T)

  /** Either a computed value or the error that aborted the computation. */
  datatype Result<+T, +E> = Ok(value: T) | Err(error: E)

  /** A check that either passes or fails with an error, carrying no value. */
  datatype Outcome<+E> = Pass | Fail(error: E)
}
