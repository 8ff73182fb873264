/** Failure-compatible result types shared by the modules of this model. */
module Wrappers {

  datatype Option<+T> = None | Some(value: T)

  /** A step that either succeeds with a value or fails with an error. */
  datatype Result<+R, +E> = Success(value: R) | Failure(error: E)

  /** A step that either succeeds without a value or fails with an error
      (a promise that resolves to `undefined` or rejects). */
  datatype Outcome<+E> = Pass | Fail(error: E)
}
