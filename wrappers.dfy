/** Failure-carrying values: the model's stand-in for a thrown JavaScript error. */
module Wrappers {

  datatype Option<+T> = None | Some(value: T)

  /** The value an async function resolves to, or the error it rejects with. */
  datatype Result<+T, +E> = Success(value: T) | Failure(error: E)

  /** Like Result, for steps that resolve to `void`. */
  datatype Outcome<+E> = Pass | Fail(error: E)
}
