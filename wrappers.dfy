/** Failure-carrying results used where the C# code throws or returns a default. */
module Wrappers {
  /** A value, or the `default`/`null` the C# code returns when there is none. */
  datatype Option<+T> = None | Some(value: T)

  /** A value, or the exception the C# code throws instead of returning. */
  datatype Result<+T, +E> = Ok(value: T) | Err(error: E)

  /** A call that returns nothing, or the exception it throws. */
  datatype Outcome<+E> = Pass | Fail(error: E)
}
