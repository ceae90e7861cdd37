/** The exception kinds the boat class throws, and the wrappers that carry them. */
module Outcomes {

  /** The three Java exception kinds: NullPointerException, IllegalArgumentException, IllegalStateException. */
  datatype Error = NullPointer | IllegalArgument | IllegalState

  /** A reference parameter that the caller may pass as null. */
  datatype Option<T> = None | Some(value: T)

  /** The value an operation returns, or the exception it throws. */
  datatype Result<T> = Ok(value: T) | Err(error: Error)

  /** The outcome of an operation that returns nothing (Java `void`). */
  datatype Outcome = Pass | Fail(error: Error)
}
