/** Optional values and the outcomes of calls that may throw.

    `Option` stands for Kotlin's nullable types and TypeScript's optional
    fields; `Result` and `Outcome` stand for a service call that either
    returns or throws a `RuntimeException` carrying a message. */
module Wrappers {

  datatype Option<+T> = None | Some(value: T)

  /** A call that returns a value, or throws with the given message. */
  datatype Result<+T> = Success(value: T) | Failure(message: string)

  /** A call that returns nothing (Kotlin `Unit`), or throws with the given message. */
  datatype Outcome = Pass | Fail(message: string)
}
