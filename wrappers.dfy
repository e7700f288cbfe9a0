/** Optional values and the two outcome shapes used for Java's nullable fields and exceptions. */
module Wrappers {

  /** A Java reference that may be null. */
  datatype Option<+T> = None | Some(value: T)

  /** A decision that either yields a value or fails with a domain error (a thrown exception). */
  datatype Result<+T, +E> = Success(value: T) | Failure(error: E) {
    function ToOutcome(): Outcome<E> {
      match this
      case Success(_) => Pass
      case Failure(e) => Fail(e)
    }
  }

  /** A command that returns nothing, or fails with an error. */
  datatype Outcome<+E> = Pass | Fail(error: E)
}
