/** Result types used in place of Java's null returns and
    of the messages the console layer prints when an input is rejected. */
module Wrappers {

  /** `None` stands for a Java `null` reference. */
  datatype Option<+T> = None | Some(value: T) {
    function GetOr(default: T): T {
      match this
      case Some(v) => v
      case None => default
    }
  }

  /** The outcome of an engine operation: the caller's updated account or the
      reason the attempt was rejected. */
  datatype Result<+R, +E> = Success(value: R) | Failure(error: E)

  /** The outcome of a validator: accepted, or the reason it was rejected. */
  datatype Outcome<+E> = Pass | Fail(error: E)
}
