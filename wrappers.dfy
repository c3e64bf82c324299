/** Option and Result values used where the source returns null or throws. */
module Wrappers {

  /** A value that may be absent: Java's nullable reference. */
  datatype Option<+T> = None | Some(value: T) {
    function GetOr(default: T): T {
      match this
      case Some(v) => v
      case None => default
    }
  }

  /** The outcome of an operation that throws on failure: Java's checked/unchecked exception. */
  datatype Result<+T, +E> = Ok(value: T) | Err(error: E)
}
