/** Option and Result, the two wrappers the model uses for nullable values and thrown exceptions. */
module Wrappers {

  /** A value that may be absent: Kotlin's `T?`, Java's nullable reference. */
  datatype Option<+T> = None | Some(value: T) {
    /** The wrapped value, or `default` when there is none. */
    function GetOr(default: T): (r: T)
      ensures Some? ==> r == value
      ensures None? ==> r == default
    {
      match this
      case Some(v) => v
      case None => default
    }
  }

  /** Either a value or the error a call raised instead of returning. */
  datatype Result<+R, +E> = Success(value: R) | Failure(error: E)
}
