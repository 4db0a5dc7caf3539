/** Option and Result, the two failure-carrying values the model uses for C's
    NULL pointers and for the errors the extension raises with ereport. */
module Wrappers {

  /** A value that may be absent; `None` stands for a C NULL pointer. */
  datatype Option<+T> = None | Some(value: T) {
    function GetOr(default: T): T {
      match this
      case Some(v) => v
      case None => default
    }
  }

  /** The outcome of an operation that either yields a value or raises an error. */
  datatype Result<+R, +E> = Success(value: R) | Failure(error: E)
}
