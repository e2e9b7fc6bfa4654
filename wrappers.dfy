/** Option and Result, the two failure-carrying wrappers the model uses. */
module Wrappers {

  /** An optional value: a nullable or absent column, an optional field of an insert or patch. */
  datatype Option<+T> = None | Some(value: T) {
    function GetOr(default: T): T {
      match this
      case Some(v) => v
      case None => default
    }
  }

  /** The outcome of a request: the data, or the error the call throws. */
  datatype Result<+T, +E> = Success(value: T) | Failure(error: E)
}
