/** Option and Result, used for the router's optional state and its error paths. */
module Wrappers {

  datatype Option<+T> = None | Some(value: T) {

    /** The value in Some, or `default` for None. */
    function GetOr(default: T): T {
      match this
      case Some(v) => v
      case None => default
    }
  }

  datatype Result<+R, +E> = Success(value: R) | Failure(error: E)
}
