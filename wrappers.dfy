/** Option and Result values: JavaScript's `null`/`undefined` results and
    thrown or reported errors are modelled with these instead of preconditions. */
module Wrappers {

  datatype Option<+T> = None | Some(value: T) {
    function GetOr(default: T): T {
      match this
      case Some(v) => v
      case None => default
    }
  }

  datatype Result<+R, +E> = Success(value: R) | Failure(error: E)
}
