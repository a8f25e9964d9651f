/** Wrappers: an optional value and a value-or-error. */
module Wrappers {

  datatype Option<+T> = None | Some(value: T) {

    /** `x or default` for an optional `x`. */
    function GetOr(default: T): T {
      match this
      case Some(v) => v
      case None => default
    }
  }

  datatype Result<+R, +E> = Success(value: R) | Failure(error: E)
}
