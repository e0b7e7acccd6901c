/** Failure-compatible wrappers shared by the other modules. */
module Wrappers {

  /** A value that may be missing: a nil pointer, an absent map key, a JSON key not present. */
  datatype Option<+T> = None | Some(value: T) {

    /** The wrapped value, or `default` when there is none. */
    function GetOr(default: T): T {
      match this
      case Some(v) => v
      case None => default
    }
  }

  /** The outcome of an operation that can be refused with an error. */
  datatype Result<+R, +E> = Success(value: R) | Failure(error: E)
}
