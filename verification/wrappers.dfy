/** Failure-carrying result types shared by the other modules. */
module Wrappers {

  /** A value that may be absent: a failed parse, an unset variable. */
  datatype Option<+T> = None | Some(value: T) {

    /** The carried value, or `default` when there is none. */
    function GetOr(default: T): T {
      match this
      case Some(v) => v
      case None => default
    }
  }

  /** Either a value or an error, the model of Go's `(value, error)` pairs. */
  datatype Result<+T, +E> = Success(value: T) | Failure(error: E)
}
