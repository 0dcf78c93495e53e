/** Wrapper datatypes used across the order model: an optional
    value (a field the request or the database may leave undefined) and the
    outcome of an operation that either produces a value or reports an error. */
module Wrappers {

  datatype Option<+T> = None | Some(value: T) {

    /** The wrapped value, or `default` when absent (JavaScript's
        destructuring default `{ x = default }`). */
    function GetOr(default: T): T {
      match this
      case Some(v) => v
      case None => default
    }
  }

  datatype Result<+R, +E> = Success(value: R) | Failure(error: E)
}
