/** Optional values and results, used for the nullable fields of the request
    models (`X | None`) and for validators that either return their input or
    raise. */
module Wrappers {

  /** `Some(v)` is a field that was provided; `None` is Python's `None`. */
  datatype Option<+T> = None | Some(value: T) {

    /** The provided value, or `default` when the field is `None`. */
    function GetOr(default: T): T {
      match this
      case Some(v) => v
      case None => default
    }
  }

  /** The outcome of a validator: the validated value, or the error it raised. */
  datatype Result<+R, +E> = Success(value: R) | Failure(error: E)
}
