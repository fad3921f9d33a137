/** Wrappers used throughout the model: `Option` for the
    source's optional fields and `undefined` lookups, `Result` for operations
    that either produce a value or throw. */
module Wrappers {

  /** An optional value: a field that may be absent (`undefined` or `null`). */
  datatype Option<+T> = None | Some(value: T) {

    /** The value, or `default` when absent (the `??` operator). */
    function GetOr(default: T): T {
      match this
      case Some(v) => v
      case None => default
    }
  }

  /** Either a value or the error that replaced it. */
  datatype Result<+R, +E> = Success(value: R) | Failure(error: E)
}
