/** Optional values, results carrying an error code, and the unit value. */
module Wrappers {

  datatype Option<+T> = None | Some(value: T) {
    /** The value, or `default` when there is none (the source's `or_else`/`value_or`). */
    function GetOr(default: T): T {
      match this
      case Some(v) => v
      case None => default
    }
  }

  /** `sl::meta::result` / `tl::expected`: a value or an error. */
  datatype Result<+T, +E> = Success(value: T) | Failure(error: E)

  datatype Unit = Unit
}
