/** Optional values and results, standing in for JavaScript's null/undefined
    and for Python exceptions that end a computation. */
module Wrappers {

  /** A value that may be missing (`null`/`undefined`, or a `None` cell). */
  datatype Option<+T> = None | Some(value: T) {

    /** The value, or `default` when it is missing (Python's `x if x else ""`). */
    function GetOr(default: T): T {
      match this
      case Some(v) => v
      case None => default
    }
  }

  /** Either a value or the reason the computation stopped. */
  datatype Result<+T, +E> = Ok(value: T) | Err(error: E)
}
