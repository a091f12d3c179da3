/** Optional values and results, used where the source has `undefined` or throws. */
module Wrappers {

  /** A value that may be missing: `undefined` in the source. */
  datatype Option<+T> = None | Some(value: T) {

    /** The `??` operator: the value if present, else the default. */
    function GetOr(default: T): T {
      match this
      case Some(v) => v
      case None => default
    }
  }

  /** The outcome of an operation that either returns a value or throws. */
  datatype Result<+T, +E> = Ok(value: T) | Err(error: E)
}
