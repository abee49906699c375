/** Optional values and results with an error message: Python's `None` and
    raised exceptions, as values. */
module Wrappers {

  datatype Option<T> = None | Some(value: T) {
    function GetOr(default: T): T {
      match this
      case Some(v) => v
      case None => default
    }
  }

  /** The outcome of a Python call that either returns a value or raises. */
  datatype Result<T> = Ok(value: T) | Err(error: string)
}
