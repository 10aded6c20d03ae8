/** Optional values and error results shared by the microgrid model. */
module Wrappers {

  /** A value that may be absent (a Python `None`, or a missing dictionary key). */
  datatype Option<+T> = None | Some(value: T) {
    function GetOr(default: T): T {
      match this
      case Some(v) => v
      case None => default
    }
  }

  /** The outcome of an operation that raises on some inputs. */
  datatype Result<+R, +E> = Ok(value: R) | Err(error: E)
}
