/** Optional values and results, standing in for Python's `None` and for raised exceptions. */
module Wrappers {

  datatype Option<+T> = None | Some(value: T) {
    function GetOr(default: T): T {
      match this
      case Some(v) => v
      case None => default
    }
  }

  datatype Result<+R, +E> = Ok(value: R) | Err(error: E)

  /** The failure that `raise_for_status()` raises for an error status. */
  const HttpErrorStatus: string := "HTTP error status"
}
