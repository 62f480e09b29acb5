/** Optional values and the outcome of a remote call. */
module Wrappers {

  /** A value that may be absent (`undefined` on the TypeScript side). */
  datatype Option<+T> = None | Some(value: T) {
    function GetOr(default: T): T {
      match this
      case Some(v) => v
      case None => default
    }
  }

  /** Why a remote call failed; the transport's details are not modelled. */
  datatype FetchError = FetchError(message: string)

  /** The settled state of a promise: resolved with a value or rejected. */
  datatype Result<+T> = Ok(value: T) | Err(error: FetchError)
}
