/** Optional values and success/failure results, used for nullable record
    fields, the keys a partial record may omit, and the outcome of every
    store operation and remote call. */
module Wrappers {

  datatype Option<+T> = None | Some(value: T) {

    /** The carried value, or `default` when there is none. */
    function GetOr(default: T): T {
      match this
      case Some(v) => v
      case None => default
    }
  }

  /** Either the value an operation produced or the error it raised. */
  datatype Result<+T, +E> = Ok(value: T) | Err(error: E)
}
