/** Optional values and results with an error message, used for the
    `null`/`undefined` returns and the thrown errors of the modelled code. */
module Wrappers {
  datatype Option<T> = None | Some(value: T) {
    function GetOr(default: T): T {
      match this
      case None => default
      case Some(v) => v
    }
  }

  datatype Result<T> = Ok(value: T) | Err(error: string)
}
