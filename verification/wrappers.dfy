/** Optional values and results with an error, standing for JavaScript's
    `null`/`undefined` and for thrown exceptions. */
module Wrappers {

  datatype Option<+T> = None | Some(value: T) {
    /** `x ?? d` */
    function GetOr(default: T): T {
      match this
      case Some(v) => v
      case None => default
    }
  }

  datatype Result<+R, +E> = Ok(value: R) | Err(error: E)

  /** A promise of no value: resolved, or rejected with an error. */
  datatype Outcome<+E> = Pass | Fail(error: E)
}
