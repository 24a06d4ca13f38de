/** Option and Result, the two failure-aware value types the model uses
    for JavaScript's `null`/`undefined` and for thrown errors. */
module Wrappers {

  datatype Option<+T> = None | Some(value: T) {
    /** `x ?? default` */
    function GetOr(default: T): T {
      match this
      case Some(v) => v
      case None => default
    }
  }

  /** A computation that either returns a value or throws an error carrying a message. */
  datatype Result<+T, +E> = Ok(value: T) | Err(error: E)
}
