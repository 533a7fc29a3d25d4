/** Option and Result, for optional values and for the exceptions the source raises. */
module Wrappers {

  datatype Option<+T> = None | Some(value: T) {
    function GetOr(default: T): T {
      match this
      case Some(v) => v
      case None => default
    }
  }

  /** `Err` carries the name and message of a Python exception that escapes the call. */
  datatype Result<+T> = Ok(value: T) | Err(error: string)
}
