/** Option and Result: the values a Python expression yields when it may be
    absent (`dict.get`) or may raise (a fetch, a regex compile, a detector). */
module Wrappers {

  datatype Option<+T> = None | Some(value: T) {
    function GetOr(default: T): T {
      match this
      case Some(v) => v
      case None => default
    }
  }

  /** `Err` carries the text `str(exc)` of the exception that was raised. */
  datatype Result<+T> = Ok(value: T) | Err(message: string)
}
