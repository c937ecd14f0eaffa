/** Option and Result, the shapes used for JavaScript's `null`/missing values
    and for operations that can throw. */
module Wrappers {

  /** `None` stands for a JavaScript `null`/`undefined` (or a falsy NaN where noted). */
  datatype Option<+T> = None | Some(value: T)
  {
    function GetOr(default: T): T {
      match this
      case Some(v) => v
      case None => default
    }
  }

  /** `Failure` stands for a promise that rejected or a call that threw. */
  datatype Result<+R, +E> = Success(value: R) | Failure(error: E)
}
