/** Optional values and results, used wherever the server has `undefined`
    or a thrown error. */
module Wrappers {

  /** `None` stands for JavaScript's `undefined`. */
  datatype Option<+T> = None | Some(value: T) {

    function GetOr(default: T): T
    {
      match this
      case Some(v) => v
      case None => default
    }
  }

  /** A value, or the error that replaced it. */
  datatype Result<+R, +E> = Success(value: R) | Failure(error: E)
}
