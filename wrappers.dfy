/** Optional and fallible values, used for JavaScript `null`/`undefined` and thrown errors. */
module Wrappers {

  /** `None` stands for a JavaScript `null` or `undefined`. */
  datatype Option<+T> = None | Some(value: T) {
    function GetOr(default: T): T {
      match this
      case Some(v) => v
      case None => default
    }
  }

  /** `Failure` stands for a thrown error carrying its message. */
  datatype Result<+R, +E> = Success(value: R) | Failure(error: E)
}
