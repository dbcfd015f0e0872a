/** Optional values and success/failure results shared by every module. */
module Wrappers {

  /** A value that may be absent: `undefined`/`null` in the TypeScript sources,
      `None` in the Python scripts. */
  datatype Option<+T> = None | Some(value: T) {
    function GetOr(default: T): T {
      match this
      case Some(v) => v
      case None => default
    }
  }

  /** The outcome of an operation that may fail with an error value. */
  datatype Result<+R, +E> = Success(value: R) | Failure(error: E)
}
