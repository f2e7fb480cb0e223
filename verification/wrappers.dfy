/** Optional values and success/failure results shared by the other modules. */
module Wrappers {

  /** A value that may be missing: an absent JSON property, a key not in a map. */
  datatype Option<+T> = None | Some(value: T) {

    /** The value, or `default` when there is none. */
    function GetOr(default: T): T {
      match this
      case Some(v) => v
      case None => default
    }
  }

  /** A JavaScript `Error`, thrown or used as a rejection reason; only its message is kept. */
  datatype JsError = JsError(message: string)

  /** The outcome of a step that either returns a value or throws. */
  datatype Result<+R, +E> = Success(value: R) | Failure(error: E)
}
