/** Small value wrappers shared by every module of the model. */
module Common {

  /** Python's `None`-or-value, TypeScript's `T | null`. */
  datatype Option<+T> = None | Some(value: T) {
    function GetOr(default: T): T {
      match this
      case Some(v) => v
      case None => default
    }
  }

  /** A value, or the error a handler answers with instead. */
  datatype Result<+T, +E> = Success(value: T) | Failure(error: E)
}
