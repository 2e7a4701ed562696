/** Failure-compatible wrappers shared by every module of the model. */
module Results {

  /** A value that may be absent: JavaScript's `undefined` or `null`. */
  datatype Option<+T> = None | Some(value: T) {
    function GetOr(default: T): T {
      match this
      case Some(v) => v
      case None => default
    }
  }

  /** The outcome of an operation that may throw: `Failure` carries what is thrown. */
  datatype Result<+T, +E> = Ok(value: T) | Failure(error: E)
}
