/** Values shared by every module of the model: absent values and thrown errors. */
module Common {

  /** A value that may be absent: the model of JavaScript's `null` and `undefined`. */
  datatype Option<+T> = None | Some(value: T) {

    /** JavaScript's `x ?? d`: the value when present, otherwise `d`. */
    function GetOr(d: T): T {
      match this
      case Some(v) => v
      case None => d
    }
  }

  /** The outcome of an operation that can throw: a value, or the error it throws. */
  datatype Result<+T, +E> = Success(value: T) | Failure(error: E)
}
