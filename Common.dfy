/** Small value types shared by the whole model: optional values and the
    results of operations that can fail. */
module Common {

  datatype Option<+T> = None | Some(value: T) {
    /** `x ?? d` for a value that may be absent. */
    function GetOr(default: T): T {
      match this
      case Some(v) => v
      case None => default
    }
  }

  /** The outcome of an operation that either produces a value or throws. */
  datatype Result<+T, +E> = Ok(value: T) | Err(error: E) {
    predicate IsOk() { Ok? }
  }
}
