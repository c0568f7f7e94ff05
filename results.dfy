/** Failure-carrying values: Go's `(value, error)` pairs and bare `error` returns. */
module Results {

  datatype Option<+T> = None | Some(value: T)

  /** A Go `(value, error)` pair: exactly one of the two is meaningful. */
  datatype Result<+T, +E> = Success(value: T) | Failure(error: E) {

    /** The value, or `default` when this is a failure. */
    function GetOr(default: T): T {
      match this
      case Success(v) => v
      case Failure(_) => default
    }
  }

  /** A Go `error` return: `nil` is `Pass`. */
  datatype Outcome<+E> = Pass | Fail(error: E)
}
