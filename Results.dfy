/** Tagged success/failure values: Swift's optionals and thrown errors. */
module Results {

  /** Swift's `T?`. */
  datatype Option<+T> = None | Some(value: T) {

    /** The wrapped value, or `default` when there is none (Swift's `??`). */
    function GetOr(default: T): T {
      match this
      case Some(v) => v
      case None => default
    }
  }

  /** The outcome of a `throws` function: the returned value or the thrown error. */
  datatype Result<+T, +E> = Ok(value: T) | Err(error: E)
}
