/** Small value types shared by every part of the storefront model. */
module Common {

  /** The conventional Some/None datatype, standing in for `null` and `undefined`. */
  datatype Option<+T> = None | Some(value: T) {
    function GetOr(default: T): T {
      match this
      case Some(v) => v
      case None => default
    }
  }

  /** A value or a typed error, for the operations whose failures are named. */
  datatype Result<+T, +E> = Ok(value: T) | Err(error: E)

  /**
   * A value thrown by a rejected promise: an `Error` instance, with its
   * `message`, or something else (the `err instanceof Error` test of the
   * pages tells the two apart).
   */
  datatype Thrown = Error(message: string) | NonError

  /** The outcome of one HTTP request: the response body, or the rejection. */
  datatype Remote<+T> = Succeeds(value: T) | Fails(thrown: Thrown)

  /** How an `async` operation of a context ends: it resolves, or it throws. */
  datatype Outcome = Resolved | Rejected(thrown: Thrown)
}
