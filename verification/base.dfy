/** Shared vocabulary of the backend: identifiers, optional values, and the
    failures a request handler can report. */
module Base {

  /** Database object ids. The model only ever compares them for equality. */
  type UserId = string
  type ProductId = string
  type ItemId = string
  type OrderId = string

  /** A point in time as `Date.now()` returns it (milliseconds since the epoch). */
  type Time = int

  /** A value that may be missing; also stands for a JSON field that is absent or null. */
  datatype Option<+T> = None | Some(value: T) {
    function GetOr(default: T): T {
      match this
      case Some(v) => v
      case None => default
    }
  }

  /** The ways a handler fails. */
  datatype Error =
    | NotFound         // 404: product, cart, cart line or order missing
    | InvalidRequest   // 400: bad quantity, short stock, empty order items
    | ValidationError  // a Mongoose schema check failed on save (500 via Express's default handler)
    | ServerError      // an exception caught by a controller's catch block (500 "Server error")

  /** The reply of a handler: a value, or the error it answers with. */
  datatype Result<+T> = Ok(value: T) | Err(error: Error)
}
