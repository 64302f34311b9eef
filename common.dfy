/** Failure-compatible wrappers used throughout the model. */
module Wrappers {

  /** A value that may be missing: JavaScript's `undefined`/`null` is `None`. */
  datatype Option<+T> = None | Some(value: T) {
    function GetOr(default: T): T {
      match this
      case Some(v) => v
      case None => default
    }
  }

  /** The outcome of a request handler: a value, or the error response it sends. */
  datatype Result<+T, +E> = Ok(value: T) | Err(error: E)
}

/** The HTTP error responses the server routes send. */
module Http {

  datatype HttpError =
    | BadRequest     // 400: missing or malformed input, or an integration not configured
    | Unauthorized   // 401: no calendar session, or the session expired upstream
    | NotFound       // 404: no task with that id
    | ServerError    // 500: an upstream or storage call failed
  {
    function Code(): nat {
      match this
      case BadRequest => 400
      case Unauthorized => 401
      case NotFound => 404
      case ServerError => 500
    }
  }
}
