/** Shared result and error types for the HTTP handlers.
    Every `HTTPException` the handlers raise becomes an `Error` value carrying
    its status and its detail text, so that the order in which checks fire is
    visible in the model. */
module Http {

  datatype Option<+T> = None | Some(value: T)

  /** A handler either returns a value or fails with an HTTP error. */
  datatype Result<+T> = Ok(value: T) | Err(error: Error)

  /** A check that either passes or fails with an HTTP error (`validate_input`). */
  datatype Outcome = Pass | Fail(error: Error)

  datatype Error =
    | Unauthorized(detail: string)          // 401
    | Forbidden(detail: string)             // 403
    | NotFound(detail: string)              // 404
    | Unprocessable(detail: string)         // 422
    | Upstream(code: int, detail: string)   // partner status passed through verbatim
    | ServerError                           // an unhandled Python exception (500)
    | NameError(name: string)               // a name the module never defined (500)
  {
    /** The status code the client receives for this error. */
    function Status(): int
    {
      match this
      case Unauthorized(_) => 401
      case Forbidden(_) => 403
      case NotFound(_) => 404
      case Unprocessable(_) => 422
      case Upstream(code, _) => code
      case ServerError => 500
      case NameError(_) => 500
    }
  }
}
