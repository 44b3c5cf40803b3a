/** Optional values and error-carrying results shared by every module. */
module Results {

  /** A value that may be absent (Python's `None`, Java's `null`). */
  datatype Option<+T> = None | Some(value: T) {
    function GetOr(default: T): T {
      match this
      case Some(v) => v
      case None => default
    }
  }

  /** An HTTP error raised by a FastAPI handler (`HTTPException(status_code, detail)`). */
  datatype HttpError = HttpError(status: int, detail: string)

  /** The outcome of a request handler: the response model, or the exception it raises. */
  datatype Result<+T> = Ok(value: T) | Err(error: HttpError)
}
