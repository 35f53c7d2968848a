/** Small value types shared by the models of the HTTP services. */
module Common {

  /** A value that may be missing (Python's `Optional[...]` / `None`). */
  datatype Option<+T> = None | Some(value: T)

  /** The outcome of a handler: a value, or the error it raises. */
  datatype Result<+T, +E> = Success(value: T) | Failure(error: E)

  /** What FastAPI sends back for a raised `HTTPException(status, detail)`. */
  datatype HttpError = HttpError(status: int, detail: string)
}
