/** Optional values and results with an error, used for the source's `None` and its exceptions. */
module Wrappers {

  datatype Option<+T> = None | Some(value: T)

  datatype Result<+T, +E> = Ok(value: T) | Err(error: E)

  /** An HTTP error raised by a route handler (FastAPI's `HTTPException`). */
  datatype HttpError = HttpError(status: int, detail: string)
}
