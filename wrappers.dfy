/** Option and Result values shared by the modules of this project. */
module Wrappers {

  /** A value that may be missing: Python's `None`, JavaScript's `null`/`undefined`. */
  datatype Option<+T> = None | Some(value: T) {
    function GetOr(default: T): T {
      match this
      case Some(v) => v
      case None => default
    }
  }

  /** The outcome of an operation that either produces a value or fails with an error. */
  datatype Result<+R, +E> = Success(value: R) | Failure(error: E)
}

/** The part of an HTTP error response the routers choose: its status code and detail text. */
module Http {

  datatype HttpError = HttpError(statusCode: int, detail: string)

  const NotFound: int := 404
}
