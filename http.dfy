/**
 * The exception kinds the backend raises and catches, and the HTTP error
 * responses FastAPI sends for an HTTPException.
 */
module Http {
  /** Python exceptions, by the class the handlers distinguish. */
  datatype Exception =
    | ValueError(message: string)
    | ConnectionError(message: string)
    | RuntimeError(message: string)
    | OtherError(message: string)

  /** An HTTPException: status code, detail text and extra response headers. */
  datatype HttpError = HttpError(status: int, detail: string, headers: map<string, string>)

  function Fail(status: int, detail: string): HttpError
  {
    HttpError(status, detail, map[])
  }

  /** The body FastAPI sends, with status 500, for an exception nobody catches. */
  const UncaughtError := "Internal Server Error"

  const BadRequest := 400
  const Unauthorized := 401
  const Forbidden := 403
  const NotFound := 404
  const UnprocessableEntity := 422
  const InternalServerError := 500
  const BadGateway := 502
  const ServiceUnavailable := 503
}
