/** The HTTP errors the backend raises (FastAPI's HTTPException). */
module Http {
  import opened Json

  /** An error response: status code and the `detail` body. */
  datatype HttpError = HttpError(code: int, detail: Json)

  const Unauthorized: int := 401
  const PaymentRequired: int := 402
  const Forbidden: int := 403
  const NotFound: int := 404
  const UnprocessableEntity: int := 422
  const InternalServerError: int := 500

  /** What the framework answers when a handler raises an exception that is not an HTTPException. */
  function InternalError(): HttpError
  {
    HttpError(InternalServerError, JStr("Internal Server Error"))
  }

  /** What the framework answers when a request body fails schema validation. */
  function ValidationError(field: string): HttpError
  {
    HttpError(UnprocessableEntity, JStr(field))
  }
}
