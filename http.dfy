/** The HTTP responses the API handlers write, without the transport. */
module Http {
  import opened GoBasics

  const StatusCreated: int := 201
  const StatusInternalServerError: int := 500

  /** A JSON value in a response body; a UUID is written as its canonical text. */
  datatype JsonValue = JString(s: string) | JNumber(n: int) | JUuid(id: Uuid)

  datatype Response =
    | ErrorResponse(code: int, message: string)        // http.Error
    | JsonResponse(code: int, body: map<string, JsonValue>)

  /** The error response every handler here writes: status 500 with a fixed message. */
  function InternalError(message: string): Response
  {
    ErrorResponse(StatusInternalServerError, message)
  }
}
