/** How the sync server's REST routes turn a failure into an HTTP response:
    the `ApiError` enum and the status / code / message triple its
    `into_response` builds. The response body is `{"error": {"code", "message"}}`. */
module HttpErrors {
  import opened Errors

  type StatusCode = c: int | 100 <= c <= 999 witness 500

  const BAD_REQUEST: StatusCode := 400
  const NOT_FOUND: StatusCode := 404
  const CONFLICT: StatusCode := 409
  const INTERNAL_SERVER_ERROR: StatusCode := 500

  /** axum's `JsonRejection`, given by the text its `body_text()` returns. */
  datatype JsonRejection = JsonRejection(bodyText: string)

  /** The sync layer's `HttpError`: a status code and a context message. */
  datatype HttpError = HttpError(code: StatusCode, context: string)

  datatype ApiError =
    | Anki(err: AnkiError)
    | Json(rejection: JsonRejection)
    | Http(http: HttpError)

  /** The JSON body `{"error": {"code": code, "message": message}}`. */
  datatype ErrorBody = ErrorBody(code: int, message: string)

  datatype ApiResponse = ApiResponse(status: StatusCode, body: ErrorBody)

  /** The status an engine error answers with: the caller's faults are 4xx,
      everything else is the server's. */
  function AnkiStatus(err: AnkiError): (status: StatusCode)
    ensures err.NotFound? ==> status == NOT_FOUND
    ensures err.InvalidInput? ==> status == BAD_REQUEST
    ensures err.Existing? ==> status == CONFLICT
    ensures !(err.NotFound? || err.InvalidInput? || err.Existing?) ==> status == INTERNAL_SERVER_ERROR
  {
    match err
    case NotFound(_) => NOT_FOUND
    case InvalidInput(_) => BAD_REQUEST
    case Existing => CONFLICT
    case _ => INTERNAL_SERVER_ERROR
  }

  /** `IntoResponse for ApiError`. `message` stands for the engine's
      localised `AnkiError::message` rendered with the template-only
      translator. */
  function IntoResponse(e: ApiError, message: AnkiError -> string): (r: ApiResponse)
    ensures r.body.code == r.status
    ensures e.Anki? ==> r.status == AnkiStatus(e.err) && r.body.message == message(e.err)
    ensures e.Json? ==> r.status == BAD_REQUEST && r.body.message == e.rejection.bodyText
    ensures e.Http? ==> r.status == e.http.code && r.body.message == e.http.context
  {
    var (status, code, text) :=
      match e
      case Anki(err) =>
        var status := AnkiStatus(err);
        (status, status as int, message(err))
      case Json(rejection) => (BAD_REQUEST, BAD_REQUEST as int, rejection.bodyText)
      case Http(http) => (http.code, http.code as int, http.context);
    ApiResponse(status, ErrorBody(code, text))
  }

  /** An engine error answers 4xx exactly when it is one of the three kinds
      the caller can correct (missing entity, bad input, already exists). */
  lemma AnkiClientErrors(err: AnkiError, message: AnkiError -> string)
    ensures var r := IntoResponse(Anki(err), message);
      400 <= r.status < 500 <==> err.NotFound? || err.InvalidInput? || err.Existing?
  {
  }
}
