/** The older REST layer's error type `RestError`: its status
    classification and its conversions from engine errors and from the sync
    layer's `HttpError`. The response body is `{"error": message}`. */
module Rest {
  import opened Errors
  import opened HttpErrors

  datatype RestError = RestError(err: AnkiError)

  datatype RestResponse = RestResponse(status: StatusCode, error: string)

  /** `IntoResponse for RestError`. `message` stands for the localised
      `AnkiError::message` (template-only translator) and `display` for the
      error's `Display` text, which the server-error case reports instead. */
  function IntoResponse(e: RestError, message: AnkiError -> string, display: AnkiError -> string): (r: RestResponse)
    ensures e.err.NotFound? ==> r.status == NOT_FOUND
    ensures e.err.InvalidInput? ==> r.status == BAD_REQUEST
    ensures e.err.Existing? ==> r.status == CONFLICT
    ensures r.status != INTERNAL_SERVER_ERROR ==> r.error == message(e.err)
    ensures !(e.err.NotFound? || e.err.InvalidInput? || e.err.Existing?) ==>
      r == RestResponse(INTERNAL_SERVER_ERROR, display(e.err))
  {
    match e.err
    case NotFound(_) => RestResponse(NOT_FOUND, message(e.err))
    case InvalidInput(_) => RestResponse(BAD_REQUEST, message(e.err))
    case Existing => RestResponse(CONFLICT, message(e.err))
    case _ => RestResponse(INTERNAL_SERVER_ERROR, display(e.err))
  }

  /** `impl<E: Into<AnkiError>> From<E>`: the converted error is kept as it is. */
  function FromError<E>(err: E, into: E -> AnkiError): (r: RestError)
    ensures r.err == into(err)
  {
    RestError(into(err))
  }

  /** `From<HttpError>`: the sync error's `Display` text (`show`) becomes an
      invalid-input error, so it always answers 400. */
  function FromHttpError(err: HttpError, show: HttpError -> string): (r: RestError)
    ensures r.err == InvalidInputFrom(show(err))
    ensures forall message: AnkiError -> string, display: AnkiError -> string ::
      IntoResponse(r, message, display).status == BAD_REQUEST
  {
    RestError(InvalidInputFrom(show(err)))
  }

  /** The two HTTP layers classify engine errors identically. */
  lemma RestAgreesWithApi(err: AnkiError, message: AnkiError -> string, display: AnkiError -> string)
    ensures IntoResponse(RestError(err), message, display).status
         == HttpErrors.IntoResponse(Anki(err), message).status
  {
  }

  /** An `HttpError` converted through `RestError` loses its own status: the
      answer is 400 whatever status it carried, unlike the newer `ApiError` path
      that keeps it. */
  lemma HttpErrorStatusDiffers(err: HttpError, show: HttpError -> string,
                               message: AnkiError -> string, display: AnkiError -> string)
    requires err.code != BAD_REQUEST
    ensures IntoResponse(FromHttpError(err, show), message, display).status
         != HttpErrors.IntoResponse(Http(err), message).status
  {
  }
}
