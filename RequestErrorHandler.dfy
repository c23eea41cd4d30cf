/**
 * The terminal error translator: application errors are sent as their stored
 * response, anything else as a fixed 500. The logging call is not modelled.
 */
module RequestErrorHandler {
  import opened Common
  import opened ResponseFactory
  import opened AppErrors

  /** An error reaching the handler: an `ApplicationError`, or any other `Error`. */
  datatype Error = App(error: ApplicationError) | Other(name: string, message: string)

  const UnknownErrorResponse: ErrorResponse :=
    ErrorResponse(INTERNAL_SERVER_ERROR, "Unknown error", ErrorDetails(UnknownError, "An unknown error has occurred."))

  function HandleError<D>(err: Error, now: string): (r: HttpResponse<D>)
    ensures err.App? ==> r == SendErrorResponse(err.error.ToResponse(), now)
    ensures err.Other? ==>
      && r.status == 500
      && r.body == Body(500, "Unknown error", WithError(ErrorDetails(UnknownError, "An unknown error has occurred.")), now)
  {
    match err
    case App(e) => SendErrorResponse(e.ToResponse(), now)
    case Other(_, _) => SendErrorResponse(UnknownErrorResponse, now)
  }

  /** Nothing of a non-application error reaches the client: the response is
      the same whatever its name and message. */
  lemma UnknownErrorsIndistinguishable<D>(a: Error, b: Error, now: string)
    requires a.Other? && b.Other?
    ensures HandleError<D>(a, now) == HandleError<D>(b, now)
  {}

  /** An application error of a subclass answers with that subclass's status,
      and its code and details reach the body verbatim. */
  lemma HandleSubclassError<D>(kind: ErrorClass, error: ErrorDetails, message: string, now: string)
    requires kind != Base
    ensures HandleError<D>(App(Construct(kind, error, message)), now).status == StatusOf(kind)
    ensures HandleError<D>(App(Construct(kind, error, message)), now).body ==
      Body(StatusOf(kind), message, WithError(error), now)
  {}
}
