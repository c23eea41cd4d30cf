/**
 * The response envelope every handler and the error translator send:
 * the options `{status, message}`, optionally with `data` or `error`,
 * spread into the JSON body together with a `timestamp`.
 */
module ResponseFactory {
  import opened Common

  /** Machine-readable error codes. The repository's `ErrorConstants` values
      are not part of this model; `UnknownError` is the literal `UNKNOWN_ERROR`. */
  datatype ErrorCode = UserExists | InvalidCredentials | UserNotFound | InvalidBody | RouteNotFound | UnknownError

  /** The `error` object of an error response. */
  datatype ErrorDetails = ErrorDetails(code: ErrorCode, details: string)

  /** What the options carry beyond `status` and `message`. The `data` object
      is any value `D` the caller chooses; the envelope never looks inside it. */
  datatype Payload<D> = Plain | WithData(data: D) | WithError(error: ErrorDetails)

  /** `ApplicationResponse`, `DataApplicationResponse` or `ErrorApplicationResponse`. */
  datatype Options<D> = Options(status: int, message: string, payload: Payload<D>)

  /** `ErrorApplicationResponse`: what an application error stores. */
  datatype ErrorResponse = ErrorResponse(status: int, message: string, error: ErrorDetails)

  /** The JSON body: every field of the options plus the timestamp. */
  datatype Body<D> = Body(status: int, message: string, payload: Payload<D>, timestamp: string)

  datatype HttpResponse<D> = HttpResponse(status: int, body: Body<D>)

  /** The options a body was built from: the body without its timestamp. */
  function OptionsOf<D>(b: Body<D>): Options<D> {
    Options(b.status, b.message, b.payload)
  }

  /** `now` is the ISO rendering of the clock reading taken by the call. */
  function SendResponse<D>(options: Options<D>, now: string): (r: HttpResponse<D>)
    ensures r.status == options.status
    ensures OptionsOf(r.body) == options
    ensures r.body.timestamp == now
  {
    HttpResponse(options.status, Body(options.status, options.message, options.payload, now))
  }

  function SendDataResponse<D>(status: int, message: string, data: D, now: string): (r: HttpResponse<D>)
    ensures r == SendResponse(Options(status, message, WithData(data)), now)
    ensures r.status == r.body.status == status
    ensures r.body.payload == WithData(data)
  {
    SendResponse(Options(status, message, WithData(data)), now)
  }

  function SendErrorResponse<D>(options: ErrorResponse, now: string): (r: HttpResponse<D>)
    ensures r == SendResponse(Options(options.status, options.message, WithError(options.error)), now)
    ensures r.status == r.body.status == options.status
    ensures r.body.payload == WithError(options.error)
  {
    SendResponse(Options(options.status, options.message, WithError(options.error)), now)
  }

  /** Two envelopes sent at the same instant are equal exactly when their options are. */
  lemma SendResponseInjective<D>(a: Options<D>, b: Options<D>, now: string)
    ensures SendResponse(a, now) == SendResponse(b, now) <==> a == b
  {}
}
