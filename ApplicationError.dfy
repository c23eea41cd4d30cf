/**
 * `ApplicationError` and its five subclasses. The constructor stores the
 * response once; the subclasses differ only in the HTTP status they fix.
 */
module AppErrors {
  import opened Common
  import opened ResponseFactory

  /** Which class constructed the error. */
  datatype ErrorClass = Base | NotFoundError | ForbiddenError | UnauthorizedError | BadRequestError | ConflictError

  /** `message` is the underlying `Error` message; `response` is set in the constructor. */
  datatype ApplicationError = ApplicationError(kind: ErrorClass, message: string, response: ErrorResponse) {
    function ToResponse(): ErrorResponse {
      response
    }
  }

  /** What a gating middleware does: `next()`, or `next(err)` with an application error. */
  datatype Gate = Pass | Fail(error: ApplicationError)

  /** `new ApplicationError(error, {status, message})`. */
  function NewApplicationError(kind: ErrorClass, error: ErrorDetails, status: int, message: string): (e: ApplicationError)
    ensures e.kind == kind
    ensures e.message == error.details
    ensures e.ToResponse() == ErrorResponse(status, message, error)
  {
    ApplicationError(kind, error.details, ErrorResponse(status, message, error))
  }

  /** The HTTP status each subclass fixes; the base class takes it from its options. */
  function StatusOf(kind: ErrorClass): int
    requires kind != Base
  {
    match kind
    case NotFoundError => NOT_FOUND
    case ForbiddenError => FORBIDDEN
    case UnauthorizedError => UNAUTHORIZED
    case BadRequestError => BAD_REQUEST
    case ConflictError => CONFLICT
  }

  function NotFound(error: ErrorDetails, message: string): (e: ApplicationError)
    ensures e.ToResponse() == ErrorResponse(404, message, error)
    ensures e.message == error.details && e.kind == NotFoundError
  {
    NewApplicationError(NotFoundError, error, NOT_FOUND, message)
  }

  function Forbidden(error: ErrorDetails, message: string): (e: ApplicationError)
    ensures e.ToResponse() == ErrorResponse(403, message, error)
    ensures e.message == error.details && e.kind == ForbiddenError
  {
    NewApplicationError(ForbiddenError, error, FORBIDDEN, message)
  }

  function Unauthorized(error: ErrorDetails, message: string): (e: ApplicationError)
    ensures e.ToResponse() == ErrorResponse(401, message, error)
    ensures e.message == error.details && e.kind == UnauthorizedError
  {
    NewApplicationError(UnauthorizedError, error, UNAUTHORIZED, message)
  }

  function BadRequest(error: ErrorDetails, message: string): (e: ApplicationError)
    ensures e.ToResponse() == ErrorResponse(400, message, error)
    ensures e.message == error.details && e.kind == BadRequestError
  {
    NewApplicationError(BadRequestError, error, BAD_REQUEST, message)
  }

  function Conflict(error: ErrorDetails, message: string): (e: ApplicationError)
    ensures e.ToResponse() == ErrorResponse(409, message, error)
    ensures e.message == error.details && e.kind == ConflictError
  {
    NewApplicationError(ConflictError, error, CONFLICT, message)
  }

  /** The subclass constructor of `kind`. */
  function Construct(kind: ErrorClass, error: ErrorDetails, message: string): ApplicationError
    requires kind != Base
  {
    match kind
    case NotFoundError => NotFound(error, message)
    case ForbiddenError => Forbidden(error, message)
    case UnauthorizedError => Unauthorized(error, message)
    case BadRequestError => BadRequest(error, message)
    case ConflictError => Conflict(error, message)
  }

  /** Every subclass keeps message, code and details verbatim and differs from
      the others only in its status; distinct subclasses fix distinct statuses. */
  lemma SubclassesFixStatus(kind: ErrorClass, other: ErrorClass, error: ErrorDetails, message: string)
    requires kind != Base && other != Base
    ensures Construct(kind, error, message).ToResponse() == ErrorResponse(StatusOf(kind), message, error)
    ensures Construct(kind, error, message).message == error.details
    ensures kind != other ==> StatusOf(kind) != StatusOf(other)
  {}
}
