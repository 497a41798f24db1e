/**
 * `GlobalExceptionHandler`: the table from exception kind to HTTP status and
 * message, and the error body `buildError` produces.
 */
module ExceptionHandler {
  import opened Wrappers

  /** The exceptions the handler distinguishes; `Unexpected` is any other exception. */
  datatype ApiException =
    | ResourceNotFound(message: string)
    | ConstraintViolation(violations: seq<string>)
    | TypeMismatch(name: Option<string>)
    | IllegalArgument(message: string)
    | Unexpected

  /** The three statuses the handler uses, with their numeric code and reason phrase. */
  datatype HttpStatus = BadRequest | NotFound | InternalServerError {
    function Value(): int {
      match this
      case BadRequest => 400
      case NotFound => 404
      case InternalServerError => 500
    }

    function ReasonPhrase(): string {
      match this
      case BadRequest => "Bad Request"
      case NotFound => "Not Found"
      case InternalServerError => "Internal Server Error"
    }
  }

  /** `HttpStatus.resolve`: the status with the given code. */
  function Resolve(code: int): (s: Option<HttpStatus>)
    ensures s.Some? ==> s.value.Value() == code
  {
    if code == 400 then Some(BadRequest)
    else if code == 404 then Some(NotFound)
    else if code == 500 then Some(InternalServerError)
    else None
  }

  /** `ApiErrorResponse` without its timestamp and request path. */
  datatype ApiErrorResponse = ApiErrorResponse(status: int, error: string, message: string)

  /** `ResponseEntity<ApiErrorResponse>`: the HTTP status and the body. */
  datatype ErrorResponse = ErrorResponse(httpStatus: int, body: ApiErrorResponse)

  /** `buildError`: the body repeats the response status and names it by its reason phrase. */
  function BuildError(status: HttpStatus, message: string): (r: ErrorResponse)
    ensures r.body.status == r.httpStatus
    ensures Resolve(r.httpStatus) == Some(status)
    ensures r.body.error == status.ReasonPhrase()
    ensures r.body.message == message
  {
    ErrorResponse(status.Value(), ApiErrorResponse(status.Value(), status.ReasonPhrase(), message))
  }

  const InvalidRequestMessage := "Solicitud invalida"
  const InvalidFormatPrefix := "Formato invalido para parametro: "
  const InternalErrorMessage := "Error interno del servidor"

  /** The handler table. */
  function Handle(ex: ApiException): (r: ErrorResponse)
    ensures ex.ResourceNotFound? ==> r == BuildError(NotFound, ex.message)
    ensures ex.ConstraintViolation? && ex.violations != [] ==> r == BuildError(BadRequest, ex.violations[0])
    ensures ex.ConstraintViolation? && ex.violations == [] ==> r == BuildError(BadRequest, InvalidRequestMessage)
    ensures ex.TypeMismatch? ==> r == BuildError(BadRequest, InvalidFormatPrefix + ex.name.GetOr("parametro"))
    ensures ex.IllegalArgument? ==> r == BuildError(BadRequest, ex.message)
    ensures ex.Unexpected? ==> r == BuildError(InternalServerError, InternalErrorMessage)
  {
    match ex
    case ResourceNotFound(message) => BuildError(NotFound, message)
    case ConstraintViolation(violations) =>
      BuildError(BadRequest, if violations == [] then InvalidRequestMessage else violations[0])
    case TypeMismatch(name) => BuildError(BadRequest, InvalidFormatPrefix + name.GetOr("parametro"))
    case IllegalArgument(message) => BuildError(BadRequest, message)
    case Unexpected => BuildError(InternalServerError, InternalErrorMessage)
  }

  /**
   * Every handled exception is a client error except the catch-all, which is
   * the only server error; the body always agrees with the response status.
   */
  lemma HandleClassifies(ex: ApiException)
    ensures var r := Handle(ex);
            && r.body.status == r.httpStatus
            && Resolve(r.httpStatus).Some?
            && r.body.error == Resolve(r.httpStatus).value.ReasonPhrase()
            && (r.httpStatus >= 500 <==> ex.Unexpected?)
            && (r.httpStatus == 404 <==> ex.ResourceNotFound?)
  {
  }
}
