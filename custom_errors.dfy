/**
 * The typed application errors: `CustomAPIError` and its subclasses. Each
 * subclass passes a fixed status to the base constructor, and an omitted
 * message falls back to the class's default.
 */
module CustomErrors {
  import opened Wrappers
  import opened StatusCodes

  /** The own enumerable members of a plain JavaScript object, in insertion order. */
  type Entries = seq<(string, string)>

  /** The classes of the hierarchy; `CustomAPI` is the base class itself. */
  datatype Kind =
    | CustomAPI
    | BadRequest | Unauthenticated | Forbidden | NotFound | MethodNotAllowed
    | RequestTimeout | Conflict | Validation | TooManyRequests
    | InternalServer | ServiceUnavailable
    | ElectionNotActive | AlreadyVoted | InvalidVote

  /** An instance of `CustomAPIError` (or a subclass): its `name`, `message`, `statusCode` and `errors`. */
  datatype AppError = AppError(kind: Kind, name: string, message: string, statusCode: int, errors: Option<Entries>)

  /** `this.constructor.name` */
  function ClassName(k: Kind): string {
    match k
    case CustomAPI => "CustomAPIError"
    case BadRequest => "BadRequestError"
    case Unauthenticated => "UnauthenticatedError"
    case Forbidden => "ForbiddenError"
    case NotFound => "NotFoundError"
    case MethodNotAllowed => "MethodNotAllowedError"
    case RequestTimeout => "RequestTimeoutError"
    case Conflict => "ConflictError"
    case Validation => "ValidationError"
    case TooManyRequests => "TooManyRequestsError"
    case InternalServer => "InternalServerError"
    case ServiceUnavailable => "ServiceUnavailableError"
    case ElectionNotActive => "ElectionNotActiveError"
    case AlreadyVoted => "AlreadyVotedError"
    case InvalidVote => "InvalidVoteError"
  }

  /** The status each subclass passes to `super`; the base class has none of its own. */
  function FixedStatus(k: Kind): (s: Option<int>)
    ensures s.None? <==> k == CustomAPI
    ensures s.Some? ==> 400 <= s.value <= 599
    ensures s.Some? && s.value < 500 <==> k !in {CustomAPI, InternalServer, ServiceUnavailable}
  {
    match k
    case CustomAPI => None
    case BadRequest => Some(BAD_REQUEST)
    case Unauthenticated => Some(UNAUTHORIZED)
    case Forbidden => Some(FORBIDDEN)
    case NotFound => Some(NOT_FOUND)
    case MethodNotAllowed => Some(METHOD_NOT_ALLOWED)
    case RequestTimeout => Some(REQUEST_TIMEOUT)
    case Conflict => Some(CONFLICT)
    case Validation => Some(UNPROCESSABLE_ENTITY)
    case TooManyRequests => Some(TOO_MANY_REQUESTS)
    case InternalServer => Some(INTERNAL_SERVER_ERROR)
    case ServiceUnavailable => Some(SERVICE_UNAVAILABLE)
    case ElectionNotActive => Some(BAD_REQUEST)
    case AlreadyVoted => Some(CONFLICT)
    case InvalidVote => Some(BAD_REQUEST)
  }

  /** The default of each subclass constructor's `message` parameter. */
  function DefaultMessage(k: Kind): (m: Option<string>)
    ensures m.None? <==> k == CustomAPI
  {
    match k
    case CustomAPI => None
    case BadRequest => Some("Bad Request")
    case Unauthenticated => Some("Authentication required")
    case Forbidden => Some("Forbidden")
    case NotFound => Some("Resource not found")
    case MethodNotAllowed => Some("Method not allowed")
    case RequestTimeout => Some("Request timeout")
    case Conflict => Some("Resource already exists")
    case Validation => Some("Validation failed")
    case TooManyRequests => Some("Too many requests, please try again later.")
    case InternalServer => Some("Internal server error")
    case ServiceUnavailable => Some("Service temporarily unavailable")
    case ElectionNotActive => Some("This election is not currently active")
    case AlreadyVoted => Some("You have already voted in this election")
    case InvalidVote => Some("Invalid vote")
  }

  /**
   * `new CustomAPIError(message, statusCode)`: the status defaults to 500,
   * and an undefined message becomes the empty message of `new Error()`.
   */
  function NewCustomAPIError(message: Option<string>, statusCode: Option<int>): (e: AppError)
    ensures e.kind == CustomAPI && e.name == "CustomAPIError"
    ensures statusCode.None? ==> e.statusCode == INTERNAL_SERVER_ERROR
    ensures statusCode.Some? ==> e.statusCode == statusCode.value
    ensures message.None? ==> e.message == ""
    ensures message.Some? ==> e.message == message.value
    ensures e.errors.None?
  {
    AppError(CustomAPI, ClassName(CustomAPI), message.GetOr(""), statusCode.GetOr(INTERNAL_SERVER_ERROR), None)
  }

  /** `new XError(message)` for every subclass whose constructor takes only a message. */
  function NewError(k: Kind, message: Option<string>): (e: AppError)
    requires k != CustomAPI && k != Validation
    ensures e.kind == k && e.name == ClassName(k) && e.errors.None?
    ensures 400 <= e.statusCode <= 599 && Some(e.statusCode) == FixedStatus(k)
    ensures message.Some? ==> e.message == message.value
    ensures message.None? ==> Some(e.message) == DefaultMessage(k)
  {
    AppError(k, ClassName(k), message.GetOr(DefaultMessage(k).value), FixedStatus(k).value, None)
  }

  /** The `errors` argument of `ValidationError`: a string, some object, or nothing (undefined or null). */
  datatype ErrorsArg = TextArg(text: string) | ObjectArg(entries: Entries) | NoErrors

  /** `new ValidationError(errors, message)`: a string is wrapped as `{ message: errors }`, an object kept as it is. */
  function NewValidationError(errors: ErrorsArg, message: Option<string>): (e: AppError)
    ensures e.kind == Validation && e.name == "ValidationError" && e.statusCode == UNPROCESSABLE_ENTITY
    ensures errors.TextArg? ==> e.errors == Some([("message", errors.text)])
    ensures errors.ObjectArg? ==> e.errors == Some(errors.entries)
    ensures errors.NoErrors? ==> e.errors.None?
    ensures e.message == if message.Some? then message.value else "Validation failed"
  {
    var wrapped := match errors
      case TextArg(t) => Some([("message", t)])
      case ObjectArg(o) => Some(o)
      case NoErrors => None;
    AppError(Validation, ClassName(Validation), message.GetOr(DefaultMessage(Validation).value), FixedStatus(Validation).value, wrapped)
  }

  /** The status of a subclass does not depend on the message it is given. */
  lemma StatusIgnoresMessage(k: Kind, m1: Option<string>, m2: Option<string>)
    requires k != CustomAPI && k != Validation
    ensures NewError(k, m1).statusCode == NewError(k, m2).statusCode
  {
  }
}
