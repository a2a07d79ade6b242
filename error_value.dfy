/**
 * What an Express error middleware receives as `err`: either an instance of
 * the typed hierarchy, or any other thrown value, of which only the
 * properties the handlers read are kept (all of them possibly undefined).
 */
module ErrorValue {
  import opened Wrappers
  import opened Text
  import opened CustomErrors

  /** `err.code`: Mongo's numeric codes (11000) and Node's string codes ('ECONNREFUSED'). */
  datatype Code = NumCode(n: int) | TextCode(s: string)

  /** A thrown value that is not a `CustomAPIError`. */
  datatype Signal = Signal(
    name: Option<string>,
    message: Option<string>,
    code: Option<Code>,
    errorType: Option<string>,   // `err.type`, as set by body-parser
    path: Option<string>,        // `err.path` of a Mongoose CastError
    keyValue: Option<Entries>,   // `err.keyValue` of a duplicate-key error
    errors: Option<Entries>,     // path -> message of a Mongoose ValidationError
    values: Option<Entries>,     // `err.values`, read by the older handler
    statusCode: Option<int>,
    stack: Option<string>)

  datatype Thrown = Custom(app: AppError) | Raw(signal: Signal)

  /** Stands for the engine-generated stack text that every `Error` captures; the model does not compute it. */
  const CAPTURED_STACK: string := "<captured stack trace>"

  function Name(t: Thrown): Option<string> {
    match t
    case Custom(a) => Some(a.name)
    case Raw(s) => s.name
  }

  function Message(t: Thrown): Option<string> {
    match t
    case Custom(a) => Some(a.message)
    case Raw(s) => s.message
  }

  function StatusCode(t: Thrown): Option<int> {
    match t
    case Custom(a) => Some(a.statusCode)
    case Raw(s) => s.statusCode
  }

  function Stack(t: Thrown): Option<string> {
    match t
    case Custom(_) => Some(CAPTURED_STACK)
    case Raw(s) => s.stack
  }

  /** `err.statusCode = value`, as the older handler writes it back. */
  function WithStatusCode(t: Thrown, value: int): (r: Thrown)
    ensures StatusCode(r) == Some(value)
    ensures Name(r) == Name(t) && Message(r) == Message(t) && Stack(r) == Stack(t)
  {
    match t
    case Custom(a) => Custom(a.(statusCode := value))
    case Raw(s) => Raw(s.(statusCode := Some(value)))
  }

  /** An `Error` of the given name and message, with no other property set. */
  function PlainError(name: string, message: string): Signal {
    Signal(Some(name), Some(message), None, None, None, None, None, None, None, Some(CAPTURED_STACK))
  }

  /**
   * `new ErrorHandler(message, statusCode)` from the older modules. That class
   * (utils/errorHandler.js) is not part of this model; as the copy kept in
   * customErrors.js shows, it extends `Error`, sets `statusCode` and leaves
   * `name` at "Error".
   */
  function LegacyError(message: string, statusCode: Option<int>): (t: Thrown)
    ensures t.Raw? && Name(t) == Some("Error") && Message(t) == Some(message) && StatusCode(t) == statusCode
  {
    Raw(PlainError("Error", message).(statusCode := statusCode))
  }

  /** The RangeError (ERR_HTTP_INVALID_STATUS_CODE) a response raises when it is asked to send a code outside 100..999. */
  function StatusRangeError(code: int): (t: Thrown)
    ensures t.Raw? && Name(t) == Some("RangeError") && t.signal.code == Some(TextCode("ERR_HTTP_INVALID_STATUS_CODE"))
  {
    Raw(PlainError("RangeError", "Invalid status code: " + DecimalText(code)).(code := Some(TextCode("ERR_HTTP_INVALID_STATUS_CODE"))))
  }

  /** The TypeErrors a handler itself raises when it reads through an undefined property. */
  datatype Fault =
    | KeysOfUndefined             // Object.keys(undefined)
    | ValuesOfUndefined           // Object.values(undefined)
    | ReadOfUndefined(prop: string) // undefined.prop
    | ReadOfNull(prop: string)      // null.prop

  function FaultError(f: Fault): (t: Thrown)
    ensures t.Raw? && Name(t) == Some("TypeError")
  {
    var text := match f
      case KeysOfUndefined => "Cannot convert undefined or null to object"
      case ValuesOfUndefined => "Cannot convert undefined or null to object"
      case ReadOfUndefined(p) => "Cannot read properties of undefined (reading '" + p + "')"
      case ReadOfNull(p) => "Cannot read properties of null (reading '" + p + "')";
    Raw(PlainError("TypeError", text))
  }
}
