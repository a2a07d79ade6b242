/**
 * The central error middleware (middleware/errorHandler.js): forwards when
 * headers are already sent, otherwise answers in one of two modes chosen from
 * NODE_ENV. In production a typed error answers with its own status and
 * message; any other error goes through a first-match chain of rules keyed on
 * its name, code and type, and an unmatched one keeps its status (or 500)
 * with a generic message.
 */
module ErrorHandler {
  import opened Wrappers
  import opened Text
  import opened StatusCodes
  import opened CustomErrors
  import opened ErrorValue
  import opened Http

  /** The request properties the handler reads, and the clock reading it stamps on development responses. */
  datatype Request = Request(path: string, originalUrl: string, verb: string, timestamp: string)

  // ---------------------------------------------------------------- mode

  /**
   * `/prod/i.test(process.env.NODE_ENV || '')`: an unset NODE_ENV, or one too
   * short to spell "prod", selects development.
   */
  predicate IsProduction(nodeEnv: Option<string>)
    ensures IsProduction(nodeEnv) ==> nodeEnv.Some? && |nodeEnv.value| >= 4
  {
    Includes(Lower(nodeEnv.GetOr("")), "prod")
  }

  /** "prod" in any mix of upper and lower case starts at index `i`. */
  predicate ProdAt(s: string, i: nat) {
    i + 4 <= |s| && s[i] in "pP" && s[i + 1] in "rR" && s[i + 2] in "oO" && s[i + 3] in "dD"
  }

  /** Production mode holds exactly when NODE_ENV contains "prod", case-insensitively. */
  lemma ProductionIffProd(env: string)
    ensures IsProduction(Some(env)) <==> exists i: nat :: ProdAt(env, i)
  {
    IncludesIffOccurs(Lower(env), "prod");
    forall i: nat ensures OccursAt(Lower(env), "prod", i) <==> ProdAt(env, i) {
      LowerProdAt(env, i);
    }
  }

  lemma LowerProdAt(env: string, i: nat)
    ensures OccursAt(Lower(env), "prod", i) <==> ProdAt(env, i)
  {
    var low := Lower(env);
    if i + 4 <= |env| {
      var w := low[i..i + 4];
      assert w == [low[i], low[i + 1], low[i + 2], low[i + 3]];
      assert "prod" == ['p', 'r', 'o', 'd'];
      LowerMatches(env[i], 'p', 'P');
      LowerMatches(env[i + 1], 'r', 'R');
      LowerMatches(env[i + 2], 'o', 'O');
      LowerMatches(env[i + 3], 'd', 'D');
    }
  }

  /** ASCII lower-casing sends exactly the lower and the upper form of a letter to the lower one. */
  lemma LowerMatches(c: char, lower: char, upper: char)
    requires 'a' <= lower <= 'z' && upper as int == lower as int - 32
    ensures LowerAscii(c) == lower <==> c == lower || c == upper
  {
  }

  /** An unset NODE_ENV selects the development handler. */
  lemma UnsetEnvironmentIsDevelopment()
    ensures !IsProduction(None)
  {
    IncludesIffOccurs(Lower(""), "prod");
  }

  // ---------------------------------------------------------------- the production chain

  /** The message a rule sets, before it is rendered to text. */
  datatype Wording =
    | InvalidPath(path: Option<string>)
    | DuplicateValue(keyValue: Entries)
    | DatabaseFailed
    | DatabaseUnreachable
    | UploadFailed(detail: Option<string>)
    | PayloadTooLarge
    | RequestTimedOut
    | ServiceRefused
    | BadCsrfToken
    | DatabaseTimedOut
    | FieldViolations(errors: Entries)
    | InvalidJson
    | ResourceMissing
    | PermissionDenied
    | StorageFull
    | ConnectionReset
    | ConnectionAborted

  /** What the chain decides for an error that is not a CustomAPIError. */
  datatype Verdict = Matched(status: int, wording: Wording) | Unmatched | Faulted(fault: Fault)

  /** `${field} '${err.keyValue[field]}' already exists.` for the first key of `keyValue`. */
  function DuplicateMessage(keyValue: Entries): string {
    if keyValue == [] then "undefined 'undefined' already exists."
    else keyValue[0].0 + " '" + keyValue[0].1 + "' already exists."
  }

  /** `Object.values(err.errors).map((error) => error.message)` */
  function FieldMessages(errors: Entries): (r: seq<string>)
    ensures |r| == |errors| && forall i :: 0 <= i < |errors| ==> r[i] == errors[i].1
  {
    if errors == [] then [] else [errors[0].1] + FieldMessages(errors[1..])
  }

  /** The text each rule assigns to `defaultError.message`. */
  function Render(w: Wording): string {
    match w
    case InvalidPath(path) => "Resource not found. Invalid: " + Show(path)
    case DuplicateValue(keyValue) => DuplicateMessage(keyValue)
    case DatabaseFailed => "Database operation failed. Please try again."
    case DatabaseUnreachable => "Unable to connect to the database. Please try again later."
    case UploadFailed(detail) => "File upload error: " + Show(detail)
    case PayloadTooLarge => "Request payload is too large."
    case RequestTimedOut => "Request timeout. Please try again."
    case ServiceRefused => "Service temporarily unavailable. Please try again later."
    case BadCsrfToken => "Invalid CSRF token."
    case DatabaseTimedOut => "Database operation timed out. Please try again."
    case FieldViolations(errors) => Join(FieldMessages(errors), "; ")
    case InvalidJson => "Invalid JSON payload"
    case ResourceMissing => "The requested resource was not found"
    case PermissionDenied => "Permission denied"
    case StorageFull => "Storage limit reached"
    case ConnectionReset => "Connection was reset. Please try again."
    case ConnectionAborted => "Connection was aborted due to timeout."
  }

  predicate NameIs(s: Signal, name: string) { s.name == Some(name) }
  predicate CodeIs(s: Signal, code: Code) { s.code == Some(code) }
  predicate TextCodeIs(s: Signal, code: string) { s.code == Some(TextCode(code)) }

  const GENERIC_MESSAGE: string := "An unexpected error occurred. Please try again later."

  /**
   * The if/else-if chain of `handleProductionErrors`, in source order. Every
   * rule answers with a 4xx or 5xx status, and the chain throws only where a
   * rule reads through an undefined `keyValue`, `message` or `errors`.
   */
  function Classify(s: Signal): (v: Verdict)
    ensures v.Matched? ==> 400 <= v.status <= 599
    ensures v.Faulted? ==> (CodeIs(s, NumCode(11000)) && s.keyValue.None? && v.fault == KeysOfUndefined)
                           || (NameIs(s, "MongoError") && s.message.None? && v.fault == ReadOfUndefined("includes"))
                           || (NameIs(s, "ValidationError") && s.errors.None? && v.fault == ValuesOfUndefined)
  {
    if NameIs(s, "CastError") then
      Matched(NOT_FOUND, InvalidPath(s.path))
    else if CodeIs(s, NumCode(11000)) then
      if s.keyValue.None? then Faulted(KeysOfUndefined)
      else Matched(CONFLICT, DuplicateValue(s.keyValue.value))
    else if NameIs(s, "MongoServerError") then
      Matched(SERVICE_UNAVAILABLE, DatabaseFailed)
    else if NameIs(s, "MongooseServerSelectionError") then
      Matched(SERVICE_UNAVAILABLE, DatabaseUnreachable)
    else if NameIs(s, "MulterError") then
      Matched(BAD_REQUEST, UploadFailed(s.message))
    else if NameIs(s, "PayloadTooLargeError") || s.errorType == Some("entity.too.large") then
      Matched(REQUEST_TOO_LONG, PayloadTooLarge)
    else if TextCodeIs(s, "ETIMEDOUT") || TextCodeIs(s, "ESOCKETTIMEDOUT") then
      Matched(REQUEST_TIMEOUT, RequestTimedOut)
    else if TextCodeIs(s, "ECONNREFUSED") then
      Matched(SERVICE_UNAVAILABLE, ServiceRefused)
    else if TextCodeIs(s, "EBADCSRFTOKEN") then
      Matched(FORBIDDEN, BadCsrfToken)
    else if NameIs(s, "MongoError") && s.message.None? then
      Faulted(ReadOfUndefined("includes"))
    else if NameIs(s, "MongoError") && Includes(s.message.value, "timed out") then
      Matched(GATEWAY_TIMEOUT, DatabaseTimedOut)
    else if NameIs(s, "ValidationError") then
      if s.errors.None? then Faulted(ValuesOfUndefined)
      else Matched(BAD_REQUEST, FieldViolations(s.errors.value))
    else if NameIs(s, "SyntaxError") && s.errorType == Some("entity.parse.failed") then
      Matched(BAD_REQUEST, InvalidJson)
    else if TextCodeIs(s, "ENOENT") then
      Matched(NOT_FOUND, ResourceMissing)
    else if TextCodeIs(s, "EACCES") || TextCodeIs(s, "EPERM") then
      Matched(FORBIDDEN, PermissionDenied)
    else if TextCodeIs(s, "ENOSPC") then
      Matched(INSUFFICIENT_STORAGE, StorageFull)
    else if TextCodeIs(s, "ECONNRESET") then
      Matched(SERVICE_UNAVAILABLE, ConnectionReset)
    else if TextCodeIs(s, "ECONNABORTED") then
      Matched(REQUEST_TIMEOUT, ConnectionAborted)
    else
      Unmatched
  }

  // ---------------------------------------------------------------- the code table

  /** The codes whose rules come before the MongoError, ValidationError and SyntaxError rules. */
  const EARLY_CODES: set<string> := {"ETIMEDOUT", "ESOCKETTIMEDOUT", "ECONNREFUSED", "EBADCSRFTOKEN"}

  /** The answer each Node or library error code gets, stated as a table independent of the chain's order. */
  function CodeVerdict(c: string): (v: Verdict)
    ensures !v.Faulted?
    ensures v.Matched? ==> 400 <= v.status <= 599
    ensures c in EARLY_CODES ==> v.Matched?
  {
    match c
    case "ETIMEDOUT" => Matched(REQUEST_TIMEOUT, RequestTimedOut)
    case "ESOCKETTIMEDOUT" => Matched(REQUEST_TIMEOUT, RequestTimedOut)
    case "ECONNABORTED" => Matched(REQUEST_TIMEOUT, ConnectionAborted)
    case "ECONNREFUSED" => Matched(SERVICE_UNAVAILABLE, ServiceRefused)
    case "ECONNRESET" => Matched(SERVICE_UNAVAILABLE, ConnectionReset)
    case "EBADCSRFTOKEN" => Matched(FORBIDDEN, BadCsrfToken)
    case "EACCES" => Matched(FORBIDDEN, PermissionDenied)
    case "EPERM" => Matched(FORBIDDEN, PermissionDenied)
    case "ENOENT" => Matched(NOT_FOUND, ResourceMissing)
    case "ENOSPC" => Matched(INSUFFICIENT_STORAGE, StorageFull)
    case _ => Unmatched
  }

  /** A name or body-parser type that a rule placed before every code rule claims. */
  predicate ClaimedBeforeCodes(s: Signal) {
    NameIs(s, "CastError") || NameIs(s, "MongoServerError") || NameIs(s, "MongooseServerSelectionError")
    || NameIs(s, "MulterError") || NameIs(s, "PayloadTooLargeError") || s.errorType == Some("entity.too.large")
  }

  /** An error that one of the name rules placed between the code rules claims (or that throws there). */
  predicate ClaimedAmongCodes(s: Signal) {
    (NameIs(s, "MongoError") && (s.message.None? || Includes(s.message.value, "timed out")))
    || NameIs(s, "ValidationError")
    || (NameIs(s, "SyntaxError") && s.errorType == Some("entity.parse.failed"))
  }

  /**
   * An error carrying a string code that no earlier name rule claims is
   * answered from the code table; a code outside the table leaves it
   * unmatched. At most one code rule can apply, since an error has one code.
   */
  lemma CodeTable(s: Signal, c: string)
    requires s.code == Some(TextCode(c)) && !ClaimedBeforeCodes(s)
    requires c in EARLY_CODES || !ClaimedAmongCodes(s)
    ensures Classify(s) == CodeVerdict(c)
  {
    if c in EARLY_CODES {
      EarlyCodes(s, c);
    } else {
      LateCodes(s, c);
    }
  }

  lemma EarlyCodes(s: Signal, c: string)
    requires s.code == Some(TextCode(c)) && !ClaimedBeforeCodes(s) && c in EARLY_CODES
    ensures Classify(s) == CodeVerdict(c)
  {
  }

  lemma LateCodes(s: Signal, c: string)
    requires s.code == Some(TextCode(c)) && !ClaimedBeforeCodes(s) && c !in EARLY_CODES && !ClaimedAmongCodes(s)
    ensures Classify(s) == CodeVerdict(c)
  {
  }

  /** The codes of the table and the statuses they share. */
  lemma CodeStatuses()
    ensures forall c :: c in {"ETIMEDOUT", "ESOCKETTIMEDOUT", "ECONNABORTED"} ==> CodeVerdict(c).status == REQUEST_TIMEOUT
    ensures forall c :: c in {"ECONNREFUSED", "ECONNRESET"} ==> CodeVerdict(c).status == SERVICE_UNAVAILABLE
    ensures forall c :: c in {"EBADCSRFTOKEN", "EACCES", "EPERM"} ==> CodeVerdict(c).status == FORBIDDEN
    ensures CodeVerdict("ENOENT").status == NOT_FOUND && CodeVerdict("ENOSPC").status == INSUFFICIENT_STORAGE
  {
  }

  /** A code rule placed before the MongoError and SyntaxError rules claims the error. */
  predicate ClaimedByEarlyCode(s: Signal) {
    CodeIs(s, NumCode(11000)) || (s.code.Some? && s.code.value.TextCode? && s.code.value.s in EARLY_CODES)
  }

  /** A name rule placed before the body-parser size rule claims the error. */
  predicate NamedBeforePayload(s: Signal) {
    NameIs(s, "CastError") || NameIs(s, "MongoServerError") || NameIs(s, "MongooseServerSelectionError") || NameIs(s, "MulterError")
  }

  /**
   * The name and type rules, each once the rules before it have let the
   * error through: server selection and upload failures, the payload limit
   * (by name or by body-parser type), the MongoError timeout (and its throw
   * when the error has no message), and malformed JSON.
   */
  lemma NameTable(s: Signal)
    ensures NameIs(s, "MongooseServerSelectionError") && !CodeIs(s, NumCode(11000)) ==>
      Classify(s) == Matched(SERVICE_UNAVAILABLE, DatabaseUnreachable)
    ensures NameIs(s, "MulterError") && !CodeIs(s, NumCode(11000)) ==>
      Classify(s) == Matched(BAD_REQUEST, UploadFailed(s.message))
    ensures (NameIs(s, "PayloadTooLargeError") || s.errorType == Some("entity.too.large"))
            && !NamedBeforePayload(s) && !CodeIs(s, NumCode(11000)) ==>
      Classify(s) == Matched(REQUEST_TOO_LONG, PayloadTooLarge)
    ensures NameIs(s, "MongoError") && !ClaimedByEarlyCode(s) && s.errorType != Some("entity.too.large") && s.message.None? ==>
      Classify(s) == Faulted(ReadOfUndefined("includes"))
    ensures NameIs(s, "MongoError") && !ClaimedByEarlyCode(s) && s.errorType != Some("entity.too.large")
            && s.message.Some? && Includes(s.message.value, "timed out") ==>
      Classify(s) == Matched(GATEWAY_TIMEOUT, DatabaseTimedOut)
    ensures NameIs(s, "SyntaxError") && s.errorType == Some("entity.parse.failed") && !ClaimedByEarlyCode(s) ==>
      Classify(s) == Matched(BAD_REQUEST, InvalidJson)
  {
    if (NameIs(s, "PayloadTooLargeError") || s.errorType == Some("entity.too.large")) && !NamedBeforePayload(s) && !CodeIs(s, NumCode(11000)) {
      PayloadRule(s);
    }
    if NameIs(s, "MongoError") && !ClaimedByEarlyCode(s) && s.errorType != Some("entity.too.large") {
      MongoErrorRule(s);
    }
    if NameIs(s, "SyntaxError") && s.errorType == Some("entity.parse.failed") && !ClaimedByEarlyCode(s) {
      InvalidJsonRule(s);
    }
  }

  lemma PayloadRule(s: Signal)
    requires (NameIs(s, "PayloadTooLargeError") || s.errorType == Some("entity.too.large"))
    requires !NamedBeforePayload(s) && !CodeIs(s, NumCode(11000))
    ensures Classify(s) == Matched(REQUEST_TOO_LONG, PayloadTooLarge)
  {
  }

  /** The MongoError rule: a timeout is 504, a missing message throws, and any other MongoError falls through. */
  lemma MongoErrorRule(s: Signal)
    requires NameIs(s, "MongoError") && !ClaimedByEarlyCode(s) && s.errorType != Some("entity.too.large")
    ensures s.message.None? ==> Classify(s) == Faulted(ReadOfUndefined("includes"))
    ensures s.message.Some? && Includes(s.message.value, "timed out") ==> Classify(s) == Matched(GATEWAY_TIMEOUT, DatabaseTimedOut)
    ensures s.message.Some? && !Includes(s.message.value, "timed out") && s.code.None? ==> Classify(s) == Unmatched
  {
  }

  /** The body-parser JSON rule: a SyntaxError of type `entity.parse.failed` is 400. */
  lemma InvalidJsonRule(s: Signal)
    requires NameIs(s, "SyntaxError") && s.errorType == Some("entity.parse.failed") && !ClaimedByEarlyCode(s)
    ensures Classify(s) == Matched(BAD_REQUEST, InvalidJson)
  {
  }

  // ---------------------------------------------------------------- responses

  /** `err.statusCode || 500`: an undefined or zero status falls back to 500. */
  function FallbackStatus(statusCode: Option<int>): (r: int)
    ensures statusCode.Some? && statusCode.value != 0 ==> r == statusCode.value
    ensures statusCode.None? || statusCode.value == 0 ==> r == INTERNAL_SERVER_ERROR
  {
    if statusCode.None? || statusCode.value == 0 then INTERNAL_SERVER_ERROR else statusCode.value
  }

  /**
   * What the handler does: answer; or give `res.status` a code outside
   * 100..999, so that writing the body throws a RangeError which Express
   * passes on; or pass an error on with `next(err)` without touching the
   * response.
   */
  datatype Outcome = Sent(status: int, body: Body) | Refused(status: int) | Forwarded(err: Thrown)

  /** The error that reaches the next handler when the handler does not answer. */
  function PassedOn(o: Outcome): (e: Thrown)
    requires !o.Sent?
    ensures o.Refused? ==> e == StatusRangeError(o.status) && Name(e) == Some("RangeError")
    ensures o.Forwarded? ==> e == o.err
  {
    if o.Refused? then StatusRangeError(o.status) else o.err
  }

  /** `res.status(status).json(body)`: the status is recorded, and one outside 100..999 makes the write throw instead of answering. */
  function Answer(status: int, body: Body): (o: Outcome)
    ensures ValidStatus(status) ==> o == Sent(status, body)
    ensures !ValidStatus(status) ==> o == Refused(status)
  {
    if ValidStatus(status) then Sent(status, body) else Refused(status)
  }

  /**
   * `handleProductionErrors`: a typed error answers with its own status,
   * message and `errors`; any other error gets the chain's verdict. A rule's
   * own TypeError is passed on, and so is the RangeError of a status the
   * response cannot send.
   */
  function ProductionOutcome(err: Thrown): (o: Outcome)
    ensures o.Sent? ==> ValidStatus(o.status) && o.body.ErrorBody?
    ensures err.Custom? && ValidStatus(err.app.statusCode) ==> o == Sent(err.app.statusCode, ErrorBody(err.app.message, err.app.errors))
    ensures err.Custom? && !ValidStatus(err.app.statusCode) ==> o == Refused(err.app.statusCode)
    ensures err.Raw? && o.Sent? ==> o.body.errors.None?
    ensures err.Raw? && Classify(err.signal).Faulted? ==> o == Forwarded(FaultError(Classify(err.signal).fault))
    ensures err.Raw? && Classify(err.signal).Matched? ==> o == Sent(Classify(err.signal).status, ErrorBody(Render(Classify(err.signal).wording), None))
    ensures err.Raw? && Classify(err.signal).Unmatched? && !ValidStatus(FallbackStatus(err.signal.statusCode)) ==>
      o == Refused(FallbackStatus(err.signal.statusCode))
  {
    match err
    case Custom(a) => Answer(a.statusCode, ErrorBody(a.message, a.errors))
    case Raw(s) =>
      match Classify(s)
      case Matched(status, wording) => Sent(status, ErrorBody(Render(wording), None))
      case Unmatched => Answer(FallbackStatus(s.statusCode), ErrorBody(GENERIC_MESSAGE, None))
      case Faulted(f) => Forwarded(FaultError(f))
  }

  /** The `...rest` of `err`: its own enumerable properties other than message, name and statusCode. */
  function RestOf(err: Thrown): Rest {
    match err
    case Custom(a) => Rest(None, None, None, None, a.errors, None)
    case Raw(s) => Rest(s.code, s.errorType, s.path, s.keyValue, s.errors, s.values)
  }

  /**
   * `handleDevelopmentErrors`: it answers with the error's own status (500
   * when undefined) and message; destructuring defaults apply only to
   * undefined properties, so a zero status is kept, and any status outside
   * 100..999 makes the write throw a RangeError.
   */
  function DevelopmentOutcome(err: Thrown, req: Request): (o: Outcome)
    ensures o.Sent? <==> ValidStatus(StatusCode(err).GetOr(INTERNAL_SERVER_ERROR))
    ensures !o.Sent? ==> o == Refused(StatusCode(err).GetOr(INTERNAL_SERVER_ERROR))
    ensures o.Sent? ==> o.body.DevErrorBody?
    ensures o.Sent? && StatusCode(err).Some? ==> o.status == StatusCode(err).value
    ensures o.Sent? && StatusCode(err).None? ==> o.status == INTERNAL_SERVER_ERROR
    ensures o.Sent? && Message(err).Some? ==> o.body.message == Message(err).value
    ensures o.Sent? && Message(err).None? ==> o.body.message == "An unexpected error occurred"
    ensures o.Sent? ==> o.body.error.name == Name(err).GetOr("InternalServerError")
    ensures o.Sent? && Name(err).None? ==> o.body.error.name == "InternalServerError"
    ensures o.Sent? ==> o.body.error.stack == Stack(err) && o.body.error.path == req.originalUrl
  {
    var status := StatusCode(err).GetOr(INTERNAL_SERVER_ERROR);
    var info := DevInfo(Name(err).GetOr("InternalServerError"), status, req.timestamp, req.originalUrl,
                        req.verb, Stack(err), RestOf(err));
    Answer(status, DevErrorBody(Message(err).GetOr("An unexpected error occurred"), info))
  }

  /** `errorHandlerMiddleware`, with `res.headersSent` and NODE_ENV as inputs. */
  function Respond(err: Thrown, req: Request, headersSent: bool, nodeEnv: Option<string>): (o: Outcome)
    ensures headersSent ==> o == Forwarded(err)
    ensures o.Sent? ==> ValidStatus(o.status)
    ensures !headersSent && !IsProduction(nodeEnv) && ValidStatus(StatusCode(err).GetOr(INTERNAL_SERVER_ERROR)) ==>
      o.Sent? && o.body.DevErrorBody?
    ensures !headersSent && IsProduction(nodeEnv) && o.Sent? ==> o.body.ErrorBody?
    ensures o.Forwarded? && !headersSent ==> Name(o.err) == Some("TypeError")
    ensures o.Refused? ==> !headersSent && !ValidStatus(o.status)
    ensures !headersSent && IsProduction(nodeEnv) ==> o == ProductionOutcome(err)
    ensures !headersSent && !IsProduction(nodeEnv) ==> o == DevelopmentOutcome(err, req)
  {
    if headersSent then Forwarded(err)
    else if IsProduction(nodeEnv) then ProductionOutcome(err)
    else DevelopmentOutcome(err, req)
  }

  /**
   * The middleware on a live response (Express 4): it writes status and body
   * once; or it records a status the response cannot send, headers still
   * unsent, and returns the RangeError of the write for `next`; or it leaves
   * the response untouched and returns the error it passes to `next`.
   */
  method ErrorHandlerMiddleware(err: Thrown, req: Request, res: ServerResponse, nodeEnv: Option<string>)
    returns (next: Option<Thrown>)
    modifies res
    ensures match Respond(err, req, old(res.headersSent), nodeEnv)
      case Sent(status, body) =>
        next.None? && res.statusCode == status && res.body == Some(body) && res.headersSent
        && res.cookies == old(res.cookies)
      case Refused(status) =>
        next == Some(StatusRangeError(status)) && res.statusCode == status && res.body == old(res.body)
        && res.headersSent == old(res.headersSent) && res.cookies == old(res.cookies)
      case Forwarded(e) =>
        next == Some(e) && res.statusCode == old(res.statusCode) && res.body == old(res.body)
        && res.headersSent == old(res.headersSent) && res.cookies == old(res.cookies)
  {
    if res.headersSent {
      return Some(err);
    }
    var outcome := if IsProduction(nodeEnv) then ProductionOutcome(err) else DevelopmentOutcome(err, req);
    match outcome
    case Sent(status, body) =>
      res.Status(status);
      res.Json(body);
      next := None;
    case Refused(status) =>
      res.Status(status);
      next := Some(StatusRangeError(status));
    case Forwarded(e) =>
      next := Some(e);
  }

  // ---------------------------------------------------------------- properties

  /** A typed error is answered with its own status and message in both modes; only production drops the details. */
  lemma TypedErrorModesAgree(a: AppError, req: Request, prodEnv: Option<string>, devEnv: Option<string>)
    requires IsProduction(prodEnv) && !IsProduction(devEnv) && ValidStatus(a.statusCode)
    ensures var p := Respond(Custom(a), req, false, prodEnv);
            var d := Respond(Custom(a), req, false, devEnv);
            p.Sent? && d.Sent? && p.status == d.status == a.statusCode
            && p.body.message == d.body.message == a.message
            && p.body == ErrorBody(a.message, a.errors)
  {
  }

  /** Typed errors go before every name rule: a subclass instance keeps its fixed status in production. */
  lemma SubclassStatusReachesClient(k: Kind, message: Option<string>, env: Option<string>, req: Request)
    requires k != CustomAPI && k != Validation && IsProduction(env)
    ensures Respond(Custom(NewError(k, message)), req, false, env).status == FixedStatus(k).value
  {
  }

  /**
   * The typed ValidationError shares its name with Mongoose's, yet it is
   * answered as a typed error: 422 with its own message and `errors`, where
   * Mongoose's gets 400 and the joined field messages.
   */
  lemma TypedValidationKeeps422(errors: ErrorsArg, message: Option<string>, env: Option<string>, req: Request)
    requires IsProduction(env)
    ensures var e := NewValidationError(errors, message);
      Respond(Custom(e), req, false, env) == Sent(UNPROCESSABLE_ENTITY, ErrorBody(e.message, e.errors))
    ensures var e := NewValidationError(errors, message);
      Name(Custom(e)) == Some("ValidationError") && Respond(Custom(e), req, false, env).status == FixedStatus(Validation).value
  {
  }

  /** CastError names the offending path. */
  lemma CastErrorResponse(s: Signal)
    requires NameIs(s, "CastError")
    ensures ProductionOutcome(Raw(s)) == Sent(NOT_FOUND, ErrorBody("Resource not found. Invalid: " + Show(s.path), None))
  {
  }

  /** The duplicate-key rule is tested before the MongoServerError rule: a duplicate key is a conflict, not an outage. */
  lemma DuplicateKeyIsConflict(s: Signal, field: string, value: string, more: Entries)
    requires s.name == Some("MongoServerError") && s.code == Some(NumCode(11000))
    requires s.keyValue == Some([(field, value)] + more)
    ensures ProductionOutcome(Raw(s)) == Sent(CONFLICT, ErrorBody(field + " '" + value + "' already exists.", None))
  {
  }

  /** A MongoServerError with any other code is a 503. */
  lemma ServerErrorIsOutage(s: Signal)
    requires s.name == Some("MongoServerError") && s.code != Some(NumCode(11000))
    ensures ProductionOutcome(Raw(s)).status == SERVICE_UNAVAILABLE
  {
  }

  /** A Mongoose validation failure lists every field message, joined by "; ". */
  lemma MongooseValidationResponse(s: Signal, errors: Entries)
    requires NameIs(s, "ValidationError") && s.errors == Some(errors)
    requires s.code.None? && s.errorType != Some("entity.too.large")
    ensures Classify(s) == Matched(BAD_REQUEST, FieldViolations(errors))
  {
  }

  /** An error no rule claims keeps its own status (or 500) and gets the generic message, if the response can send that status. */
  lemma UnmatchedKeepsStatus(s: Signal)
    requires Classify(s) == Unmatched
    ensures ValidStatus(FallbackStatus(s.statusCode)) ==>
      ProductionOutcome(Raw(s)) == Sent(FallbackStatus(s.statusCode), ErrorBody(GENERIC_MESSAGE, None))
    ensures !ValidStatus(FallbackStatus(s.statusCode)) ==>
      ProductionOutcome(Raw(s)) == Refused(FallbackStatus(s.statusCode))
  {
  }

  /**
   * A status the response cannot send is recorded but not answered, and the
   * write's RangeError is passed on: in development any such status of the error itself, zero
   * included, since the `= 500` default applies only to an undefined one; in
   * production a typed error's own status, or an unclaimed error's status
   * after `|| 500`.
   */
  lemma InvalidStatusForwarded(err: Thrown, req: Request, env: Option<string>)
    ensures !IsProduction(env) && StatusCode(err).Some? && !ValidStatus(StatusCode(err).value) ==>
      Respond(err, req, false, env) == Refused(StatusCode(err).value)
    ensures IsProduction(env) && err.Custom? && !ValidStatus(err.app.statusCode) ==>
      Respond(err, req, false, env) == Refused(err.app.statusCode)
    ensures IsProduction(env) && err.Raw? && Classify(err.signal).Unmatched? && !ValidStatus(FallbackStatus(err.signal.statusCode)) ==>
      Respond(err, req, false, env) == Refused(FallbackStatus(err.signal.statusCode))
  {
  }

  /** A zero status: development keeps it and the write throws, while production's `|| 500` turns it into 500. */
  lemma ZeroStatusModesDiffer(s: Signal, req: Request, prodEnv: Option<string>, devEnv: Option<string>)
    requires IsProduction(prodEnv) && !IsProduction(devEnv)
    requires s.statusCode == Some(0) && Classify(s) == Unmatched
    ensures Respond(Raw(s), req, false, devEnv) == Refused(0)
    ensures Respond(Raw(s), req, false, prodEnv) == Sent(INTERNAL_SERVER_ERROR, ErrorBody(GENERIC_MESSAGE, None))
  {
  }
}
