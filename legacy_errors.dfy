/**
 * The older error middleware (middlewares/errors.js). It writes a default
 * status back into `err`; in development (NODE_ENV exactly "DEVELOPMENT") it
 * echoes the error, otherwise it runs five independent rules, each of which
 * replaces the message when it applies, and always answers 404.
 */
module LegacyErrors {
  import opened Wrappers
  import opened Text
  import opened StatusCodes
  import opened CustomErrors
  import opened ErrorValue
  import opened Http
  import opened ErrorHandler

  /** The rules, in the order the source tests them. */
  datatype LegacyRule = CastRule | ValidationRule | DuplicateRule | InvalidTokenRule | ExpiredTokenRule

  const LEGACY_RULES: seq<LegacyRule> := [CastRule, ValidationRule, DuplicateRule, InvalidTokenRule, ExpiredTokenRule]

  /** The properties the rules read, whichever kind of error was thrown. */
  function Props(err: Thrown): Signal {
    match err
    case Raw(s) => s
    case Custom(a) => Signal(Some(a.name), Some(a.message), None, None, None, None, a.errors, None, Some(a.statusCode), Some(CAPTURED_STACK))
  }

  /** Whether a rule's condition holds. */
  predicate Applies(r: LegacyRule, s: Signal) {
    match r
    case CastRule => s.name == Some("CastError")
    case ValidationRule => s.name == Some("ValidationError")
    case DuplicateRule => s.code == Some(NumCode(11000))
    case InvalidTokenRule => s.name == Some("JsonWebTokenError")
    case ExpiredTokenRule => s.name == Some("TokenExpiredError")
  }

  /** The keys or messages of an object, as `String(array)` renders them: joined by commas. */
  function Keys(e: Entries): seq<string> { if e == [] then [] else [e[0].0] + Keys(e[1..]) }
  function Values(e: Entries): seq<string> { if e == [] then [] else [e[0].1] + Values(e[1..]) }

  /** The message a rule that applies computes; reading through an undefined object throws. */
  function RuleMessage(r: LegacyRule, s: Signal): Result
    requires Applies(r, s)
  {
    match r
    case CastRule => Says("Resource not found. Invalid: " + Show(s.path))
    case ValidationRule =>
      if s.values.None? then Throws(ValuesOfUndefined) else Says(Join(Values(s.values.value), ","))
    case DuplicateRule =>
      if s.keyValue.None? then Throws(KeysOfUndefined) else Says("Duplicate " + Join(Keys(s.keyValue.value), ",") + " entered.")
    case InvalidTokenRule => Says("JSON Web Token is invalid. Please try again.")
    case ExpiredTokenRule => Says("JSON Web Token is expired. Please try again.")
  }

  datatype Result = Says(text: string) | Throws(fault: Fault)

  /** The first rule that applies and throws, if any: the rules after it never run. */
  function FirstThrow(rules: seq<LegacyRule>, s: Signal): (r: Option<Fault>)
    ensures r.Some? ==> exists i :: 0 <= i < |rules| && Applies(rules[i], s) && RuleMessage(rules[i], s) == Throws(r.value)
    ensures r.None? <==> forall i :: 0 <= i < |rules| && Applies(rules[i], s) ==> RuleMessage(rules[i], s).Says?
  {
    assert forall i :: 1 <= i < |rules| ==> rules[i] == rules[1..][i - 1];
    if rules == [] then None
    else if Applies(rules[0], s) && RuleMessage(rules[0], s).Throws? then Some(RuleMessage(rules[0], s).fault)
    else FirstThrow(rules[1..], s)
  }

  /** The last rule that applies, if any: its message is the one that survives. */
  function LastApplying(rules: seq<LegacyRule>, s: Signal): (r: Option<LegacyRule>)
    ensures r.Some? ==> r.value in rules && Applies(r.value, s)
    ensures r.None? ==> forall i :: 0 <= i < |rules| ==> !Applies(rules[i], s)
  {
    if rules == [] then None
    else if Applies(rules[|rules| - 1], s) then Some(rules[|rules| - 1])
    else LastApplying(rules[..|rules| - 1], s)
  }

  /**
   * The specification of the rule sequence: the first rule to throw decides;
   * otherwise the last rule to apply supplies the message; otherwise `err.message` stays.
   */
  function Translation(s: Signal): (r: Option<Result>)
    ensures r.None? <==> s.message.None? && forall i :: 0 <= i < |LEGACY_RULES| ==> !Applies(LEGACY_RULES[i], s)
    ensures r.Some? && r.value.Throws? ==> exists i :: 0 <= i < |LEGACY_RULES| && Applies(LEGACY_RULES[i], s)
    ensures r.Some? && r.value.Says? && s.message.Some? && r.value.text != s.message.value ==>
      exists i :: 0 <= i < |LEGACY_RULES| && Applies(LEGACY_RULES[i], s)
  {
    var thrown := FirstThrow(LEGACY_RULES, s);
    if thrown.Some? then Some(Throws(thrown.value))
    else
      var last := LastApplying(LEGACY_RULES, s);
      if last.Some? then Some(RuleMessage(last.value, s))
      else if s.message.Some? then Some(Says(s.message.value))
      else None
  }

  /** Only the validation and duplicate-key rules can throw, and the validation rule is reached first. */
  lemma {:induction false} OnlyTwoRulesThrow(s: Signal)
    ensures FirstThrow(LEGACY_RULES, s) ==
      if s.name == Some("ValidationError") && s.values.None? then Some(ValuesOfUndefined)
      else if s.code == Some(NumCode(11000)) && s.keyValue.None? then Some(KeysOfUndefined)
      else None
  {
    var r4 := [ExpiredTokenRule];
    var r3 := [InvalidTokenRule] + r4;
    var r2 := [DuplicateRule] + r3;
    var r1 := [ValidationRule] + r2;
    assert LEGACY_RULES == [CastRule] + r1;
    assert r4[1..] == [] && r3[1..] == r4 && r2[1..] == r3 && r1[1..] == r2 && LEGACY_RULES[1..] == r1;
    assert FirstThrow(r4, s) == None;
    assert FirstThrow(r3, s) == None;
    assert FirstThrow(r2, s) == if s.code == Some(NumCode(11000)) && s.keyValue.None? then Some(KeysOfUndefined) else None;
  }

  /** Reading the rules backwards: the token rules outrank the duplicate-key rule, which outranks the others. */
  lemma {:induction false} LaterRulesOutrank(s: Signal)
    ensures LastApplying(LEGACY_RULES, s) ==
      if s.name == Some("TokenExpiredError") then Some(ExpiredTokenRule)
      else if s.name == Some("JsonWebTokenError") then Some(InvalidTokenRule)
      else if s.code == Some(NumCode(11000)) then Some(DuplicateRule)
      else if s.name == Some("ValidationError") then Some(ValidationRule)
      else if s.name == Some("CastError") then Some(CastRule)
      else None
  {
    var r1 := [CastRule];
    var r2 := r1 + [ValidationRule];
    var r3 := r2 + [DuplicateRule];
    var r4 := r3 + [InvalidTokenRule];
    assert LEGACY_RULES == r4 + [ExpiredTokenRule];
    assert r1[..0] == [] && r2[..1] == r1 && r3[..2] == r2 && r4[..3] == r3 && LEGACY_RULES[..4] == r4;
    assert LastApplying(r1, s) == if s.name == Some("CastError") then Some(CastRule) else None;
    assert LastApplying(r2, s) == if s.name == Some("ValidationError") then Some(ValidationRule) else LastApplying(r1, s);
    assert LastApplying(r3, s) == if s.code == Some(NumCode(11000)) then Some(DuplicateRule) else LastApplying(r2, s);
  }

  /** Lines 15-46: `error` starts as a copy of `err`, and each rule that applies replaces it. */
  method TranslateError(s: Signal) returns (message: Option<string>, fault: Option<Fault>)
    ensures fault.Some? <==> Translation(s).Some? && Translation(s).value.Throws?
    ensures fault.Some? ==> Translation(s) == Some(Throws(fault.value))
    ensures fault.None? ==> (message.None? <==> Translation(s).None?)
    ensures fault.None? && message.Some? ==> Translation(s) == Some(Says(message.value))
  {
    OnlyTwoRulesThrow(s);
    LaterRulesOutrank(s);
    message, fault := s.message, None;
    if s.name == Some("CastError") {
      message := Some("Resource not found. Invalid: " + Show(s.path));
    }
    if s.name == Some("ValidationError") {
      if s.values.None? {
        return message, Some(ValuesOfUndefined);
      }
      message := Some(Join(Values(s.values.value), ","));
    }
    if s.code == Some(NumCode(11000)) {
      if s.keyValue.None? {
        return message, Some(KeysOfUndefined);
      }
      message := Some("Duplicate " + Join(Keys(s.keyValue.value), ",") + " entered.");
    }
    if s.name == Some("JsonWebTokenError") {
      message := Some("JSON Web Token is invalid. Please try again.");
    }
    if s.name == Some("TokenExpiredError") {
      message := Some("JSON Web Token is expired. Please try again.");
    }
  }

  // ---------------------------------------------------------------- the middleware

  /** Development mode needs NODE_ENV to be exactly "DEVELOPMENT". */
  predicate IsDevelopment(nodeEnv: Option<string>) {
    nodeEnv == Some("DEVELOPMENT")
  }

  /** Line 5, `err.statusCode = err.statusCode || 500`: the value `err` has after the middleware has run. */
  function Defaulted(err: Thrown): (r: Thrown)
    ensures StatusCode(r) == Some(FallbackStatus(StatusCode(err)))
    ensures Name(r) == Name(err) && Message(r) == Message(err) && Stack(r) == Stack(err)
  {
    WithStatusCode(err, FallbackStatus(StatusCode(err)))
  }

  const FALLBACK_TEXT: string := "Internal Server Error"

  /** `error.message || 'Internal Server Error'` */
  function Shown(message: Option<string>): (r: string)
    ensures r != ""
    ensures message.Some? && message.value != "" ==> r == message.value
  {
    if message.None? || message.value == "" then FALLBACK_TEXT else message.value
  }

  /**
   * What the middleware answers on a response whose headers are still unsent.
   * In development the defaulted status is given to `res.status` as it is,
   * so one outside 100..999 makes the write throw a RangeError that Express
   * passes on.
   */
  function LegacyOutcome(err: Thrown, nodeEnv: Option<string>): (o: Outcome)
    ensures o.Sent? ==> ValidStatus(o.status)
    ensures o.Sent? && !IsDevelopment(nodeEnv) ==> o.status == NOT_FOUND
    ensures o.Sent? && IsDevelopment(nodeEnv) ==> o.status == FallbackStatus(StatusCode(err))
    ensures IsDevelopment(nodeEnv) ==> (o.Sent? <==> ValidStatus(FallbackStatus(StatusCode(err))))
    ensures o.Refused? ==> IsDevelopment(nodeEnv) && o.status == FallbackStatus(StatusCode(err))
    ensures o.Forwarded? ==> !IsDevelopment(nodeEnv) && Name(o.err) == Some("TypeError")
  {
    var e := Defaulted(err);
    if IsDevelopment(nodeEnv) then
      Answer(StatusCode(e).value, LegacyDevBody(e, Message(e), Stack(e)))
    else
      match Translation(Props(e))
      case Some(Throws(f)) => Forwarded(FaultError(f))
      case Some(Says(m)) => Sent(NOT_FOUND, ErrorBody(Shown(Some(m)), None))
      case None => Sent(NOT_FOUND, ErrorBody(FALLBACK_TEXT, None))
  }

  /** What `res.json` throws when a response has already been sent. */
  const HEADERS_SENT_ERROR: Thrown :=
    Raw(PlainError("Error", "Cannot set headers after they are sent to the client").(code := Some(TextCode("ERR_HTTP_HEADERS_SENT"))))

  /**
   * The middleware on a live response (Express 4). It does not look at
   * `res.headersSent`: `res.status` always records the code; on a response
   * already sent `res.json` throws when it sets the content type, and on an
   * unsent one a code outside 100..999 makes the write throw a RangeError.
   * Express hands either on as the next error.
   */
  method LegacyErrorMiddleware(err: Thrown, res: ServerResponse, nodeEnv: Option<string>)
    returns (updated: Thrown, next: Option<Thrown>)
    modifies res
    ensures updated == Defaulted(err)
    ensures res.cookies == old(res.cookies)
    ensures match LegacyOutcome(err, nodeEnv)
      case Sent(status, body) =>
        res.statusCode == status && res.headersSent
        && (if old(res.headersSent) then next == Some(HEADERS_SENT_ERROR) && res.body == old(res.body)
            else next.None? && res.body == Some(body))
      case Refused(status) =>
        res.statusCode == status && res.body == old(res.body) && res.headersSent == old(res.headersSent)
        && next == Some(if old(res.headersSent) then HEADERS_SENT_ERROR else StatusRangeError(status))
      case Forwarded(e) =>
        next == Some(e) && res.statusCode == old(res.statusCode) && res.body == old(res.body)
        && res.headersSent == old(res.headersSent)
  {
    updated := Defaulted(err);
    var status: int;
    var body: Body;
    if IsDevelopment(nodeEnv) {
      status := StatusCode(updated).value;
      body := LegacyDevBody(updated, Message(updated), Stack(updated));
    } else {
      var message, fault := TranslateError(Props(updated));
      if fault.Some? {
        return updated, Some(FaultError(fault.value));
      }
      status := NOT_FOUND;
      body := ErrorBody(Shown(message), None);
    }
    res.Status(status);
    if res.headersSent {
      return updated, Some(HEADERS_SENT_ERROR);
    }
    if !ValidStatus(status) {
      return updated, Some(StatusRangeError(status));
    }
    res.Json(body);
    next := None;
  }

  // ---------------------------------------------------------------- properties

  /** A later rule overwrites an earlier one: a CastError that also carries the duplicate-key code reports the duplicate. */
  lemma DuplicateOverwritesCast(s: Signal, keys: Entries, env: Option<string>)
    requires s.name == Some("CastError") && s.code == Some(NumCode(11000)) && s.keyValue == Some(keys)
    requires !IsDevelopment(env)
    ensures LegacyOutcome(Raw(s), env) == Sent(NOT_FOUND, ErrorBody("Duplicate " + Join(Keys(keys), ",") + " entered.", None))
  {
    OnlyTwoRulesThrow(Props(Defaulted(Raw(s))));
    LaterRulesOutrank(Props(Defaulted(Raw(s))));
  }

  /** The token rules come last, so their fixed texts win over the duplicate-key message. */
  lemma TokenMessagesWin(s: Signal, env: Option<string>)
    requires s.name == Some("JsonWebTokenError") || s.name == Some("TokenExpiredError")
    requires s.keyValue.Some? && !IsDevelopment(env)
    ensures LegacyOutcome(Raw(s), env) == Sent(NOT_FOUND, ErrorBody(
      if s.name == Some("JsonWebTokenError") then "JSON Web Token is invalid. Please try again."
      else "JSON Web Token is expired. Please try again.", None))
  {
    OnlyTwoRulesThrow(Props(Defaulted(Raw(s))));
    LaterRulesOutrank(Props(Defaulted(Raw(s))));
  }

  /**
   * The validation rule reads `err.values`, which a Mongoose ValidationError
   * does not have (its messages are in `err.errors`): the middleware throws a
   * TypeError instead of answering.
   */
  lemma MongooseValidationThrows(s: Signal, env: Option<string>)
    requires s.name == Some("ValidationError") && s.values.None? && !IsDevelopment(env)
    ensures LegacyOutcome(Raw(s), env) == Forwarded(FaultError(ValuesOfUndefined))
  {
    OnlyTwoRulesThrow(Props(Defaulted(Raw(s))));
  }

  /**
   * In development the written-back status is sent unchecked: a zero status
   * becomes 500 through `|| 500`, but any other status outside 100..999 is
   * recorded, not answered, and the RangeError of the write is passed on.
   */
  lemma LegacyInvalidStatusForwarded(err: Thrown, env: Option<string>)
    requires IsDevelopment(env)
    ensures StatusCode(err) == Some(0) ==> LegacyOutcome(err, env).Sent? && LegacyOutcome(err, env).status == INTERNAL_SERVER_ERROR
    ensures StatusCode(err).Some? && StatusCode(err).value != 0 && !ValidStatus(StatusCode(err).value) ==>
      LegacyOutcome(err, env) == Refused(StatusCode(err).value)
  {
  }

  /** An error no rule claims keeps its own message, or the fallback text when it has none. */
  lemma UnclaimedKeepsMessage(s: Signal, env: Option<string>)
    requires LastApplying(LEGACY_RULES, s).None? && !IsDevelopment(env)
    ensures LegacyOutcome(Raw(s), env) == Sent(NOT_FOUND, ErrorBody(Shown(s.message), None))
  {
    OnlyTwoRulesThrow(Props(Defaulted(Raw(s))));
    LaterRulesOutrank(Props(Defaulted(Raw(s))));
    LaterRulesOutrank(s);
  }
}
