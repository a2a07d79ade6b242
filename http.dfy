/**
 * The parts of Express's `req` and `res` the core touches: the response the
 * handlers write (status, cookies, one JSON body), and the `req.user` slot
 * together with the `next` calls a middleware makes.
 */
module Http {
  import opened Wrappers
  import opened StatusCodes
  import opened CustomErrors
  import opened ErrorValue
  import opened UserModel

  datatype Cookie = Cookie(name: string, value: string, expires: int, httpOnly: bool)

  /** Everything of `err` except `message`, `name` and `statusCode`: the `...rest` of the development handler. */
  datatype Rest = Rest(
    code: Option<Code>, errorType: Option<string>, path: Option<string>,
    keyValue: Option<Entries>, errors: Option<Entries>, values: Option<Entries>)

  /** The `error` member of a development-mode response. */
  datatype DevInfo = DevInfo(
    name: string, statusCode: int, timestamp: string, path: string, verb: string,
    stack: Option<string>, details: Rest)

  /** The JSON bodies the core sends; `success` is false for the first three and true for the rest. */
  datatype Body =
    | ErrorBody(message: string, errors: Option<Entries>)              // { success: false, message, errors? }
    | DevErrorBody(message: string, error: DevInfo)                    // { success: false, message, error }
    | LegacyDevBody(thrown: Thrown, errMessage: Option<string>, stack: Option<string>)
    | TokenBody(token: string, user: User)                             // { success: true, token, user }
    | RegisteredBody(token: string)                                    // { success: true, token }
    | NoticeBody(message: string)                                      // { success: true, message }
    | UserBody(found: Option<User>)                                    // { success: true, user }

  predicate Success(b: Body) {
    !(b.ErrorBody? || b.DevErrorBody? || b.LegacyDevBody?)
  }

  /** A byte stream that can carry one response: once the body is sent, the headers are. */
  class ServerResponse {
    var headersSent: bool
    var statusCode: int
    var cookies: seq<Cookie>
    var body: Option<Body>

    constructor ()
      ensures !headersSent && statusCode == 200 && cookies == [] && body.None?
    {
      headersSent, statusCode, cookies, body := false, 200, [], None;
    }

    /** `res.status(code)`: Express 4 only records the code; whether it can be sent is found out when writing. */
    method Status(code: int)
      modifies this`statusCode
      ensures statusCode == code
    {
      statusCode := code;
    }

    /** `res.cookie(name, value, options)`: Express refuses it once headers are sent. */
    method SetCookie(c: Cookie)
      requires !headersSent
      modifies this`cookies
      ensures cookies == old(cookies) + [c]
    {
      cookies := cookies + [c];
    }

    /** `res.json(body)`: Express refuses a second response, and Node a status outside 100..999. */
    method Json(b: Body)
      requires !headersSent && ValidStatus(statusCode)
      modifies this`body, this`headersSent
      ensures body == Some(b) && headersSent
    {
      body := Some(b);
      headersSent := true;
    }
  }

  /** `req.user` and the calls a middleware makes to `next` (`None` for `next()`, `Some(err)` for `next(err)`). */
  class Exchange<U> {
    var user: Option<U>
    var nextCalls: seq<Option<Thrown>>

    constructor (user: Option<U>)
      ensures this.user == user && nextCalls == []
    {
      this.user := user;
      nextCalls := [];
    }

    method Next(err: Option<Thrown>)
      modifies this`nextCalls
      ensures nextCalls == old(nextCalls) + [err]
    {
      nextCalls := nextCalls + [err];
    }
  }
}
