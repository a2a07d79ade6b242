/**
 * The current authentication and authorization middleware (middleware/auth.js).
 * `authenticate` picks one token by precedence (Bearer header, then the
 * `token` cookie, then the signed `token` cookie), tells a missing token from
 * one that fails verification, and attaches the decoded claims to `req.user`.
 * `authorizeRoles` flattens its arguments one level and admits a role found
 * among them.
 */
module Auth {
  import opened Wrappers
  import opened Text
  import opened StatusCodes
  import opened CustomErrors
  import opened ErrorValue
  import opened Tokens
  import opened Http

  /** The three places a token can come from: `req.headers.authorization`, `req.cookies.token`, `req.signedCookies.token`. */
  datatype Credentials = Credentials(authorization: Option<string>, cookieToken: Option<string>, signedCookieToken: Option<string>)

  const BEARER_PREFIX: string := "Bearer "

  /** Where the token was taken from. */
  datatype Source = BearerHeader | TokenCookie | SignedTokenCookie | Nowhere

  /** The branch of lines 48-54 that the request takes. */
  function TokenSource(c: Credentials): (src: Source)
    ensures src == BearerHeader <==> c.authorization.Some? && StartsWith(c.authorization.value, BEARER_PREFIX)
    ensures src == TokenCookie ==> Truthy(c.cookieToken)
    ensures src == SignedTokenCookie ==> Truthy(c.signedCookieToken) && !Truthy(c.cookieToken)
    ensures src == Nowhere ==> !Truthy(c.cookieToken) && !Truthy(c.signedCookieToken)
  {
    if Truthy(c.authorization) && StartsWith(c.authorization.value, BEARER_PREFIX) then BearerHeader
    else if Truthy(c.cookieToken) then TokenCookie
    else if Truthy(c.signedCookieToken) then SignedTokenCookie
    else Nowhere
  }

  /** The value of `token` after lines 44-54: `None` stands for `null` and `undefined`. */
  function SelectedToken(c: Credentials): (token: Option<string>)
    ensures c.authorization.Some? && StartsWith(c.authorization.value, BEARER_PREFIX) ==> token == SecondPiece(c.authorization.value)
    ensures TokenSource(c) != BearerHeader ==> (Truthy(token) <==> Truthy(c.cookieToken) || Truthy(c.signedCookieToken))
    ensures token.Some? ==> (c.authorization.Some? && token == SecondPiece(c.authorization.value)) || token == c.cookieToken || token == c.signedCookieToken
  {
    match TokenSource(c)
    case BearerHeader => SecondPiece(c.authorization.value)
    case TokenCookie => c.cookieToken
    case SignedTokenCookie => c.signedCookieToken
    case Nowhere => None
  }

  const MISSING_TOKEN: string := "Authentication invalid. Please log in"
  const BAD_TOKEN: string := "Invalid or expired token. Please log in again"

  datatype AuthResult = Authenticated(claims: Claims) | Rejected(error: AppError)

  /** `authenticate`, with `jwt.verify` (under the server's secret) as a parameter. */
  function Authenticate(c: Credentials, verify: string -> Verification): (r: AuthResult)
    ensures r.Rejected? ==> r.error.kind == Unauthenticated && r.error.statusCode == UNAUTHORIZED
    ensures r.Rejected? ==> (r.error.message == MISSING_TOKEN <==> !Truthy(SelectedToken(c)))
    ensures r.Authenticated? <==> Truthy(SelectedToken(c)) && verify(SelectedToken(c).value).Verified?
    ensures r.Authenticated? ==> r.claims == verify(SelectedToken(c).value).claims
  {
    var token := SelectedToken(c);
    if !Truthy(token) then Rejected(NewError(Unauthenticated, Some(MISSING_TOKEN)))
    else
      match verify(token.value)
      case Verified(claims) => Authenticated(claims)
      case _ => Rejected(NewError(Unauthenticated, Some(BAD_TOKEN)))
  }

  /**
   * The middleware on a live request. On success it sets `req.user` and calls
   * `next()` once; otherwise it throws the returned error and touches nothing.
   */
  method AuthenticateRequest(c: Credentials, ex: Exchange<Claims>, verify: string -> Verification)
    returns (thrown: Option<AppError>)
    modifies ex
    ensures match Authenticate(c, verify)
      case Authenticated(claims) =>
        thrown.None? && ex.user == Some(claims) && ex.nextCalls == old(ex.nextCalls) + [None]
      case Rejected(e) =>
        thrown == Some(e) && ex.user == old(ex.user) && ex.nextCalls == old(ex.nextCalls)
  {
    var token := SelectedToken(c);
    if !Truthy(token) {
      return Some(NewError(Unauthenticated, Some(MISSING_TOKEN)));
    }
    var v := verify(token.value);
    if !v.Verified? {
      return Some(NewError(Unauthenticated, Some(BAD_TOKEN)));
    }
    ex.user := Some(v.claims);
    ex.Next(None);
    thrown := None;
  }

  // ---------------------------------------------------------------- token precedence

  /** A header starting with "Bearer " decides, whatever the cookies hold. */
  lemma BearerHeaderWins(c: Credentials, h: string)
    requires c.authorization == Some(h) && StartsWith(h, BEARER_PREFIX)
    ensures SelectedToken(c) == SecondPiece(h)
  {
  }

  /** The token of a Bearer header is what follows "Bearer " up to the next space. */
  lemma BearerToken(token: string)
    ensures SecondPiece(BEARER_PREFIX + token) == Some(UpToSpace(token))
  {
    var h := BEARER_PREFIX + token;
    assert h[..6] == "Bearer" && h[6] == ' ' && h[7..] == token;
    FirstSpaceAt(h, 6);
  }

  /** "Bearer " with nothing after it yields an empty token: no fallback to the cookies, and the missing-token error. */
  lemma EmptyBearerDoesNotFallBack(c: Credentials, verify: string -> Verification)
    requires c.authorization == Some(BEARER_PREFIX)
    ensures Authenticate(c, verify) == Rejected(NewError(Unauthenticated, Some(MISSING_TOKEN)))
  {
    BearerToken("");
    assert BEARER_PREFIX + "" == BEARER_PREFIX;
  }

  /** Without a Bearer header the `token` cookie comes before the signed one. */
  lemma CookieBeforeSignedCookie(c: Credentials)
    requires c.authorization.None? || !StartsWith(c.authorization.value, BEARER_PREFIX)
    ensures Truthy(c.cookieToken) ==> SelectedToken(c) == c.cookieToken
    ensures !Truthy(c.cookieToken) && Truthy(c.signedCookieToken) ==> SelectedToken(c) == c.signedCookieToken
    ensures !Truthy(c.cookieToken) && !Truthy(c.signedCookieToken) ==> SelectedToken(c).None?
  {
  }

  /** A missing token and a refused one get the same status; only the message tells them apart. */
  lemma MissingAndInvalidShareStatus(c1: Credentials, c2: Credentials, verify: string -> Verification)
    requires !Truthy(SelectedToken(c1))
    requires Truthy(SelectedToken(c2)) && !verify(SelectedToken(c2).value).Verified?
    ensures Authenticate(c1, verify).Rejected? && Authenticate(c2, verify).Rejected?
    ensures Authenticate(c1, verify).error.statusCode == Authenticate(c2, verify).error.statusCode == UNAUTHORIZED
    ensures Authenticate(c1, verify).error.message == MISSING_TOKEN
    ensures Authenticate(c2, verify).error.message == BAD_TOKEN
  {
  }

  // ---------------------------------------------------------------- authorizeRoles

  /** An argument of `authorizeRoles`: a role name, or an array (which may itself hold arrays). */
  datatype RoleArg = RoleName(name: string) | RoleList(items: seq<RoleArg>)

  /** `roles.flat()`: arrays are spread into their elements, exactly one level deep. */
  function Flat(roles: seq<RoleArg>): (r: seq<RoleArg>)
    ensures (forall i :: 0 <= i < |roles| ==> roles[i].RoleName?) ==> r == roles
  {
    if roles == [] then []
    else Spread(roles[0]) + Flat(roles[1..])
  }

  /** The elements one argument contributes to `roles.flat()`. */
  function Spread(arg: RoleArg): seq<RoleArg> {
    match arg
    case RoleName(_) => [arg]
    case RoleList(items) => items
  }

  /** The flattened list holds exactly what the arguments contribute. */
  lemma {:induction false} FlatMembers(roles: seq<RoleArg>, x: RoleArg)
    ensures x in Flat(roles) <==> exists i :: 0 <= i < |roles| && Contributes(roles[i], x)
  {
    if roles != [] {
      var tail := roles[1..];
      FlatMembers(tail, x);
      assert x in Spread(roles[0]) <==> Contributes(roles[0], x);
      if x in Flat(tail) {
        var i :| 0 <= i < |tail| && Contributes(tail[i], x);
        assert roles[i + 1] == tail[i];
      }
      if i :| 1 <= i < |roles| && Contributes(roles[i], x) {
        assert tail[i - 1] == roles[i];
      }
    }
  }

  /** What one argument puts into the flattened list: itself when a name, its elements when an array. */
  predicate Contributes(arg: RoleArg, x: RoleArg) {
    match arg
    case RoleName(_) => x == arg
    case RoleList(items) => x in items
  }

  /** `allowedRoles.includes(req.user.role)`: strict equality, so an undefined role is never included. */
  predicate Allowed(roles: seq<RoleArg>, role: Option<string>): (b: bool)
    ensures role.None? ==> !b
  {
    role.Some? && RoleName(role.value) in Flat(roles)
  }

  /** A role is allowed exactly when it is named as an argument or inside an array argument. */
  lemma AllowedIffNamedOneLevelDeep(roles: seq<RoleArg>, role: string)
    ensures Allowed(roles, Some(role)) <==>
      exists i :: 0 <= i < |roles| && (roles[i] == RoleName(role) || (roles[i].RoleList? && RoleName(role) in roles[i].items))
  {
    FlatMembers(roles, RoleName(role));
  }

  /** The denial message: `${req.user.role} is not authorized to perform this action`. */
  function DenialMessage(role: Option<string>): string {
    Show(role) + " is not authorized to perform this action"
  }

  /** What the returned middleware throws: nothing, a ForbiddenError, or a TypeError when `req.user` is unset. */
  function Authorize(roles: seq<RoleArg>, user: Option<Claims>): (r: Option<Thrown>)
    ensures r.None? <==> user.Some? && Allowed(roles, user.value.role)
    ensures user.Some? && r.Some? ==> r.value == Custom(NewError(Forbidden, Some(DenialMessage(user.value.role))))
    ensures user.None? ==> r == Some(FaultError(ReadOfUndefined("role")))
  {
    if user.None? then Some(FaultError(ReadOfUndefined("role")))
    else if Allowed(roles, user.value.role) then None
    else Some(Custom(NewError(Forbidden, Some(DenialMessage(user.value.role)))))
  }

  /** The middleware on a live request: `next()` when allowed; `req.user` is never changed. */
  method AuthorizeRequest(roles: seq<RoleArg>, ex: Exchange<Claims>) returns (thrown: Option<Thrown>)
    modifies ex
    ensures thrown == Authorize(roles, old(ex.user))
    ensures ex.user == old(ex.user)
    ensures ex.nextCalls == old(ex.nextCalls) + (if thrown.None? then [None] else [])
  {
    thrown := Authorize(roles, ex.user);
    if thrown.None? {
      ex.Next(None);
    }
  }

  /** An array nested two levels deep is not spread: its roles are not admitted. */
  lemma NestedArraysNotSpread(role: string, claims: Claims)
    requires claims.role == Some(role)
    ensures Authorize([RoleList([RoleList([RoleName(role)])])], Some(claims)).Some?
  {
    var roles := [RoleList([RoleList([RoleName(role)])])];
    AllowedIffNamedOneLevelDeep(roles, role);
  }

  /**
   * The tokens this backend signs carry only an id, so their claims have no
   * role: such a user is refused by every role gate, with "undefined" in the message.
   */
  lemma RolelessClaimsRefused(roles: seq<RoleArg>, claims: Claims)
    requires claims.role.None?
    ensures Authorize(roles, Some(claims)) == Some(Custom(NewError(Forbidden, Some("undefined" + " is not authorized to perform this action"))))
  {
  }
}
