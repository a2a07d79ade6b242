/**
 * Requests followed through several pieces at once: the guards of a route,
 * the error they raise, and the answer the error middleware makes of it.
 */
module Scenarios {
  import opened Wrappers
  import opened Text
  import opened StatusCodes
  import opened CustomErrors
  import opened ErrorValue
  import opened Tokens
  import opened UserModel
  import opened Http
  import opened ErrorHandler
  import opened LegacyErrors
  import Auth
  import LegacyAuth
  import AuthController

  /** The token of a "Bearer <token>" header is the token itself when it has no space. */
  lemma BearerCarriesToken(token: string)
    requires ' ' !in token
    ensures SecondPiece(Auth.BEARER_PREFIX + token) == Some(token)
  {
    Auth.BearerToken(token);
  }

  /**
   * A valid Bearer token whose claims carry the role "user", on a route
   * guarded by `authenticate` and `authorizeRoles('admin')`, in production:
   * 403 with "user is not authorized to perform this action".
   */
  lemma UserRoleRefusedOnAdminRoute(token: string, claims: Claims, verify: string -> Verification, env: Option<string>, req: Request)
    requires token != "" && ' ' !in token && verify(token) == Verified(claims) && claims.role == Some("user")
    requires IsProduction(env)
    ensures Auth.Authenticate(Auth.Credentials(Some(Auth.BEARER_PREFIX + token), None, None), verify) == Auth.Authenticated(claims)
    ensures Auth.Authorize([Auth.RoleName("admin")], Some(claims)).Some?
    ensures Respond(Auth.Authorize([Auth.RoleName("admin")], Some(claims)).value, req, false, env)
      == Sent(FORBIDDEN, ErrorBody("user" + " is not authorized to perform this action", None))
  {
    var c := Auth.Credentials(Some(Auth.BEARER_PREFIX + token), None, None);
    BearerCarriesToken(token);
    assert StartsWith(Auth.BEARER_PREFIX + token, Auth.BEARER_PREFIX);
    assert Auth.SelectedToken(c) == Some(token);
    Auth.AllowedIffNamedOneLevelDeep([Auth.RoleName("admin")], "user");
  }

  /**
   * No credential at all on an `authenticate` route, in production: once the
   * rejection reaches the error middleware, the answer is 401 with the
   * missing-token message. `authenticate` is an unwrapped async function, so
   * this needs a wrapper that passes the rejection to `next`, or Express 5.
   */
  lemma NoCredentialIsUnauthorized(verify: string -> Verification, env: Option<string>, req: Request)
    requires IsProduction(env)
    ensures var r := Auth.Authenticate(Auth.Credentials(None, None, None), verify);
      r.Rejected? && Respond(Custom(r.error), req, false, env) == Sent(UNAUTHORIZED, ErrorBody(Auth.MISSING_TOKEN, None))
  {
  }

  /** A duplicate e-mail reported by the driver, in production: 409 naming the field and the value. */
  lemma DuplicateEmailIsConflict(email: string, env: Option<string>, req: Request)
    requires IsProduction(env)
    ensures Respond(DuplicateKey("email", email), req, false, env)
      == Sent(CONFLICT, ErrorBody("email" + " '" + email + "' already exists.", None))
  {
    assert [("email", email)] + [] == [("email", email)];
    DuplicateKeyIsConflict(DuplicateKey("email", email).signal, "email", email, []);
  }

  /** A malformed id: the CastError names the path that failed to cast (`_id`), not the bad value. */
  lemma MalformedIdNamesPath(value: string, env: Option<string>, req: Request)
    requires IsProduction(env)
    ensures Respond(IdCastFailure(value), req, false, env) == Sent(NOT_FOUND, ErrorBody("Resource not found. Invalid: " + "_id", None))
  {
    CastErrorResponse(IdCastFailure(value).signal);
  }

  /**
   * `updateUser` with an id that is not an ObjectId changes nothing and
   * rejects with the CastError on `_id`. The current middleware answers it
   * 404 in production; the older one, which the app mounts, also answers 404
   * outside development, with the same text.
   */
  lemma MalformedUserIdIsNotFound(users: seq<User>, id: string, name: Option<string>, email: Option<string>, role: Option<string>,
                                  isEmail: string -> bool, isObjectId: string -> bool,
                                  prodEnv: Option<string>, legacyEnv: Option<string>, req: Request)
    requires !isObjectId(id) && IsProduction(prodEnv) && !IsDevelopment(legacyEnv)
    ensures var s := AuthController.Update(users, id, name, email, role, None, isEmail, isObjectId);
      && s.users == users && s.reply == AuthController.Reject(IdCastFailure(id))
      && Respond(s.reply.error, req, false, prodEnv) == Sent(NOT_FOUND, ErrorBody("Resource not found. Invalid: " + "_id", None))
      && LegacyOutcome(s.reply.error, legacyEnv) == Sent(NOT_FOUND, ErrorBody("Resource not found. Invalid: " + "_id", None))
  {
    CastErrorResponse(IdCastFailure(id).signal);
    var p := Props(Defaulted(IdCastFailure(id)));
    LaterRulesOutrank(p);
    OnlyTwoRulesThrow(p);
  }

  /**
   * The admin product routes chain the older `isAuthenticatedUser` and
   * `authorizeRoles('admin')`, and the app mounts the older error middleware:
   * a signed-in user with another role is refused with a 403 error, which
   * outside development goes out as a 404 carrying the refusal message.
   */
  lemma LegacyAdminRouteRefusalIs404(cookie: string, verify: string -> Verification, users: seq<User>, u: User, env: Option<string>)
    requires cookie != ""
    requires verify(cookie).Verified? && verify(cookie).claims.id == u.id && u in users && AuthController.Distinct(users)
    requires u.role != "admin" && !IsDevelopment(env)
    ensures LegacyAuth.IsAuthenticatedUser(Some(cookie), verify, users) == LegacyAuth.Proceed(Some(u))
    ensures var check := LegacyAuth.AuthorizeRoles([Auth.RoleName("admin")], Some(Some(u)));
      && check == LegacyAuth.Deny(LegacyError(LegacyAuth.DenialMessage(u.role), Some(FORBIDDEN)))
      && LegacyOutcome(check.error, env) == Sent(NOT_FOUND, ErrorBody(LegacyAuth.DenialMessage(u.role), None))
  {
    var s := Props(Defaulted(LegacyError(LegacyAuth.DenialMessage(u.role), Some(FORBIDDEN))));
    LaterRulesOutrank(s);
    OnlyTwoRulesThrow(s);
  }

  /** On the same routes an expired cookie token reaches the older error middleware as the fixed "expired" message. */
  lemma LegacyExpiredToken(cookie: string, message: string, users: seq<User>, env: Option<string>, verify: string -> Verification)
    requires cookie != "" && verify(cookie) == Expired(message) && !IsDevelopment(env)
    ensures var r := LegacyAuth.IsAuthenticatedUser(Some(cookie), verify, users);
      r.Rejected? && LegacyOutcome(r.error, env) == Sent(NOT_FOUND, ErrorBody("JSON Web Token is expired. Please try again.", None))
  {
    LaterRulesOutrank(Props(Defaulted(VerifyError(Expired(message)))));
    OnlyTwoRulesThrow(Props(Defaulted(VerifyError(Expired(message)))));
  }

  /** Registering an e-mail already taken, answered by the older middleware: 404 "Duplicate email entered.". */
  lemma LegacyDuplicateRegistration(email: string, env: Option<string>)
    requires !IsDevelopment(env)
    ensures LegacyOutcome(DuplicateKey("email", email), env) == Sent(NOT_FOUND, ErrorBody("Duplicate " + "email" + " entered.", None))
  {
    var s := Props(Defaulted(DuplicateKey("email", email)));
    LaterRulesOutrank(s);
    OnlyTwoRulesThrow(s);
    assert Keys([("email", email)]) == ["email"];
  }
}
