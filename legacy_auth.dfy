/**
 * The older authentication middleware (middlewares/auth.js): the token comes
 * from the `token` cookie alone, `req.user` is the user document looked up
 * by the decoded id, and `authorizeRoles` compares the role with its literal
 * arguments, without flattening.
 */
module LegacyAuth {
  import opened Wrappers
  import opened Text
  import opened StatusCodes
  import opened ErrorValue
  import opened Tokens
  import opened Http
  import opened UserModel
  import Auth
  import AuthController

  const LOGIN_FIRST: string := "You must login first to access this resource"

  /**
   * The value `isAuthenticatedUser` leaves in `req.user`: `User.findById`
   * over the same collection the account handlers keep, resolving to the
   * first document with the id, or to `null` (`None`) when there is none.
   */
  function FindById(users: seq<User>, id: string): (r: Option<User>)
    ensures r.None? <==> forall j :: 0 <= j < |users| ==> users[j].id != id
    ensures r.Some? ==> r.value in users && r.value.id == id
    ensures AuthController.Distinct(users) ==> forall j :: 0 <= j < |users| && users[j].id == id ==> r == Some(users[j])
  {
    var found := AuthController.FirstMatch(users, AuthController.ById(id));
    forall j | 0 <= j < |users| && users[j].id == id && AuthController.Distinct(users)
      ensures found == Some(j)
    {
      AuthController.OnlyMatch(users, AuthController.ById(id), j);
    }
    if found.Some? then Some(users[found.value]) else None
  }

  /** How `isAuthenticatedUser` ends: `next()` with the looked-up user, `next(err)`, or a rejected promise. */
  datatype Login = Proceed(user: Option<User>) | Refused(error: Thrown) | Rejected(error: Thrown)

  /** `isAuthenticatedUser`, with `jwt.verify` a parameter. */
  function IsAuthenticatedUser(cookieToken: Option<string>, verify: string -> Verification, users: seq<User>): (r: Login)
    ensures r.Refused? <==> !Truthy(cookieToken)
    ensures r.Refused? ==> r.error == LegacyError(LOGIN_FIRST, Some(UNAUTHORIZED))
    ensures r.Rejected? <==> Truthy(cookieToken) && !verify(cookieToken.value).Verified?
    ensures r.Rejected? ==> r.error == VerifyError(verify(cookieToken.value))
    ensures r.Proceed? ==> r.user == FindById(users, verify(cookieToken.value).claims.id)
  {
    if !Truthy(cookieToken) then Refused(LegacyError(LOGIN_FIRST, Some(UNAUTHORIZED)))
    else
      var v := verify(cookieToken.value);
      if !v.Verified? then Rejected(VerifyError(v))
      else Proceed(FindById(users, v.claims.id))
  }

  /**
   * The middleware on a live request; `req.user` is `Some(lookup)` once set.
   * A refusal and a success each call `next` once; a rejection is returned.
   */
  method IsAuthenticatedRequest(cookieToken: Option<string>, ex: Exchange<Option<User>>, verify: string -> Verification, users: seq<User>)
    returns (rejection: Option<Thrown>)
    modifies ex
    ensures match IsAuthenticatedUser(cookieToken, verify, users)
      case Proceed(u) =>
        rejection.None? && ex.user == Some(u) && ex.nextCalls == old(ex.nextCalls) + [None]
      case Refused(e) =>
        rejection.None? && ex.user == old(ex.user) && ex.nextCalls == old(ex.nextCalls) + [Some(e)]
      case Rejected(e) =>
        rejection == Some(e) && ex.user == old(ex.user) && ex.nextCalls == old(ex.nextCalls)
  {
    if !Truthy(cookieToken) {
      ex.Next(Some(LegacyError(LOGIN_FIRST, Some(UNAUTHORIZED))));
      return None;
    }
    var v := verify(cookieToken.value);
    if !v.Verified? {
      return Some(VerifyError(v));
    }
    ex.user := Some(FindById(users, v.claims.id));
    ex.Next(None);
    rejection := None;
  }

  /**
   * On a request with no Authorization header and no signed cookie, both
   * generations refuse the same requests for want of a token.
   */
  lemma SameMissingTokenDecision(cookieToken: Option<string>, verify: string -> Verification, users: seq<User>)
    ensures IsAuthenticatedUser(cookieToken, verify, users).Refused? <==>
      Auth.Authenticate(Auth.Credentials(None, cookieToken, None), verify) == Auth.Rejected(CustomErrors.NewError(CustomErrors.Unauthenticated, Some(Auth.MISSING_TOKEN)))
  {
  }

  /** How the returned role middleware ends: `next()`, `next(err)`, or its own TypeError. */
  datatype RoleCheck = Admit | Deny(error: Thrown) | Crash(fault: Thrown)

  function DenialMessage(role: string): string {
    "Role (" + role + ") is not allowed to access this resource"
  }

  /** `authorizeRoles(...roles)`: the role must equal one of the arguments themselves. */
  function AuthorizeRoles(roles: seq<Auth.RoleArg>, user: Option<Option<User>>): (r: RoleCheck)
    ensures r.Admit? <==> user.Some? && user.value.Some? && Auth.RoleName(user.value.value.role) in roles
    ensures r.Crash? <==> user.None? || user.value.None?
    ensures r.Deny? ==> r.error == LegacyError(DenialMessage(user.value.value.role), Some(FORBIDDEN))
    ensures user.None? ==> r == Crash(FaultError(ReadOfUndefined("role")))
    ensures user == Some(None) ==> r == Crash(FaultError(ReadOfNull("role")))
  {
    match user
    case None => Crash(FaultError(ReadOfUndefined("role")))
    case Some(None) => Crash(FaultError(ReadOfNull("role")))
    case Some(Some(u)) =>
      if Auth.RoleName(u.role) in roles then Admit
      else Deny(LegacyError(DenialMessage(u.role), Some(FORBIDDEN)))
  }

  /** The role middleware on a live request: exactly one `next` call unless it crashes; `req.user` is untouched. */
  method AuthorizeRequest(roles: seq<Auth.RoleArg>, ex: Exchange<Option<User>>) returns (thrown: Option<Thrown>)
    modifies ex
    ensures match AuthorizeRoles(roles, old(ex.user))
      case Admit => thrown.None? && ex.nextCalls == old(ex.nextCalls) + [None]
      case Deny(e) => thrown.None? && ex.nextCalls == old(ex.nextCalls) + [Some(e)]
      case Crash(f) => thrown == Some(f) && ex.nextCalls == old(ex.nextCalls)
    ensures ex.user == old(ex.user)
  {
    var check := AuthorizeRoles(roles, ex.user);
    match check
    case Admit => ex.Next(None); thrown := None;
    case Deny(e) => ex.Next(Some(e)); thrown := None;
    case Crash(f) => thrown := Some(f);
  }

  /**
   * An array argument is compared as a whole, so `authorizeRoles(['admin'])`
   * refuses an admin here while the newer `authorizeRoles` admits one.
   */
  lemma ArrayArgumentNotFlattened(u: User)
    ensures AuthorizeRoles([Auth.RoleList([Auth.RoleName(u.role)])], Some(Some(u))).Deny?
    ensures Auth.Allowed([Auth.RoleList([Auth.RoleName(u.role)])], Some(u.role))
  {
    Auth.AllowedIffNamedOneLevelDeep([Auth.RoleList([Auth.RoleName(u.role)])], u.role);
  }

  /** On plain role-name arguments both generations admit the same roles. */
  lemma GenerationsAgreeOnNames(names: seq<string>, u: User)
    ensures AuthorizeRoles(NamesOf(names), Some(Some(u))).Admit? <==> Auth.Allowed(NamesOf(names), Some(u.role))
  {
    Auth.AllowedIffNamedOneLevelDeep(NamesOf(names), u.role);
    var roles := NamesOf(names);
    if Auth.Allowed(roles, Some(u.role)) {
      var i :| 0 <= i < |roles| && (roles[i] == Auth.RoleName(u.role) || (roles[i].RoleList? && Auth.RoleName(u.role) in roles[i].items));
      assert roles[i] == Auth.RoleName(names[i]);
    }
  }

  function NamesOf(names: seq<string>): (r: seq<Auth.RoleArg>)
    ensures |r| == |names| && forall i :: 0 <= i < |names| ==> r[i] == Auth.RoleName(names[i])
  {
    if names == [] then [] else [Auth.RoleName(names[0])] + NamesOf(names[1..])
  }
}
