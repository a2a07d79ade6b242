/**
 * The account handlers of controllers/authController.js. The users
 * collection is a sequence in natural order, so `findOne` is the first match;
 * each handler is a function from the collection to a reply and the new
 * collection, and a method of `Accounts` that performs the same steps on the
 * stored collection.
 */
module AuthController {
  import opened Wrappers
  import opened Text
  import opened StatusCodes
  import opened CustomErrors
  import opened ErrorValue
  import opened Tokens
  import opened UserModel
  import opened Http
  import opened Jwt
  import Auth

  /** How a handler ends: a response, `next(err)`, or a rejection of its promise. */
  datatype Reply =
    | Respond(status: int, cookie: Option<Cookie>, body: Body)
    | PassOn(error: Thrown)
    | Reject(error: Thrown)

  /** The reply and the users collection afterwards. */
  datatype Step = Step(reply: Reply, users: seq<User>)

  /**
   * What the handlers call without the model looking inside: jsonwebtoken's
   * `sign`, the bcrypt save hook and `comparePassword`, sha256, the e-mail
   * validator, `sendEmail` (which answers `None` when the mail went out and
   * the error's message when it threw), and two environment values.
   */
  datatype Services = Services(
    sign: Payload -> string,
    hashPassword: string -> string,
    comparePassword: (string, string) -> bool,
    sha256: string -> string,
    isEmail: string -> bool,
    sendEmail: (string, string) -> Option<string>,
    frontendUrl: string,
    cookieLifetimeDays: int)

  /** The filters the handlers give to `findOne`/`findById`. */
  datatype Query = ByEmail(email: string) | ById(id: string) | ByLiveReset(hash: string, now: int)

  predicate Matches(q: Query, u: User) {
    match q
    case ByEmail(e) => u.email == e
    case ById(id) => u.id == id
    case ByLiveReset(h, now) => u.resetPasswordToken == Some(h) && u.resetPasswordExpire.Some? && u.resetPasswordExpire.value > now
  }

  /** The position of the first document matching `q`. */
  function FirstMatch(users: seq<User>, q: Query): (r: Option<nat>)
    ensures r.Some? ==> r.value < |users| && Matches(q, users[r.value])
    ensures r.Some? ==> forall j :: 0 <= j < r.value ==> !Matches(q, users[j])
    ensures r.None? <==> forall j :: 0 <= j < |users| ==> !Matches(q, users[j])
  {
    if users == [] then None
    else if Matches(q, users[0]) then Some(0)
    else
      var rest := FirstMatch(users[1..], q);
      assert forall j :: 1 <= j < |users| ==> users[j] == users[1..][j - 1];
      if rest.Some? then Some(rest.value + 1) else None
  }

  /** The unique `email` index, and ids that identify one document each. */
  predicate Distinct(users: seq<User>) {
    forall i, j :: 0 <= i < j < |users| ==> users[i].id != users[j].id && users[i].email != users[j].email
  }

  /** With unique ids and e-mails, a document matching by either is the one `findOne` returns. */
  lemma OnlyMatch(users: seq<User>, q: Query, i: nat)
    requires Distinct(users) && (q.ByEmail? || q.ById?) && i < |users| && Matches(q, users[i])
    ensures FirstMatch(users, q) == Some(i)
  {
    var r := FirstMatch(users, q);
    assert r.Some?;
    assert !(r.value < i) by {
      assert Matches(q, users[r.value]);
    }
    assert !(i < r.value) by {
      assert Matches(q, users[i]);
    }
  }

  predicate EmailTaken(users: seq<User>, email: string) {
    exists j :: 0 <= j < |users| && users[j].email == email
  }

  const PROVIDE_ALL: string := "Please provide name, email and password"
  const ENTER_BOTH: string := "Please enter email and password"
  const INCORRECT: string := "Incorrect email or password"
  const NO_SUCH_USER: string := "User not found"
  const BAD_RESET: string := "Password reset token is invalid or has expired"
  const MISMATCH: string := "Password does not match"

  /** The reply `sendToken(user, statusCode, res)` makes. */
  function TokenReply(u: User, statusCode: int, svc: Services, now: int): Reply {
    var t := SendToken(u, statusCode, svc.sign, now, svc.cookieLifetimeDays);
    Respond(t.status, Some(t.cookie), t.body)
  }

  // ---------------------------------------------------------------- registerUser

  /** `registerUser`, once the avatar is uploaded; `id` is the id the new document receives. */
  function Register(users: seq<User>, name: Option<string>, email: Option<string>, password: Option<string>,
                    avatar: Avatar, id: string, now: int, svc: Services): (s: Step)
    ensures s.reply.PassOn? <==> !Truthy(name) || !Truthy(email) || !Truthy(password)
    ensures !s.reply.Respond? ==> s.users == users
    ensures s.reply.Respond? ==> && |s.users| == |users| + 1 && s.users[..|users|] == users
                                 && s.users[|users|].id == id && s.users[|users|].email == email.value
                                 && s.reply.status == CREATED
  {
    if !Truthy(name) || !Truthy(email) || !Truthy(password) then
      Step(PassOn(LegacyError(PROVIDE_ALL, Some(BAD_REQUEST))), users)
    else
      var draft := Draft(name, email, password, avatar);
      var errs := Violations(draft, svc.isEmail);
      if errs != [] then Step(Reject(ValidationFailure("User validation failed", errs)), users)
      else if EmailTaken(users, email.value) then Step(Reject(DuplicateKey("email", email.value)), users)
      else
        var u := NewUser(id, draft, now, svc.hashPassword);
        Step(Respond(CREATED, None, RegisteredBody(JwtToken(u, svc.sign))), users + [u])
  }

  /** Registration stores a user exactly when all three fields are given, the schema holds and the e-mail is new. */
  lemma RegisterIffConforms(users: seq<User>, name: Option<string>, email: Option<string>, password: Option<string>,
                            avatar: Avatar, id: string, now: int, svc: Services)
    ensures var s := Register(users, name, email, password, avatar, id, now, svc);
      s.reply.Respond? <==> (Conforms(Draft(name, email, password, avatar), svc.isEmail) && !EmailTaken(users, email.value))
    ensures var s := Register(users, name, email, password, avatar, id, now, svc);
      s.users == if s.reply.Respond? then users + [s.users[|users|]] else users
  {
  }

  /** A missing field is refused with 400 before anything is stored. */
  lemma MissingFieldCreatesNothing(users: seq<User>, name: Option<string>, email: Option<string>, password: Option<string>,
                                   avatar: Avatar, id: string, now: int, svc: Services)
    requires !Truthy(name) || !Truthy(email) || !Truthy(password)
    ensures Register(users, name, email, password, avatar, id, now, svc) == Step(PassOn(LegacyError(PROVIDE_ALL, Some(BAD_REQUEST))), users)
  {
  }

  /** The new user has the default role, no reset token, and the token signs its id. */
  lemma RegisteredUser(users: seq<User>, name: Option<string>, email: Option<string>, password: Option<string>,
                       avatar: Avatar, id: string, now: int, svc: Services)
    requires Register(users, name, email, password, avatar, id, now, svc).reply.Respond?
    ensures var s := Register(users, name, email, password, avatar, id, now, svc);
      && |s.users| == |users| + 1
      && s.users[|users|].id == id && s.users[|users|].role == DEFAULT_ROLE
      && s.users[|users|].resetPasswordToken.None?
      && s.reply == Respond(CREATED, None, RegisteredBody(svc.sign(Payload(id))))
  {
  }

  lemma RegisterKeepsDistinct(users: seq<User>, name: Option<string>, email: Option<string>, password: Option<string>,
                              avatar: Avatar, id: string, now: int, svc: Services)
    requires Distinct(users) && forall j :: 0 <= j < |users| ==> users[j].id != id
    ensures Distinct(Register(users, name, email, password, avatar, id, now, svc).users)
  {
  }

  // ---------------------------------------------------------------- loginUser

  /** `loginUser`: it never changes the collection, and answers with a token or one of two refusals. */
  function Login(users: seq<User>, email: Option<string>, password: Option<string>, now: int, svc: Services): (r: Reply)
    ensures r.Respond? || r.PassOn?
    ensures r.Respond? ==> r.status == OK && r.cookie.Some? && r.body.TokenBody? && r.body.user in users
    ensures r.PassOn? ==> r.error == LegacyError(ENTER_BOTH, Some(BAD_REQUEST)) || r.error == LegacyError(INCORRECT, Some(NOT_FOUND))
  {
    if !Truthy(email) || !Truthy(password) then PassOn(LegacyError(ENTER_BOTH, Some(BAD_REQUEST)))
    else
      match FirstMatch(users, ByEmail(email.value))
      case None => PassOn(LegacyError(INCORRECT, Some(NOT_FOUND)))
      case Some(i) =>
        if !svc.comparePassword(password.value, users[i].password) then PassOn(LegacyError(INCORRECT, Some(NOT_FOUND)))
        else TokenReply(users[i], OK, svc, now)
  }

  /**
   * With both fields given, an unknown e-mail and a wrong password get the
   * same 404 reply, and the login succeeds exactly for the stored user whose
   * password matches.
   */
  lemma LoginFailuresIndistinguishable(users: seq<User>, email: string, password: string, now: int, svc: Services)
    requires Distinct(users) && email != "" && password != ""
    ensures var r := Login(users, Some(email), Some(password), now, svc);
      r.PassOn? ==> r == PassOn(LegacyError(INCORRECT, Some(NOT_FOUND)))
    ensures var r := Login(users, Some(email), Some(password), now, svc);
      r.Respond? <==> exists i :: 0 <= i < |users| && users[i].email == email && svc.comparePassword(password, users[i].password)
    ensures forall i :: 0 <= i < |users| && users[i].email == email && svc.comparePassword(password, users[i].password) ==>
      Login(users, Some(email), Some(password), now, svc) == TokenReply(users[i], OK, svc, now)
  {
    var r := FirstMatch(users, ByEmail(email));
    if r.Some? {
      forall i | 0 <= i < |users| && users[i].email == email ensures i == r.value {
        OnlyMatch(users, ByEmail(email), i);
      }
    } else {
      forall i | 0 <= i < |users| ensures users[i].email != email {
        assert !Matches(ByEmail(email), users[i]);
      }
    }
  }

  /** A missing field is refused with 400 whatever is stored. */
  lemma LoginNeedsBothFields(users: seq<User>, email: Option<string>, password: Option<string>, now: int, svc: Services)
    requires !Truthy(email) || !Truthy(password)
    ensures Login(users, email, password, now, svc) == PassOn(LegacyError(ENTER_BOTH, Some(BAD_REQUEST)))
  {
  }

  // ---------------------------------------------------------------- forgotPassword

  /** `${FRONTEND_URL}/password/reset/${resetToken}` */
  function ResetUrl(frontendUrl: string, rawToken: string): string {
    frontendUrl + "/password/reset/" + rawToken
  }

  /** The mail `forgotPassword` sends: it carries the raw token, inside the reset URL. */
  function ResetMail(frontendUrl: string, rawToken: string): (mail: string)
    ensures exists i: nat :: OccursAt(mail, rawToken, i)
  {
    var intro := "Your password reset token is as follows:\n\n";
    var mail := intro + ResetUrl(frontendUrl, rawToken) + "\n\nIf you have not requested this email, please ignore it.";
    assert OccursAt(mail, rawToken, |intro| + |frontendUrl| + |"/password/reset/"|);
    mail
  }

  /** `forgotPassword`, with `raw` the token `randomBytes` produced. */
  function Forgot(users: seq<User>, email: string, raw: string, now: int, svc: Services): (s: Step)
    ensures |s.users| == |users|
    ensures forall j :: 0 <= j < |users| ==>
      s.users[j].(resetPasswordToken := users[j].resetPasswordToken, resetPasswordExpire := users[j].resetPasswordExpire) == users[j]
    ensures s.reply.Respond? ==> s.reply.status == OK && s.reply.cookie.None?
    ensures s.reply.Respond? || s.reply.PassOn?
  {
    match FirstMatch(users, ByEmail(email))
    case None => Step(PassOn(LegacyError(NO_SUCH_USER, Some(NOT_FOUND))), users)
    case Some(i) =>
      var withToken := WithResetToken(users[i], raw, now, svc.sha256).0;
      match svc.sendEmail(withToken.email, ResetMail(svc.frontendUrl, raw))
      case None => Step(Respond(OK, None, NoticeBody("Email sent to: " + withToken.email)), users[i := withToken])
      case Some(failure) =>
        Step(PassOn(LegacyError(failure, None)), users[i := withToken.(resetPasswordToken := None, resetPasswordExpire := None)])
  }

  /**
   * On a delivered mail the user stores the hash of the mailed token and an
   * expiry 30 minutes ahead; on a failed one both fields are cleared. No other
   * user and no other field changes.
   */
  lemma ForgotResetFields(users: seq<User>, email: string, raw: string, now: int, svc: Services, i: nat)
    requires i < |users| && users[i].email == email && Distinct(users)
    ensures var s := Forgot(users, email, raw, now, svc);
      && |s.users| == |users|
      && (forall j :: 0 <= j < |users| && j != i ==> s.users[j] == users[j])
      && s.users[i].(resetPasswordToken := users[i].resetPasswordToken, resetPasswordExpire := users[i].resetPasswordExpire) == users[i]
    ensures var s := Forgot(users, email, raw, now, svc);
      s.reply.Respond? ==> s.users[i].resetPasswordToken == Some(svc.sha256(raw)) && s.users[i].resetPasswordExpire == Some(now + RESET_TOKEN_LIFETIME_MS)
    ensures var s := Forgot(users, email, raw, now, svc);
      !s.reply.Respond? ==> s.users[i].resetPasswordToken.None? && s.users[i].resetPasswordExpire.None?
  {
    OnlyMatch(users, ByEmail(email), i);
  }

  lemma UnknownEmailChangesNothing(users: seq<User>, email: string, raw: string, now: int, svc: Services)
    requires forall j :: 0 <= j < |users| ==> users[j].email != email
    ensures Forgot(users, email, raw, now, svc) == Step(PassOn(LegacyError(NO_SUCH_USER, Some(NOT_FOUND))), users)
  {
    assert FirstMatch(users, ByEmail(email)).None?;
  }

  // ---------------------------------------------------------------- resetPassword

  /** `resetPassword` for the token of the URL and the two password fields of the body. */
  function Reset(users: seq<User>, token: string, password: Option<string>, confirm: Option<string>, now: int, svc: Services): (s: Step)
    ensures |s.users| == |users|
    ensures forall j :: 0 <= j < |users| ==> s.users[j].id == users[j].id && s.users[j].email == users[j].email && s.users[j].role == users[j].role
    ensures s.reply.Respond? ==> s.reply.status == OK && s.reply.cookie.Some?
    ensures s.reply.Respond? ==> password == confirm && password.Some?
  {
    match FirstMatch(users, ByLiveReset(svc.sha256(token), now))
    case None => Step(PassOn(LegacyError(BAD_RESET, Some(BAD_REQUEST))), users)
    case Some(i) =>
      if password != confirm then Step(PassOn(LegacyError(MISMATCH, Some(BAD_REQUEST))), users)
      else
        match PasswordViolation(password)
        case Some(m) => Step(Reject(ValidationFailure("User validation failed", [("password", m)])), users)
        case None =>
          var u := users[i].(password := svc.hashPassword(password.value), resetPasswordToken := None, resetPasswordExpire := None);
          Step(TokenReply(u, OK, svc, now), users[i := u])
  }

  /** A reset goes through only for a user holding sha256(token) with an expiry strictly after now, and clears both fields. */
  lemma ResetNeedsLiveToken(users: seq<User>, token: string, password: Option<string>, confirm: Option<string>, now: int, svc: Services)
    ensures var s := Reset(users, token, password, confirm, now, svc);
      s.reply.Respond? ==> exists i :: (0 <= i < |users|
        && users[i].resetPasswordToken == Some(svc.sha256(token))
        && users[i].resetPasswordExpire.Some? && users[i].resetPasswordExpire.value > now
        && s.users == users[i := users[i].(password := svc.hashPassword(password.value), resetPasswordToken := None, resetPasswordExpire := None)])
    ensures var s := Reset(users, token, password, confirm, now, svc);
      !s.reply.Respond? ==> s.users == users
  {
  }

  /** A token whose expiry is `now` itself no longer works. */
  lemma ExpiryIsExclusive(u: User, token: string, password: Option<string>, now: int, svc: Services)
    requires u.resetPasswordToken == Some(svc.sha256(token)) && u.resetPasswordExpire == Some(now)
    ensures Reset([u], token, password, password, now, svc) == Step(PassOn(LegacyError(BAD_RESET, Some(BAD_REQUEST))), [u])
  {
  }

  /** The mismatch check comes after the lookup: an unknown token is reported first, and a mismatch changes nothing. */
  lemma MismatchAfterLookup(users: seq<User>, token: string, password: Option<string>, confirm: Option<string>, now: int, svc: Services)
    requires password != confirm
    ensures var s := Reset(users, token, password, confirm, now, svc);
      s.users == users && s.reply.PassOn?
      && s.reply.error == LegacyError(if FirstMatch(users, ByLiveReset(svc.sha256(token), now)).Some? then MISMATCH else BAD_RESET, Some(BAD_REQUEST))
  {
  }

  // ---------------------------------------------------------------- updateProfile / updateUser

  /** The update validators run only on the paths the update sets. */
  function UpdateViolations(name: Option<string>, email: Option<string>, isEmail: string -> bool): (r: Entries)
    ensures r == [] <==> (name.None? || NameViolation(name).None?) && (email.None? || EmailViolation(email, isEmail).None?)
    ensures forall k :: 0 <= k < |r| ==> r[k].0 == "name" || r[k].0 == "email"
  {
    Entry("name", if name.Some? then NameViolation(name) else None)
      + Entry("email", if email.Some? then EmailViolation(email, isEmail) else None)
  }

  /** The document after `$set` of the given fields. */
  function Patched(u: User, name: Option<string>, email: Option<string>, role: Option<string>, avatar: Option<Avatar>): (v: User)
    ensures v.(name := u.name, email := u.email, role := u.role, avatar := u.avatar) == u
    ensures name.Some? ==> v.name == name.value
    ensures email.Some? ==> v.email == email.value
    ensures role.Some? ==> v.role == role.value
    ensures avatar.Some? ==> v.avatar == avatar.value
    ensures name.None? && email.None? && role.None? && avatar.None? ==> v == u
  {
    u.(name := name.GetOr(u.name), email := email.GetOr(u.email), role := role.GetOr(u.role), avatar := avatar.GetOr(u.avatar))
  }

  /**
   * `findByIdAndUpdate(id, update, { new: true, runValidators: true })` followed
   * by `{ success: true, user }`. Mongoose casts the id before it runs the
   * update validators, so an id that is not an ObjectId (`isObjectId` stands
   * for the driver's test) rejects with a CastError on `_id` first.
   */
  function Update(users: seq<User>, id: string, name: Option<string>, email: Option<string>, role: Option<string>,
                  avatar: Option<Avatar>, isEmail: string -> bool, isObjectId: string -> bool): (s: Step)
    ensures !isObjectId(id) ==> s == Step(Reject(IdCastFailure(id)), users)
    ensures s.reply.Respond? ==> isObjectId(id) && UpdateViolations(name, email, isEmail) == []
    ensures |s.users| == |users|
    ensures forall j :: 0 <= j < |users| ==> s.users[j].id == users[j].id && s.users[j].password == users[j].password
    ensures !s.reply.Respond? ==> s.users == users
    ensures s.reply.Respond? && s.reply.body.UserBody? && s.reply.body.found.None? ==> s.users == users
    ensures s.reply.Respond? ==> s.reply.body.UserBody? && (s.reply.body.found.Some? <==> FirstMatch(users, ById(id)).Some?)
    ensures s.reply.Respond? && s.reply.body.found.Some? ==>
      FirstMatch(users, ById(id)).Some? &&
      var i := FirstMatch(users, ById(id)).value;
      s.users == users[i := Patched(users[i], name, email, role, avatar)] && s.reply.body.found == Some(s.users[i])
    ensures isObjectId(id) && UpdateViolations(name, email, isEmail) == [] && FirstMatch(users, ById(id)).Some? ==>
      var i := FirstMatch(users, ById(id)).value;
      s.reply.Respond? <==> email.None? || forall j :: 0 <= j < |users| && j != i ==> users[j].email != email.value
  {
    if !isObjectId(id) then Step(Reject(IdCastFailure(id)), users)
    else
    var errs := UpdateViolations(name, email, isEmail);
    if errs != [] then Step(Reject(ValidationFailure("Validation failed", errs)), users)
    else
      match FirstMatch(users, ById(id))
      case None => Step(Respond(OK, None, UserBody(None)), users)
      case Some(i) =>
        if email.Some? && exists j :: 0 <= j < |users| && j != i && users[j].email == email.value then
          Step(Reject(DuplicateKey("email", email.value)), users)
        else
          var u := Patched(users[i], name, email, role, avatar);
          Step(Respond(OK, None, UserBody(Some(u))), users[i := u])
  }

  /** `updateProfile` builds its update from name, e-mail and avatar only, so no role ever changes. */
  lemma ProfileUpdateKeepsRoles(users: seq<User>, id: string, name: Option<string>, email: Option<string>,
                                avatar: Option<Avatar>, isEmail: string -> bool, isObjectId: string -> bool)
    ensures var s := Update(users, id, name, email, None, avatar, isEmail, isObjectId);
      |s.users| == |users| && forall j :: 0 <= j < |users| ==> s.users[j].role == users[j].role
  {
  }

  /** `updateUser` does set the role of the found user, to whatever string it is given. */
  lemma AdminUpdateSetsRole(users: seq<User>, id: string, name: Option<string>, email: Option<string>, role: string,
                            isEmail: string -> bool, isObjectId: string -> bool, i: nat)
    requires Distinct(users) && i < |users| && users[i].id == id
    requires Update(users, id, name, email, Some(role), None, isEmail, isObjectId).reply.Respond?
    ensures Update(users, id, name, email, Some(role), None, isEmail, isObjectId).users[i].role == role
  {
    OnlyMatch(users, ById(id), i);
  }

  /** Every handler keeps ids and e-mail addresses unique. */
  lemma UpdateKeepsDistinct(users: seq<User>, id: string, name: Option<string>, email: Option<string>, role: Option<string>,
                            avatar: Option<Avatar>, isEmail: string -> bool, isObjectId: string -> bool)
    requires Distinct(users)
    ensures Distinct(Update(users, id, name, email, role, avatar, isEmail, isObjectId).users)
  {
  }

  /** Replacing a document by one with the same id and e-mail keeps both unique. */
  lemma SameKeysKeepDistinct(users: seq<User>, i: nat, u: User)
    requires Distinct(users) && i < |users| && u.id == users[i].id && u.email == users[i].email
    ensures Distinct(users[i := u])
  {
  }

  lemma ResetKeepsDistinct(users: seq<User>, token: string, password: Option<string>, confirm: Option<string>, now: int, svc: Services)
    requires Distinct(users)
    ensures Distinct(Reset(users, token, password, confirm, now, svc).users)
  {
    var found := FirstMatch(users, ByLiveReset(svc.sha256(token), now));
    if found.Some? {
      var i := found.value;
      SameKeysKeepDistinct(users, i, users[i].(password := svc.hashPassword(password.GetOr("")), resetPasswordToken := None, resetPasswordExpire := None));
    }
  }

  lemma {:induction false} ForgotKeepsDistinct(users: seq<User>, email: string, raw: string, now: int, svc: Services)
    requires Distinct(users)
    ensures Distinct(Forgot(users, email, raw, now, svc).users)
  {
    var found := FirstMatch(users, ByEmail(email));
    if found.Some? {
      var i := found.value;
      var withToken := WithResetToken(users[i], raw, now, svc.sha256).0;
      SameKeysKeepDistinct(users, i, withToken);
      SameKeysKeepDistinct(users, i, withToken.(resetPasswordToken := None, resetPasswordExpire := None));
    }
  }

  // ---------------------------------------------------------------- the store

  /** The users collection and the images uploaded to and removed from the avatar store. */
  class Accounts {
    var users: seq<User>
    var uploads: seq<Avatar>
    var destroyed: seq<string>

    predicate Valid()
      reads this
    {
      Distinct(users)
    }

    constructor ()
      ensures Valid() && users == [] && uploads == [] && destroyed == []
    {
      users, uploads, destroyed := [], [], [];
    }

    /** `registerUser`: the avatar is uploaded before the fields are checked. */
    method RegisterUser(name: Option<string>, email: Option<string>, password: Option<string>,
                        avatar: Avatar, id: string, now: int, svc: Services) returns (r: Reply)
      requires Valid() && forall j :: 0 <= j < |users| ==> users[j].id != id
      modifies this
      ensures Valid()
      ensures Step(r, users) == Register(old(users), name, email, password, avatar, id, now, svc)
      ensures uploads == old(uploads) + [avatar] && destroyed == old(destroyed)
    {
      RegisterKeepsDistinct(users, name, email, password, avatar, id, now, svc);
      uploads := uploads + [avatar];
      if !Truthy(name) || !Truthy(email) || !Truthy(password) {
        return PassOn(LegacyError(PROVIDE_ALL, Some(BAD_REQUEST)));
      }
      var draft := Draft(name, email, password, avatar);
      var errs := Violations(draft, svc.isEmail);
      if errs != [] {
        return Reject(ValidationFailure("User validation failed", errs));
      }
      if EmailTaken(users, email.value) {
        return Reject(DuplicateKey("email", email.value));
      }
      var user := NewUser(id, draft, now, svc.hashPassword);
      users := users + [user];
      r := Respond(CREATED, None, RegisteredBody(JwtToken(user, svc.sign)));
    }

    /** `loginUser` reads the collection and changes nothing. */
    method LoginUser(email: Option<string>, password: Option<string>, now: int, svc: Services) returns (r: Reply)
      ensures r == Login(users, email, password, now, svc)
    {
      if !Truthy(email) || !Truthy(password) {
        return PassOn(LegacyError(ENTER_BOTH, Some(BAD_REQUEST)));
      }
      var found := FirstMatch(users, ByEmail(email.value));
      if found.None? {
        return PassOn(LegacyError(INCORRECT, Some(NOT_FOUND)));
      }
      var user := users[found.value];
      if !svc.comparePassword(password.value, user.password) {
        return PassOn(LegacyError(INCORRECT, Some(NOT_FOUND)));
      }
      r := TokenReply(user, OK, svc, now);
    }

    /** `forgotPassword`: store the token, mail it, and undo the token when the mail fails. */
    method ForgotPassword(email: string, raw: string, now: int, svc: Services) returns (r: Reply)
      requires Valid()
      modifies this`users
      ensures Valid()
      ensures Step(r, users) == Forgot(old(users), email, raw, now, svc)
    {
      ForgotKeepsDistinct(users, email, raw, now, svc);
      var found := FirstMatch(users, ByEmail(email));
      if found.None? {
        return PassOn(LegacyError(NO_SUCH_USER, Some(NOT_FOUND)));
      }
      var i := found.value;
      var user := users[i];
      var resetToken: string;
      user, resetToken := WithResetToken(user, raw, now, svc.sha256).0, WithResetToken(user, raw, now, svc.sha256).1;
      users := users[i := user];
      var failure := svc.sendEmail(user.email, ResetMail(svc.frontendUrl, resetToken));
      if failure.None? {
        return Respond(OK, None, NoticeBody("Email sent to: " + user.email));
      }
      user := user.(resetPasswordToken := None, resetPasswordExpire := None);
      users := users[i := user];
      r := PassOn(LegacyError(failure.value, None));
    }

    /** `resetPassword` */
    method ResetPassword(token: string, password: Option<string>, confirm: Option<string>, now: int, svc: Services) returns (r: Reply)
      requires Valid()
      modifies this`users
      ensures Valid()
      ensures Step(r, users) == Reset(old(users), token, password, confirm, now, svc)
    {
      ResetKeepsDistinct(users, token, password, confirm, now, svc);
      var resetPasswordToken := svc.sha256(token);
      var found := FirstMatch(users, ByLiveReset(resetPasswordToken, now));
      if found.None? {
        return PassOn(LegacyError(BAD_RESET, Some(BAD_REQUEST)));
      }
      if password != confirm {
        return PassOn(LegacyError(MISMATCH, Some(BAD_REQUEST)));
      }
      var violation := PasswordViolation(password);
      if violation.Some? {
        return Reject(ValidationFailure("User validation failed", [("password", violation.value)]));
      }
      var i := found.value;
      var user := users[i];
      user := user.(password := svc.hashPassword(password.value));
      user := user.(resetPasswordToken := None);
      user := user.(resetPasswordExpire := None);
      users := users[i := user];
      r := TokenReply(user, OK, svc, now);
    }

    /**
     * `updateProfile` for the signed-in user: with a new avatar file the old
     * image is removed and the new one uploaded first; reading the old
     * avatar of a user that no longer exists throws.
     */
    method UpdateProfile(id: string, name: Option<string>, email: Option<string>, file: Option<Avatar>,
                         isEmail: string -> bool, isObjectId: string -> bool)
      returns (r: Reply)
      requires Valid()
      modifies this
      ensures Valid()
      ensures file.Some? && !isObjectId(id) ==> r == Reject(IdCastFailure(id)) && unchanged(this)
      ensures file.Some? && isObjectId(id) && FirstMatch(old(users), ById(id)).None? ==>
        r == Reject(FaultError(ReadOfNull("avatar"))) && unchanged(this)
      ensures file.Some? && isObjectId(id) && FirstMatch(old(users), ById(id)).Some? ==>
        && destroyed == old(destroyed) + [old(users)[FirstMatch(old(users), ById(id)).value].avatar.publicId]
        && uploads == old(uploads) + [file.value]
        && Step(r, users) == Update(old(users), id, name, email, None, file, isEmail, isObjectId)
      ensures file.None? ==>
        && destroyed == old(destroyed) && uploads == old(uploads)
        && Step(r, users) == Update(old(users), id, name, email, None, None, isEmail, isObjectId)
    {
      if file.Some? {
        if !isObjectId(id) {
          return Reject(IdCastFailure(id));
        }
        var found := FirstMatch(users, ById(id));
        if found.None? {
          return Reject(FaultError(ReadOfNull("avatar")));
        }
        destroyed := destroyed + [users[found.value].avatar.publicId];
        uploads := uploads + [file.value];
      }
      r := ApplyUpdate(id, name, email, None, file, isEmail, isObjectId);
    }

    /** `updateUser` (admin): name, e-mail and role of the user named in the URL. */
    method UpdateUser(id: string, name: Option<string>, email: Option<string>, role: Option<string>,
                      isEmail: string -> bool, isObjectId: string -> bool)
      returns (r: Reply)
      requires Valid()
      modifies this`users
      ensures Valid()
      ensures Step(r, users) == Update(old(users), id, name, email, role, None, isEmail, isObjectId)
    {
      r := ApplyUpdate(id, name, email, role, None, isEmail, isObjectId);
    }

    method ApplyUpdate(id: string, name: Option<string>, email: Option<string>, role: Option<string>,
                       avatar: Option<Avatar>, isEmail: string -> bool, isObjectId: string -> bool) returns (r: Reply)
      requires Valid()
      modifies this`users
      ensures Valid()
      ensures Step(r, users) == Update(old(users), id, name, email, role, avatar, isEmail, isObjectId)
    {
      UpdateKeepsDistinct(users, id, name, email, role, avatar, isEmail, isObjectId);
      if !isObjectId(id) {
        return Reject(IdCastFailure(id));
      }
      var errs := UpdateViolations(name, email, isEmail);
      if errs != [] {
        return Reject(ValidationFailure("Validation failed", errs));
      }
      var found := FirstMatch(users, ById(id));
      if found.None? {
        return Respond(OK, None, UserBody(None));
      }
      var i := found.value;
      if email.Some? && exists j :: 0 <= j < |users| && j != i && users[j].email == email.value {
        return Reject(DuplicateKey("email", email.value));
      }
      var user := Patched(users[i], name, email, role, avatar);
      users := users[i := user];
      r := Respond(OK, None, UserBody(Some(user)));
    }
  }
}
