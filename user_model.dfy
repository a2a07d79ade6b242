/**
 * The user document: its schema constraints, the reset-token fields and the
 * token payload. Hashing (bcrypt, sha256), `randomBytes` and the e-mail
 * validator are functions the model receives as parameters.
 */
module UserModel {
  import opened Wrappers
  import opened Text
  import opened CustomErrors
  import opened ErrorValue
  import opened Tokens

  datatype Avatar = Avatar(publicId: string, url: string)

  /** A stored user; `password` holds what the save hook stored (a bcrypt hash). */
  datatype User = User(
    id: string,
    name: string,
    email: string,
    password: string,
    avatar: Avatar,
    role: string,
    createdAt: int,
    resetPasswordToken: Option<string>,
    resetPasswordExpire: Option<int>)

  const NAME_MAX_LENGTH: nat := 30
  const PASSWORD_MIN_LENGTH: nat := 6
  const DEFAULT_ROLE: string := "user"
  /** 30 minutes, in milliseconds. */
  const RESET_TOKEN_LIFETIME_MS: int := 30 * 60 * 1000

  /** Mongoose's `required` check for a string path: present and not empty. */
  predicate Present(v: Option<string>) {
    v.Some? && v.value != ""
  }

  // Each path's validators run in order and the first failing one gives the
  // path's message; `required` always comes first.

  function NameViolation(name: Option<string>): Option<string> {
    if !Present(name) then Some("Please enter your name")
    else if Utf16Length(name.value) > NAME_MAX_LENGTH then Some("Your name cannot exceed 30 Characters")
    else None
  }

  function EmailViolation(email: Option<string>, isEmail: string -> bool): Option<string> {
    if !Present(email) then Some("Please enter your email")
    else if !isEmail(email.value) then Some("Please enter valid email address")
    else None
  }

  function PasswordViolation(password: Option<string>): Option<string> {
    if !Present(password) then Some("Please enter your password")
    else if Utf16Length(password.value) < PASSWORD_MIN_LENGTH then Some("Your password must be longer than 6 characters")
    else None
  }

  function RequiredViolation(path: string, value: string): Option<string> {
    if value == "" then Some("Path `" + path + "` is required.") else None
  }

  /** The values given to `User.create`. */
  datatype Draft = Draft(name: Option<string>, email: Option<string>, password: Option<string>, avatar: Avatar)

  /** The schema constraints, stated declaratively; lengths are JavaScript string lengths. */
  ghost predicate Conforms(d: Draft, isEmail: string -> bool) {
    && d.name.Some? && 1 <= |d.name.value| && Utf16Length(d.name.value) <= 30
    && d.email.Some? && d.email.value != "" && isEmail(d.email.value)
    && d.password.Some? && Utf16Length(d.password.value) >= 6
    && d.avatar.publicId != "" && d.avatar.url != ""
  }

  function Entry(path: string, violation: Option<string>): Entries {
    if violation.Some? then [(path, violation.value)] else []
  }

  /** The `errors` of the ValidationError that saving `d` raises, path by path in schema order. */
  function Violations(d: Draft, isEmail: string -> bool): (r: Entries)
    ensures r == [] <==> Conforms(d, isEmail)
    ensures forall i :: 0 <= i < |r| ==> r[i].0 in ["name", "email", "password", "avatar.public_id", "avatar.url"]
  {
    Entry("name", NameViolation(d.name))
    + Entry("email", EmailViolation(d.email, isEmail))
    + Entry("password", PasswordViolation(d.password))
    + Entry("avatar.public_id", RequiredViolation("avatar.public_id", d.avatar.publicId))
    + Entry("avatar.url", RequiredViolation("avatar.url", d.avatar.url))
  }

  /** A name is accepted exactly when it is not empty and has at most 30 UTF-16 code units. */
  lemma NameBounds(name: string)
    ensures NameViolation(Some(name)).None? <==> 1 <= |name| && Utf16Length(name) <= NAME_MAX_LENGTH
    ensures |name| > NAME_MAX_LENGTH ==> NameViolation(Some(name)).Some?
  {
  }

  /** `minlength: 6` accepts six characters, whatever the message says about "longer than 6". */
  lemma SixCharacterPasswordAccepted(password: string)
    ensures PasswordViolation(Some(password)).None? <==> Utf16Length(password) >= 6
    ensures |password| == 6 ==> PasswordViolation(Some(password)).None?
  {
  }

  /**
   * The length validators count UTF-16 code units, so a character above
   * U+FFFF counts twice: three emoji make a long enough password, and
   * sixteen make too long a name.
   */
  lemma AstralCharactersCountTwice()
    ensures PasswordViolation(Some("\U{1F600}\U{1F600}\U{1F600}")).None?
    ensures NameViolation(Some(seq(16, _ => '\U{1F600}'))).Some?
  {
    AstralLength(seq(16, _ => '\U{1F600}'));
  }

  function ViolationLines(errors: Entries): seq<string> {
    if errors == [] then [] else [errors[0].0 + ": " + errors[0].1] + ViolationLines(errors[1..])
  }

  /** The Mongoose `ValidationError` raised when a document or update fails its validators. */
  function ValidationFailure(prefix: string, errors: Entries): (t: Thrown)
    ensures t.Raw? && Name(t) == Some("ValidationError") && t.signal.errors == Some(errors)
  {
    Raw(PlainError("ValidationError", prefix + ": " + Join(ViolationLines(errors), ", ")).(errors := Some(errors)))
  }

  /** The CastError Mongoose raises when a query's `_id` is not an ObjectId; its message text is abbreviated. */
  function IdCastFailure(id: string): (t: Thrown)
    ensures t.Raw? && Name(t) == Some("CastError") && t.signal.path == Some("_id") && t.signal.code.None?
  {
    Raw(PlainError("CastError", "Cast to ObjectId failed for value \"" + id + "\"").(path := Some("_id")))
  }

  /** The driver's E11000 error for a unique index; the driver's message text is abbreviated. */
  function DuplicateKey(field: string, value: string): (t: Thrown)
    ensures t.Raw? && t.signal.code == Some(NumCode(11000)) && t.signal.keyValue == Some([(field, value)])
  {
    Raw(PlainError("MongoServerError", "E11000 duplicate key error").(code := Some(NumCode(11000)), keyValue := Some([(field, value)])))
  }

  /** The document `User.create` stores for a conforming draft: the role takes its default. */
  function NewUser(id: string, d: Draft, now: int, hashPassword: string -> string): (u: User)
    requires d.name.Some? && d.email.Some? && d.password.Some?
    ensures u.role == DEFAULT_ROLE && u.createdAt == now
    ensures u.password == hashPassword(d.password.value)
    ensures u.resetPasswordToken.None? && u.resetPasswordExpire.None?
  {
    User(id, d.name.value, d.email.value, hashPassword(d.password.value), d.avatar, DEFAULT_ROLE, now, None, None)
  }

  /** `getJwtToken`: signs `{ id }`. */
  function JwtToken(u: User, sign: Payload -> string): (token: string)
    ensures token == sign(Payload(u.id))
  {
    sign(Payload(u.id))
  }

  /** The token depends on the id alone: role, name and the rest are never signed. */
  lemma TokenSignsOnlyId(u: User, v: User, sign: Payload -> string)
    requires u.id == v.id
    ensures JwtToken(u, sign) == JwtToken(v, sign)
  {
  }

  /**
   * `getResetPasswordToken`: given the raw token `randomBytes` produced, store
   * its sha256 hex and an expiry 30 minutes from `now`, and return the raw token.
   */
  function WithResetToken(u: User, raw: string, now: int, sha256: string -> string): (r: (User, string))
    ensures r.1 == raw
    ensures r.0.resetPasswordToken == Some(sha256(raw))
    ensures r.0.resetPasswordExpire == Some(now + 1800000)
    ensures r.0.(resetPasswordToken := u.resetPasswordToken, resetPasswordExpire := u.resetPasswordExpire) == u
  {
    (u.(resetPasswordToken := Some(sha256(raw)), resetPasswordExpire := Some(now + RESET_TOKEN_LIFETIME_MS)), raw)
  }
}
