/**
 * `sendToken` (utils/jwt.js): sign the user's token, set it as the httpOnly
 * `token` cookie expiring COOKIE_LIFETIME days from now, and answer
 * `{ success: true, token, user }` with the given status.
 */
module Jwt {
  import opened Wrappers
  import opened Tokens
  import opened UserModel
  import opened Http
  import opened StatusCodes

  const MS_PER_DAY: int := 24 * 60 * 60 * 1000

  /**
   * `Date.now() + COOKIE_LIFETIME * 24 * 60 * 60 * 1000`, in milliseconds, for
   * a COOKIE_LIFETIME that reads as a whole number of days. A cookie whose
   * lifetime is not positive has already expired when it is set.
   */
  function CookieExpiry(now: int, lifetimeDays: int): (expires: int)
    ensures lifetimeDays > 0 ==> expires > now
    ensures lifetimeDays <= 0 ==> expires <= now
  {
    now + lifetimeDays * 24 * 60 * 60 * 1000
  }

  /** With a whole-number COOKIE_LIFETIME the cookie lives exactly that many days: the product converts days to milliseconds. */
  lemma ExpiryIsWholeDays(now: int, lifetimeDays: int)
    ensures (CookieExpiry(now, lifetimeDays) - now) % MS_PER_DAY == 0
    ensures (CookieExpiry(now, lifetimeDays) - now) / MS_PER_DAY == lifetimeDays
    ensures CookieExpiry(now, 1) - now == 86400000
  {
  }

  /** A longer lifetime never expires sooner, and a positive one expires after now. */
  lemma ExpiryMonotonic(now: int, d1: int, d2: int)
    requires d1 <= d2
    ensures CookieExpiry(now, d1) <= CookieExpiry(now, d2)
    ensures d1 > 0 ==> CookieExpiry(now, d1) > now
  {
  }

  /** What `sendToken` puts on the response. */
  datatype TokenResponse = TokenResponse(status: int, cookie: Cookie, body: Body)

  function SendToken(u: User, statusCode: int, sign: Payload -> string, now: int, lifetimeDays: int): (r: TokenResponse)
    ensures r.status == statusCode
    ensures r.cookie.name == "token" && r.cookie.httpOnly
    ensures r.cookie.expires == CookieExpiry(now, lifetimeDays)
    ensures r.body.TokenBody? && r.body.user == u
    ensures r.cookie.value == r.body.token == sign(Payload(u.id))
  {
    var token := JwtToken(u, sign);
    TokenResponse(statusCode, Cookie("token", token, CookieExpiry(now, lifetimeDays), true), TokenBody(token, u))
  }

  /** Two users with the same id get the same cookie and the same token in the body. */
  lemma TokenFollowsId(u: User, v: User, statusCode: int, sign: Payload -> string, now: int, lifetimeDays: int)
    requires u.id == v.id
    ensures SendToken(u, statusCode, sign, now, lifetimeDays).cookie == SendToken(v, statusCode, sign, now, lifetimeDays).cookie
  {
    TokenSignsOnlyId(u, v, sign);
  }

  /** `res.status(statusCode).cookie('token', token, options).json(...)` */
  method Send(u: User, statusCode: int, res: ServerResponse, sign: Payload -> string, now: int, lifetimeDays: int)
    requires !res.headersSent && ValidStatus(statusCode)
    modifies res
    ensures var r := SendToken(u, statusCode, sign, now, lifetimeDays);
      && res.statusCode == r.status
      && res.cookies == old(res.cookies) + [r.cookie]
      && res.body == Some(r.body) && res.headersSent
  {
    var r := SendToken(u, statusCode, sign, now, lifetimeDays);
    res.Status(r.status);
    res.SetCookie(r.cookie);
    res.Json(r.body);
  }
}
