/**
 * The signed credential. Signing and verification belong to the jsonwebtoken
 * library; the model passes them around as functions it cannot look into.
 */
module Tokens {
  import opened Wrappers
  import opened ErrorValue

  /** The payload `getJwtToken` signs: the user's id and nothing else. */
  datatype Payload = Payload(id: string)

  /** A decoded payload: `id`, `role` when the signer put one in, and the registered `iat`/`exp` claims. */
  datatype Claims = Claims(id: string, role: Option<string>, iat: Option<int>, exp: Option<int>)

  /** What `jwt.verify(token, secret)` does: return the claims, or throw. */
  datatype Verification = Verified(claims: Claims) | Expired(message: string) | Invalid(message: string)

  /** The error `jwt.verify` throws for a token it refuses. */
  function VerifyError(v: Verification): (t: Thrown)
    requires !v.Verified?
    ensures t.Raw? && Message(t) == Some(v.message)
    ensures Name(t) == Some(if v.Expired? then "TokenExpiredError" else "JsonWebTokenError")
  {
    if v.Expired? then Raw(PlainError("TokenExpiredError", v.message))
    else Raw(PlainError("JsonWebTokenError", v.message))
  }
}
