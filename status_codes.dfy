/**
 * The HTTP status codes the core uses, under the names of the `StatusCodes`
 * table of the http-status-codes package (values from RFC 9110 and RFC 4918).
 */
module StatusCodes {

  const OK: int := 200
  const CREATED: int := 201
  const BAD_REQUEST: int := 400
  const UNAUTHORIZED: int := 401
  const FORBIDDEN: int := 403
  const NOT_FOUND: int := 404
  const METHOD_NOT_ALLOWED: int := 405
  const REQUEST_TIMEOUT: int := 408
  const CONFLICT: int := 409
  const REQUEST_TOO_LONG: int := 413
  const UNPROCESSABLE_ENTITY: int := 422
  const TOO_MANY_REQUESTS: int := 429
  const INTERNAL_SERVER_ERROR: int := 500
  const SERVICE_UNAVAILABLE: int := 503
  const GATEWAY_TIMEOUT: int := 504
  const INSUFFICIENT_STORAGE: int := 507

  /** The codes Node's `writeHead` accepts: three digits, 100 to 999. */
  predicate ValidStatus(code: int) {
    100 <= code <= 999
  }
}
