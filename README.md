# ShopIT request gating and error translation, in Dafny

This project models the part of the ShopIT backend that decides whether a
request gets through and what the client is told when it does not, together
with a few small pieces of client-side logic. It covers:

- **Typed errors.** `CustomAPIError` and its subclasses in
  `backend/utils/customErrors.js` (module `CustomErrors`). Each subclass has a
  fixed HTTP status and a default message.
- **The current error middleware.** `backend/middleware/errorHandler.js`
  (module `ErrorHandler`):
  - the `/prod/i` mode test;
  - the development response;
  - the production chain: first match over error name, code and type;
  - forwarding when the headers are already sent.
- **The older error middleware.** `backend/middlewares/errors.js` (module
  `LegacyErrors`). It writes a default status back into the error. Its
  independent rules mean the last one that applies wins, except that a rule
  which throws stops the rest, and outside development it always answers 404.
- **The current authentication middleware.** `backend/middleware/auth.js`
  (module `Auth`):
  - token precedence: Bearer header, then the `token` cookie, then the signed
    cookie;
  - a missing token is told apart from a refused one;
  - `authorizeRoles` flattens its arguments one level.
- **The older authentication middleware.** `backend/middlewares/auth.js`
  (module `LegacyAuth`): the token comes from the cookie only, the user is
  looked up by id, and the role must equal one of the literal arguments.
- **The account handlers.** In `backend/controllers/authController.js`
  (module `AuthController`):
  - `registerUser`, `loginUser`, `forgotPassword` and `resetPassword`;
  - the field choice of `updateProfile` and `updateUser`.

  The schema constraints and reset-token arithmetic of `backend/models/User.js`
  are in module `UserModel`. `sendToken` from `backend/utils/jwt.js` is in
  module `Jwt`.
- **Client-side logic:**
  - the product-list reducer, `productReducers.js` (module `ProductReducer`);
  - the product thunks and the `getProducts` URL builder, `productActions.js`
    (module `ProductActions`);
  - the `Protected` route, `Protected.js` (module `ProtectedRoute`).

Some modules hold shared definitions:

- `Wrappers`: `Option`.
- `Text`: string helpers with JavaScript semantics, such as `includes`,
  `split(' ')[1]`, truthiness, and the way `undefined` is rendered in a
  template literal.
- `StatusCodes`: the `http-status-codes` constants.
- `ErrorValue`: what a handler receives as `err`.
- `Tokens`: the JWT payload and claims.
- `Http`: the Express response, and a request with its `next` calls.
- `ProductConstants`: the Redux actions.

`Scenarios` follows whole requests through guard, error and response.

Modelling choices:

- **Thrown values.** `Thrown` is either `Custom(AppError)`, an instance of the
  typed hierarchy, or `Raw(Signal)`, any other error. A `Signal` keeps only the
  properties the handlers read: `name`, `message`, `code`, `type`, `path`,
  `keyValue`, `errors`, `values`, `statusCode` and `stack`. Each one may be
  undefined.
- **Errors a handler raises itself.** Any JavaScript TypeError a handler
  raises, such as `Object.values(undefined)` or reading `role` of an unset
  `req.user`, is a `Fault`. Middlewares pass it on, as Express does with a
  synchronous throw.
- **Classes where the source changes state.**
  - The Express response is the class `Http.ServerResponse`. As in Express 4,
    its `status` records any code. Its `json` requires unsent headers and a
    status in 100..999. Node refuses any other status only when the response
    is written.
  - A request's `req.user` and its record of `next` calls make up
    `Http.Exchange`.
  - The users collection and the avatar store are `AuthController.Accounts`.
  - The Redux store of the thunks is `ProductActions.Store`.
- **Methods proved against functions.** Each of these methods is proved
  against a function that states its result. Lemmas about those functions
  carry the properties.
- **The users collection is a sequence in natural order, not a map.** The
  handlers look users up with `findOne`, which returns the first document that
  matches, so order matters. `Distinct` states the unique e-mail index and
  unique ids. Every handler is proved to keep it.
- **Library calls are parameters.** This covers jsonwebtoken `sign`/`verify`,
  bcrypt, sha256, `randomBytes`, `validator.isEmail`, the driver's ObjectId
  test, `sendEmail`, Cloudinary,
  the clock, NODE_ENV, FRONTEND_URL and COOKIE_LIFETIME.

Where the source and its documentation disagree, the model follows the code:

- **Token precedence.** The doc comment of `authenticate` lists cookie, signed
  cookie, then header. The code tests the Bearer header first
  (backend/middleware/auth.js:17-21 against 48-54).
- **Missing token.** The 401 for a missing token says "Authentication invalid.
  Please log in". It does not use the class default, "Authentication
  required".
- **CastError.** The production CastError message names the path that failed
  to cast, for example `_id`, and not the offending value.
- **Which handlers are live.** The Express app mounts the older
  `middlewares/errors.js` (backend/app.js:42-43), and the product routes use
  the older `isAuthenticatedUser` and `authorizeRoles`
  (backend/routes/product.js:17-23). On those routes a 401 or 403 goes out as
  a 404 outside development (`Scenarios.LegacyAdminRouteRefusalIs404`).
- **Roles in tokens.** Tokens carry only `id`, so the claims the current
  `authenticate` attaches have no role. `Auth.RolelessClaimsRefused` proves
  that every role gate then refuses, with "undefined is not authorized to
  perform this action".
- **The older validation rule.** It reads `err.values`, but Mongoose puts
  field errors in `err.errors`. For a Mongoose ValidationError the older
  handler therefore throws a TypeError of its own
  (`LegacyErrors.MongooseValidationThrows`).

## Model

| member | source | states |
|---|---|---|
| CustomErrors.FixedStatus | backend/utils/customErrors.js:40-223 | Every subclass passes a fixed status to the base constructor, and the base class has none. Every fixed status lies in 400..599. It is below 500 exactly for the client-error and business-rule classes. |
| CustomErrors.DefaultMessage | backend/utils/customErrors.js:41-219 | Every subclass declares a default message; the base class declares none. |
| CustomErrors.NewCustomAPIError | backend/utils/customErrors.js:21-26 | The base constructor names the instance "CustomAPIError". An omitted status becomes 500, and an omitted message becomes the empty message. No `errors` member is set. |
| CustomErrors.NewError | backend/utils/customErrors.js:40-223 | A subclass instance carries its class name and its class's fixed status, which lies in 400..599. Its message is the given one, or else the class default. |
| CustomErrors.NewValidationError | backend/utils/customErrors.js:134-143 | ValidationError is 422. A string `errors` is wrapped as `{ message }` and an object is kept as it is. The message defaults to "Validation failed". |
| CustomErrors.StatusIgnoresMessage | backend/utils/customErrors.js:40-223 | A subclass's status does not depend on the message it is given. |
| ErrorValue.LegacyError | backend/utils/customErrors.js:225-232 | An `ErrorHandler` instance of the older modules is an Error named "Error" with the given message and status. |
| ErrorValue.StatusRangeError | backend/middleware/errorHandler.js:70 | The error a response raises for a status it cannot send is a RangeError with code ERR_HTTP_INVALID_STATUS_CODE. |
| Tokens.VerifyError | backend/middlewares/auth.js:18 | A refused token makes `jwt.verify` throw TokenExpiredError or JsonWebTokenError with the library's message. |
| ErrorHandler.IsProduction | backend/middleware/errorHandler.js:5 | Production needs a NODE_ENV of at least four characters, so an unset NODE_ENV selects development. |
| ErrorHandler.ProductionIffProd | backend/middleware/errorHandler.js:5 | Production mode holds exactly when NODE_ENV contains "prod" in any mix of cases. |
| ErrorHandler.LowerProdAt | backend/middleware/errorHandler.js:5 | "prod" occurs at a position of the lower-cased NODE_ENV exactly when NODE_ENV spells p-r-o-d there, case-insensitively. |
| ErrorHandler.LowerMatches | backend/middleware/errorHandler.js:5 | Case-insensitive matching of one letter: lower-casing sends exactly its two cases to the lower one. |
| ErrorHandler.UnsetEnvironmentIsDevelopment | backend/middleware/errorHandler.js:5 | An unset NODE_ENV selects the development handler. |
| ErrorHandler.FieldMessages | backend/middleware/errorHandler.js:140-141 | The mapped list has one entry per field error, each being that error's message, in order. |
| ErrorHandler.Classify | backend/middleware/errorHandler.js:102-161 | Every rule of the chain answers with a status in 400..599. The chain throws only in three places: code 11000 without `keyValue`, a MongoError without a message, and a ValidationError without `errors`. |
| ErrorHandler.CodeVerdict | backend/middleware/errorHandler.js:125-160 | The code table never throws. Every code in it answers with a status in 400..599, and every code tested before the name rules is in it. |
| ErrorHandler.CodeTable | backend/middleware/errorHandler.js:125-160 | An error that only a code rule claims is classified by the code table. The first code rule in source order wins. |
| ErrorHandler.EarlyCodes | backend/middleware/errorHandler.js:125-134 | The codes tested before the MongoError and ValidationError rules decide as soon as no earlier name rule claims the error. |
| ErrorHandler.LateCodes | backend/middleware/errorHandler.js:146-160 | The codes tested after the name rules decide only when no name rule claims the error. |
| ErrorHandler.CodeStatuses | backend/middleware/errorHandler.js:125-160 | The statuses are: 408 for ETIMEDOUT, ESOCKETTIMEDOUT and ECONNABORTED; 503 for ECONNREFUSED and ECONNRESET; 403 for EBADCSRFTOKEN, EACCES and EPERM; 404 for ENOENT; 507 for ENOSPC. |
| ErrorHandler.NameTable | backend/middleware/errorHandler.js:112-145 | Each name and type rule answers as written once the rules before it let the error through. MongooseServerSelectionError is 503, and MulterError is 400 "File upload error: <message>". PayloadTooLargeError or type `entity.too.large` is 413. A MongoError whose message includes "timed out" is 504, and one with no message throws a TypeError. A SyntaxError of type `entity.parse.failed` is 400. |
| ErrorHandler.PayloadRule | backend/middleware/errorHandler.js:119-124 | The payload limit, by error name or by body-parser type, is a 413 once no earlier name rule and no code 11000 claims the error. |
| ErrorHandler.MongoErrorRule | backend/middleware/errorHandler.js:135-137 | A MongoError that no earlier rule claims is 504 when its message includes "timed out". It throws reading `includes` when it has no message, and is otherwise left to the later rules. |
| ErrorHandler.InvalidJsonRule | backend/middleware/errorHandler.js:143-145 | A SyntaxError of type `entity.parse.failed` that no earlier code claims is a 400 "Invalid JSON payload". |
| ErrorHandler.FallbackStatus | backend/middleware/errorHandler.js:98 | A status that is set and non-zero is kept; an unset or zero status becomes 500. |
| ErrorHandler.Answer | backend/middleware/errorHandler.js:173-176 | `res.status(code).json(body)` answers exactly when the code lies in 100..999. Any other code is recorded on the response, but the write is refused. |
| ErrorHandler.PassedOn | backend/middleware/errorHandler.js:173-176 | When the handler does not answer, the next handler gets one of two errors. A refused status gives the RangeError with ERR_HTTP_INVALID_STATUS_CODE. A forwarded error is passed on as it is. |
| ErrorHandler.ProductionOutcome | backend/middleware/errorHandler.js:86-177 | A typed error answers with its own status, message and `errors`. Any other error answers with only a message. It is passed on when the chain throws, as that TypeError. A status that cannot be sent is refused at the write. Every status actually sent lies in 100..999. |
| ErrorHandler.DevelopmentOutcome | backend/middleware/errorHandler.js:46-71 | Development answers, with a detailed body, exactly when the error's own status (500 when undefined) lies in 100..999. Otherwise that status is refused at the write. A zero status is kept, because the default applies only when the status is undefined. The message is the error's own when defined. The body carries the stack and the original URL. |
| ErrorHandler.Respond | backend/middleware/errorHandler.js:198-204 | With headers sent, the error is forwarded unchanged. Otherwise the answer is the production outcome when NODE_ENV contains "prod", and the development outcome when it does not. On unsent headers the handler forwards a fresh error only when a rule raises a TypeError. A refused status occurs only on unsent headers, and only for a status outside 100..999. |
| ErrorHandler.ErrorHandlerMiddleware | backend/middleware/errorHandler.js:198-204 | On unsent headers it writes the decided status and body once, and marks the headers sent. For a status outside 100..999, the response keeps that status with its headers unsent, and the write's RangeError is returned for `next`. When the headers were already sent, or a rule faults, the response is left untouched and the error passed to `next` is returned. |
| ErrorHandler.TypedErrorModesAgree | backend/middleware/errorHandler.js:49-54 | A typed error whose status lies in 100..999 is answered in both modes with its own status and message. Production also sends its `errors` and nothing more. |
| ErrorHandler.SubclassStatusReachesClient | backend/middleware/errorHandler.js:88-95 | A subclass instance keeps its fixed status in production. The typed check runs before every name rule. |
| ErrorHandler.TypedValidationKeeps422 | backend/middleware/errorHandler.js:88-95 | The typed ValidationError shares its name with Mongoose's, yet in production it is answered as a typed error: 422 with its own message and `errors`. |
| ErrorHandler.CastErrorResponse | backend/middleware/errorHandler.js:102-104 | A CastError is a 404 "Resource not found. Invalid: <path>". |
| ErrorHandler.DuplicateKeyIsConflict | backend/middleware/errorHandler.js:105-111 | Code 11000 is a 409 "<field> '<value>' already exists." built from the first key of `keyValue`. This holds even for a MongoServerError. |
| ErrorHandler.ServerErrorIsOutage | backend/middleware/errorHandler.js:109-111 | A MongoServerError with any other code is a 503. |
| ErrorHandler.MongooseValidationResponse | backend/middleware/errorHandler.js:138-142 | A Mongoose ValidationError is a 400 listing every field message, joined by "; ". |
| ErrorHandler.UnmatchedKeepsStatus | backend/middleware/errorHandler.js:97-100 | An error no rule claims keeps its status (or 500) and gets the generic message. If that status lies outside 100..999, it is refused at the write instead. |
| ErrorHandler.InvalidStatusForwarded | backend/middleware/errorHandler.js:86-100 | A status outside 100..999 is never answered; it is refused at the write. In development this is the error's own status, zero included. In production it is a typed error's own status, or an unclaimed error's status after the 500 fallback. |
| ErrorHandler.ZeroStatusModesDiffer | backend/middleware/errorHandler.js:52-98 | An unclaimed error with status 0 is refused at the write in development, but is answered 500 with the generic message in production. |
| LegacyErrors.LastApplying | backend/middlewares/errors.js:19-46 | The rule whose message survives applies; when there is none, no rule applies. |
| LegacyErrors.FirstThrow | backend/middlewares/errors.js:19-46 | A reported fault is that of a rule that applies and throws. There is none exactly when every rule that applies computes a message. |
| LegacyErrors.Translation | backend/middlewares/errors.js:15-46 | The outcome is undefined exactly when no rule applies and the error has no message. A throw, or a message other than the error's own, comes from a rule that applies. |
| LegacyErrors.OnlyTwoRulesThrow | backend/middlewares/errors.js:25-34 | Only two rules can throw. The validation rule throws without `values`, and the duplicate-key rule throws without `keyValue`; the validation rule is reached first. |
| LegacyErrors.LaterRulesOutrank | backend/middlewares/errors.js:19-46 | Read backwards, the token rules outrank the duplicate-key rule, which outranks the validation rule, which outranks the cast rule. |
| LegacyErrors.TranslateError | backend/middlewares/errors.js:15-46 | Running the five rules in order either throws the first fault or ends with the message the translation prescribes. |
| LegacyErrors.Defaulted | backend/middlewares/errors.js:5 | The error afterwards has its status defaulted (unset or zero becomes 500), and its name, message and stack are unchanged. |
| LegacyErrors.Shown | backend/middlewares/errors.js:50 | The text sent is never empty: an empty or missing message becomes "Internal Server Error". |
| LegacyErrors.LegacyOutcome | backend/middlewares/errors.js:4-59 | Outside development every answer is 404, and only a rule's own TypeError is passed on. In development the answer has the error's defaulted status exactly when that status lies in 100..999; otherwise that status is refused at the write. A refused status happens only in development. |
| LegacyErrors.LegacyInvalidStatusForwarded | backend/middlewares/errors.js:5-8 | In development a zero status falls back to 500 and is answered. Any other status outside 100..999 is not answered: it is refused at the write. |
| LegacyErrors.LegacyErrorMiddleware | backend/middlewares/errors.js:4-59 | The error's status is written back. The status and body are written, and cookies are untouched. On an already-sent response the status is still set and `json` throws ERR_HTTP_HEADERS_SENT, and that error is returned for `next`. On an unsent response, a status outside 100..999 is still set and the headers stay unsent. The write's RangeError is then returned for `next`. |
| LegacyErrors.DuplicateOverwritesCast | backend/middlewares/errors.js:19-34 | A CastError carrying code 11000 is reported as "Duplicate <keys> entered." with 404: the later rule overwrites. |
| LegacyErrors.TokenMessagesWin | backend/middlewares/errors.js:37-46 | JWT errors get their fixed "invalid" or "expired" message, even when a duplicate-key rule also applied. |
| LegacyErrors.MongooseValidationThrows | backend/middlewares/errors.js:25-28 | A ValidationError without `values` makes the middleware throw a TypeError of its own, which is passed on. |
| LegacyErrors.UnclaimedKeepsMessage | backend/middlewares/errors.js:15-51 | An error no rule claims is answered 404 with its own message, or "Internal Server Error" if that is empty. |
| Auth.TokenSource | backend/middleware/auth.js:48-54 | A header starting with "Bearer " decides first. Otherwise a truthy `token` cookie decides, then a truthy signed cookie; failing those, there is no source. |
| Auth.SelectedToken | backend/middleware/auth.js:44-54 | A "Bearer " header gives its second space-separated piece. Without one, a token is truthy exactly when a cookie is. A token always comes from the header, the `token` cookie or the signed cookie. |
| Auth.Authenticate | backend/middleware/auth.js:43-70 | Every rejection is a 401 UnauthenticatedError. The message is the missing-token one exactly when the selected token is falsy. Success happens exactly for a truthy token that verifies, and carries its claims. |
| Auth.AuthenticateRequest | backend/middleware/auth.js:56-69 | On success `req.user` is set to the decoded claims and `next()` is called once. On rejection the error is thrown and `req.user` and `next` are untouched. |
| Auth.BearerHeaderWins | backend/middleware/auth.js:48-49 | A Bearer header decides, whatever the cookies hold. |
| Auth.BearerToken | backend/middleware/auth.js:49 | The token of "Bearer <rest>" is `<rest>` up to its first space. |
| Auth.EmptyBearerDoesNotFallBack | backend/middleware/auth.js:48-58 | "Bearer " alone yields an empty token. It does not fall back to the cookies, and gives the missing-token error. |
| Auth.CookieBeforeSignedCookie | backend/middleware/auth.js:50-54 | Without a Bearer header the `token` cookie comes before the signed cookie. With neither, there is no token. |
| Auth.MissingAndInvalidShareStatus | backend/middleware/auth.js:56-68 | A missing token and a refused token both give 401; only their messages differ. |
| Auth.FlatMembers | backend/middleware/auth.js:101 | `roles.flat()` holds exactly the name arguments and the elements of the array arguments. |
| Auth.Flat | backend/middleware/auth.js:101 | Plain name arguments pass through `roles.flat()` unchanged. |
| Auth.Allowed | backend/middleware/auth.js:101-104 | A user without a role is never allowed. |
| Auth.AllowedIffNamedOneLevelDeep | backend/middleware/auth.js:101-104 | A role is admitted exactly when it is named as an argument, or inside an array argument. |
| Auth.Authorize | backend/middleware/auth.js:103-110 | It admits exactly a present user whose role is allowed. Anyone else gets a 403 "<role> is not authorized to perform this action", or a TypeError when `req.user` is unset. |
| Auth.AuthorizeRequest | backend/middleware/auth.js:103-110 | `next()` is called exactly when the user is allowed, and `req.user` is never changed. |
| Auth.NestedArraysNotSpread | backend/middleware/auth.js:101 | A role nested two arrays deep is not admitted. |
| Auth.RolelessClaimsRefused | backend/middleware/auth.js:104-107 | Claims without a role are refused by every gate, with "undefined" in the message. |
| LegacyAuth.FindById | backend/middlewares/auth.js:19 | Over the same collection the account handlers keep, the lookup finds a document exactly when one has the id. With unique ids it is that document. |
| LegacyAuth.IsAuthenticatedUser | backend/middlewares/auth.js:8-21 | Only the cookie counts. A falsy one is refused with 401 "You must login first to access this resource". A refused token rejects with the error `jwt.verify` throws for it: TokenExpiredError or JsonWebTokenError with the library's message. Otherwise `req.user` is the user found by the decoded id, or null. |
| LegacyAuth.IsAuthenticatedRequest | backend/middlewares/auth.js:8-21 | A refusal calls `next(err)` once, and success sets `req.user` and calls `next()` once. A rejection calls neither. |
| LegacyAuth.SameMissingTokenDecision | backend/middlewares/auth.js:9-17 | With only a cookie to go by, the older and newer middlewares refuse the same requests for want of a token. |
| LegacyAuth.AuthorizeRoles | backend/middlewares/auth.js:23-35 | It admits exactly a role equal to one of the arguments themselves. Any other role gets a 403 "Role (<role>) is not allowed to access this resource". A missing user crashes with a TypeError. |
| LegacyAuth.AuthorizeRequest | backend/middlewares/auth.js:24-34 | An admitted role calls `next()` and a denied role calls `next(err)`, each once. A crash calls neither. `req.user` is untouched. |
| LegacyAuth.ArrayArgumentNotFlattened | backend/middlewares/auth.js:25 | `authorizeRoles(['admin'])` refuses an admin here, while the newer gate admits one. |
| LegacyAuth.GenerationsAgreeOnNames | backend/middlewares/auth.js:25 | On plain role-name arguments both generations admit the same roles. |
| UserModel.Violations | backend/models/User.js:7-45 | A draft is valid exactly when it meets the schema: a non-empty name of at most 30 UTF-16 code units, a valid e-mail, a password of at least 6 code units, and both avatar fields given. Every error names a schema path. |
| UserModel.NameBounds | backend/models/User.js:10-11 | A name is accepted exactly when it is not empty and has at most 30 UTF-16 code units, as JavaScript counts string length. A name of more than 30 characters is always refused. |
| UserModel.SixCharacterPasswordAccepted | backend/models/User.js:21-22 | `minlength: 6` accepts a password exactly when it has at least 6 UTF-16 code units. So six characters are always accepted, whatever the message says. |
| UserModel.AstralCharactersCountTwice | backend/models/User.js:8-22 | A character above U+FFFF counts as two code units. Three such characters make a long enough password, and sixteen make too long a name. |
| UserModel.ValidationFailure | backend/models/User.js:7-45 | A failed save raises a ValidationError carrying the field errors. |
| UserModel.DuplicateKey | backend/models/User.js:16 | The unique e-mail index raises code 11000 with `keyValue` naming the field and value. |
| UserModel.IdCastFailure | backend/controllers/authController.js:219 | An id that is not an ObjectId makes the query raise a CastError whose `path` is `_id` and which has no code. |
| UserModel.JwtToken | backend/models/User.js:61-65 | The token is `sign` applied to a payload that holds the id alone. |
| UserModel.NewUser | backend/models/User.js:35-44 | A created user has role "user", the creation time, the hashed password and no reset token. |
| UserModel.TokenSignsOnlyId | backend/models/User.js:61-65 | The signed payload depends on the id alone. |
| UserModel.WithResetToken | backend/models/User.js:68-79 | The raw token is returned and only its sha256 is stored. The expiry is now + 1,800,000 ms, and no other field changes. |
| Jwt.CookieExpiry | backend/utils/jwt.js:8-10 | For a whole-number COOKIE_LIFETIME, a positive lifetime expires after now, and any other has already expired. |
| Jwt.ExpiryIsWholeDays | backend/utils/jwt.js:8-10 | For a whole-number COOKIE_LIFETIME the cookie lives exactly that many days, and one day is 86,400,000 ms. |
| Jwt.ExpiryMonotonic | backend/utils/jwt.js:8-10 | A longer lifetime never expires sooner, and a positive one expires after now. |
| Jwt.SendToken | backend/utils/jwt.js:2-19 | It answers with the given status. It sets an httpOnly cookie named "token" with the computed expiry, and the body holds the same token and the user. |
| Jwt.TokenFollowsId | backend/utils/jwt.js:4-14 | Two users with the same id get the same cookie. |
| Jwt.Send | backend/utils/jwt.js:14-18 | Status, cookie and body are written once to the response. The handlers call it only with 200, which the response can send. |
| AuthController.FirstMatch | backend/controllers/authController.js:56-114 | `findOne` returns the first matching document, and nothing exactly when none matches. |
| AuthController.OnlyMatch | backend/controllers/authController.js:56-73 | Under unique e-mails and ids, the document matching by either is the one `findOne` returns. |
| AuthController.Register | backend/controllers/authController.js:19-42 | It passes on an error exactly when a field is missing. Every failure leaves the collection as it was. Success appends one user with the new id and the given e-mail, and answers 201. |
| AuthController.RegisterIffConforms | backend/controllers/authController.js:19-42 | Registration stores a user exactly when the draft meets the schema and the e-mail is new. Otherwise nothing is stored. |
| AuthController.MissingFieldCreatesNothing | backend/controllers/authController.js:20-27 | A missing name, e-mail or password is a 400 "Please provide name, email and password", and nothing is stored. |
| AuthController.RegisteredUser | backend/controllers/authController.js:28-42 | The new user is appended with the default role and no reset token. The reply is 201 with the token of its id. |
| AuthController.RegisterKeepsDistinct | backend/controllers/authController.js:28-36 | Registration keeps ids and e-mails unique. |
| AuthController.Login | backend/controllers/authController.js:48-68 | It answers or passes on an error, and never rejects. A success is 200 with the token cookie and a stored user. A refusal is either the missing-field 400 or the 404 "Incorrect email or password". |
| AuthController.LoginFailuresIndistinguishable | backend/controllers/authController.js:56-68 | An unknown e-mail and a wrong password give the same 404 "Incorrect email or password". Login succeeds exactly for the stored user whose password matches, and answers with that user's token. |
| AuthController.LoginNeedsBothFields | backend/controllers/authController.js:48-55 | A missing e-mail or password is a 400 "Please enter email and password". |
| AuthController.ResetMail | backend/controllers/authController.js:84-85 | The mail carries the raw reset token, inside the reset URL. |
| AuthController.Forgot | backend/controllers/authController.js:73-100 | The collection keeps its length, and no field other than the two reset fields changes. A success is 200 with no cookie. |
| AuthController.ForgotResetFields | backend/controllers/authController.js:78-100 | Only the reset fields of the requesting user change. On a delivered mail they hold sha256(token) and now + 30 minutes; on a failed mail both are cleared. |
| AuthController.UnknownEmailChangesNothing | backend/controllers/authController.js:73-76 | An unknown e-mail is a 404 "User not found", and nothing changes. |
| AuthController.Reset | backend/controllers/authController.js:107-134 | The collection keeps its length, ids, e-mails and roles. A success is 200 with the token cookie, and needs matching password and confirmation. |
| AuthController.ResetNeedsLiveToken | backend/controllers/authController.js:107-134 | A reset goes through only for a user holding sha256(token) with an expiry strictly after now. It sets the hashed password and clears both reset fields; every failure changes nothing. |
| AuthController.ExpiryIsExclusive | backend/controllers/authController.js:113 | A token expiring at `now` itself is refused with 400. |
| AuthController.MismatchAfterLookup | backend/controllers/authController.js:115-127 | A password/confirm mismatch is reported only after the token lookup succeeds, and changes nothing. |
| AuthController.Patched | backend/controllers/authController.js:162-179 | `$set` changes exactly the given fields among name, e-mail, role and avatar. Every other field keeps its value, and an empty update changes nothing. |
| AuthController.UpdateViolations | backend/controllers/authController.js:180-185 | With `runValidators`, only the paths the update sets are validated. The update passes exactly when each set name and e-mail passes the schema's validators, and every violation names `name` or `email`. |
| AuthController.Update | backend/controllers/authController.js:180-185 | An id that is not an ObjectId rejects with the CastError on `_id` before any validator runs, and changes nothing. A reply with a user needs a well-formed id and an update that passes its validators. The collection keeps its length, ids and passwords. A refusal, and an unknown id (answered with a null user), leave it as it was. A reply carries a user exactly when some user has the id. The first such user is then replaced by its patched copy, and the reply carries that new document. Once the id and validators pass, a user found by the id is updated unless another user already has the new e-mail. |
| AuthController.ProfileUpdateKeepsRoles | backend/controllers/authController.js:162-185 | `updateProfile` never changes any role. |
| AuthController.AdminUpdateSetsRole | backend/controllers/authController.js:211-224 | `updateUser` sets the found user's role to the given one. |
| AuthController.UpdateKeepsDistinct | backend/controllers/authController.js:180-223 | Updates keep ids and e-mails unique. |
| AuthController.SameKeysKeepDistinct | backend/controllers/authController.js:79-133 | Saving a document with the same id and e-mail keeps both unique. |
| AuthController.ResetKeepsDistinct | backend/controllers/authController.js:129-133 | A reset keeps ids and e-mails unique. |
| AuthController.ForgotKeepsDistinct | backend/controllers/authController.js:78-99 | `forgotPassword` keeps ids and e-mails unique. |
| AuthController.Accounts.RegisterUser | backend/controllers/authController.js:11-43 | The avatar is uploaded before any check. The stored users and the reply are those of the registration rules, and uniqueness is kept. |
| AuthController.Accounts.LoginUser | backend/controllers/authController.js:46-69 | The reply is that of the login rules; nothing is changed. |
| AuthController.Accounts.ForgotPassword | backend/controllers/authController.js:72-102 | The stored users and the reply are those of the forgot-password rules, and uniqueness is kept. |
| AuthController.Accounts.ResetPassword | backend/controllers/authController.js:105-135 | The stored users and the reply are those of the reset rules, and uniqueness is kept. |
| AuthController.Accounts.UpdateProfile | backend/controllers/authController.js:161-186 | With a file, a malformed id rejects with the CastError of `findById` and nothing changes. Otherwise the old image is destroyed and the new one uploaded before the update. For a vanished user the handler throws and nothing changes. The update sets only name, e-mail and avatar. |
| AuthController.Accounts.UpdateUser | backend/controllers/authController.js:210-225 | The update sets name, e-mail and role of the user named in the URL, and uniqueness is kept. A URL id that is not an ObjectId rejects with the CastError on `_id`. |
| AuthController.Accounts.ApplyUpdate | backend/controllers/authController.js:180-185 | `findByIdAndUpdate` with validators gives the update rules' reply and users. A malformed id gives a CastError and a well-formed unknown id gives a null user. A taken e-mail gives a duplicate-key error. |
| ProductReducer.Reduce | frontend/src/components/reducers/productReducers.js:8-35 | REQUEST gives exactly `{loading: true, products: []}`. SUCCESS takes products and count from the payload. FAIL gives `{loading: false, error}`. CLEAR_ERRORS sets only `error` to null, and any other action returns the state unchanged. |
| ProductReducer.RequestForgetsState | frontend/src/components/reducers/productReducers.js:12-16 | After REQUEST the state no longer depends on what came before: no error and no count. |
| ProductReducer.ClearErrorsIdempotent | frontend/src/components/reducers/productReducers.js:28-32 | CLEAR_ERRORS changes only `error`, and applying it twice equals applying it once. |
| ProductReducer.OtherActionsIgnored | frontend/src/components/reducers/productReducers.js:33-34 | Actions this reducer does not handle leave the state as it is. |
| ProductReducer.ReachableStatesConsistent | frontend/src/components/reducers/productReducers.js:8-35 | Every state reachable from the initial one is consistent. While loading, the list is empty and there is no error. An error comes with no list. A count appears only after a finished load. |
| ProductActions.ProductsUrl | frontend/src/actions/productActions.js:28-31 | A URL is built exactly when `price` is defined. |
| ProductActions.UrlWithoutCategory | frontend/src/actions/productActions.js:28 | Without a category (undefined or empty), and with `price = [lo, hi]`, the URL lists keyword, page, then `price[lte]=hi` (from `price[1]`) and `price[gte]=lo` (from `price[0]`), then `ratings[gte]`. |
| ProductActions.SearchDefaults | frontend/src/actions/productActions.js:24 | Omitted arguments act as keyword "", page 1 and rating 0. |
| ProductActions.CategoryInsertedBeforeRatings | frontend/src/actions/productActions.js:28-31 | A truthy category inserts `&category=C` right before `&ratings[gte]`; the rest of the URL is unchanged. |
| ProductActions.Run | frontend/src/actions/productActions.js:23-113 | A thunk makes the call its arguments determine. A request thunk dispatches its REQUEST first, then at most one more action, and only a rejected promise leaves REQUEST alone. `clearErrors` dispatches CLEAR_ERRORS and makes no call. |
| ProductActions.RequestThenOneOutcome | frontend/src/actions/productActions.js:26-39 | Every request thunk dispatches REQUEST first, then exactly one of SUCCESS (with the data) or FAIL (with the server's message). It rejects with only REQUEST dispatched when no response arrived or no URL could be built. |
| ProductActions.NewProductDispatchesReviewActions | frontend/src/actions/productActions.js:42-63 | `newProduct` posts to `/api/v1/product/new` but dispatches only NEW_REVIEW_* actions. |
| ProductActions.SuccessPayloads | frontend/src/actions/productActions.js:65-108 | The details thunk requests `/api/v1/product/<id>` and delivers `data.product`; the admin thunk delivers `data.products`. |
| ProductActions.MissingPriceRejects | frontend/src/actions/productActions.js:27-38 | Without a price the thunk throws before any call, and only REQUEST reaches the store. |
| ProductActions.Store.Perform | frontend/src/actions/productActions.js:23-113 | The store's log grows by exactly the thunk's dispatched actions, and the call log by its one call. |
| ProductActions.Store.Dispatch | frontend/src/actions/productActions.js:27 | A dispatch appends one action to the log. |
| ProtectedRoute.Protected | frontend/src/components/route/Protected.js:7-10 | It redirects exactly when not loading and not authenticated, and then always to "/login" with replace. |
| ProtectedRoute.LoadingRendersChildren | frontend/src/components/route/Protected.js:7-10 | While loading, the children render whether or not anyone is signed in. |
| ProtectedRoute.AuthenticatedRendersChildren | frontend/src/components/route/Protected.js:10 | A signed-in user always sees the children. |
| ProtectedRoute.UnknownStateRedirects | frontend/src/components/route/Protected.js:7-8 | Undefined flags are falsy, so the unknown initial state redirects. |
| Scenarios.BearerCarriesToken | backend/middleware/auth.js:48-49 | A Bearer header carries its token unchanged when the token has no space. |
| Scenarios.UserRoleRefusedOnAdminRoute | backend/middleware/auth.js:43-110 | A verified "user" token on an admin-only route is answered 403 "user is not authorized to perform this action" in production. |
| Scenarios.NoCredentialIsUnauthorized | backend/middleware/auth.js:56-58 | Without any credential, production answers 401 with the missing-token message, once the rejection reaches the error middleware. For `authenticate` that needs a wrapper or Express 5. |
| Scenarios.DuplicateEmailIsConflict | backend/middleware/errorHandler.js:105-108 | A duplicate e-mail is answered 409 "email '<value>' already exists.". |
| Scenarios.MalformedIdNamesPath | backend/middleware/errorHandler.js:102-104 | A malformed id is answered 404 naming the path `_id`, not the value. |
| Scenarios.MalformedUserIdIsNotFound | backend/controllers/authController.js:219-224 | `updateUser` with an id that is not an ObjectId changes nothing and rejects with the CastError on `_id`. Both error middlewares answer it 404 "Resource not found. Invalid: _id": the current one in production, the older one outside development. |
| Scenarios.LegacyAdminRouteRefusalIs404 | backend/routes/product.js:17-23 | On the admin product routes another role's refusal reaches the client as a 404 carrying the refusal message, outside development. |
| Scenarios.LegacyExpiredToken | backend/middlewares/errors.js:43-48 | An expired cookie token is answered 404 "JSON Web Token is expired. Please try again.". |
| Scenarios.LegacyDuplicateRegistration | backend/middlewares/errors.js:31-34 | A duplicate registration under the older handler is answered 404 "Duplicate email entered.". |

## Left out

- I/O is not modelled: the `console.error`/`console.log` logging (`logError` and the production log line), the network and the database driver. This does not change what the handlers answer.
- Library calls become parameters the model cannot look into: jsonwebtoken `sign`/`verify`, bcrypt `hash`/`compare`, `crypto` sha256 and `randomBytes`, `validator.isEmail`, the driver's ObjectId test, Cloudinary `upload`/`destroy`, and `sendEmail`.
- ErrorHandler.IsProduction: the source computes the mode once, when the module loads. The model takes NODE_ENV on each call, which is the same as long as the variable does not change while the server runs.
- `utils/errorHandler.js` (the `ErrorHandler` class of the older modules), `catchAsyncErrors`, `utils/sendEmail.js` and `constants/productConstants.js` are not part of this model. `ErrorHandler` is modelled after the copy kept in customErrors.js:225-232.
- Async handlers whose promise rejects are modelled as a returned rejection (`Reject`, `Rejected`). Whether Express then passes it to the error middleware depends on `catchAsyncErrors` and the Express version.
- A `next` call made by downstream middleware inside `authenticate`'s `try` is not modelled: the model treats `next()` as returning normally.
- The Mongoose `pre('save')` hook (User.js:48-53) is left out because it depends on bcrypt. The model hashes the password exactly when a handler sets it. As written, the hook has no `return` after `next()`. On a save that leaves the password unchanged it still calls `bcrypt.hash(this.password, 10)`. In the modelled handlers only the two saves of `forgotPassword` are of that kind. Their document was loaded without its password (`select: false`), so that call receives `undefined` and rejects. Whether the save then fails depends on how Mongoose runs the hook.
- AuthController.Forgot: assumes both saves of `forgotPassword` succeed. It does not capture a failure the save hook may raise on them.
- LegacyAuth.FindById: assumes the id decoded from a verified token is a well-formed ObjectId, as it is in every token the server signs. A malformed one would make `findById` reject with a CastError.
- `select: false` on the password is left out: queries return whole documents.
- Scenarios.NoCredentialIsUnauthorized: assumes the rejection of `authenticate` reaches the error middleware. `authenticate` (middleware/auth.js:43) is an async function that no wrapper catches. Under Express 4 its rejection never reaches `errorHandlerMiddleware`. It becomes an unhandled rejection, and the handler at server.js:45-53 closes the server and exits. The request gets no 401. The same holds for its refused-token throw, at auth.js:66-68.
- Responses follow Express 4, on which the app runs (its catch-all route is `app.all('*')`). Under Express 5, `res.status` itself would throw for a code outside 100..999, before recording it. The model does not capture that version.
- Which other paths Mongoose validates when saving an existing document is left out. The model validates the new password on reset and nothing on `forgotPassword` (`validateBeforeSave: false`).
- Jwt.CookieExpiry: treats COOKIE_LIFETIME as a whole number of days. The source multiplies the environment string, which JavaScript coerces to a number: a fractional value such as "0.5" gives part of a day, and a value that is unset or not numeric gives NaN. `new Date(NaN)` is an invalid date, and `res.cookie` then throws on every registration and login. The model does not capture the coercion or that failure.
- AuthController.Update: an update field given as `undefined` is treated as "not set". How Mongoose treats such fields depends on its version.
- `req.files` being undefined (a request with no upload at all) is outside the model of `registerUser` and `updateProfile`. The avatar upload is an input, and `updateProfile` receives an optional file.
- Body fields are strings. A `null` value, and an operator object such as `{"$gt": ""}` that `express.json()` lets through to `findOne` in `loginUser` and `forgotPassword`, are not modelled.
- Numbers in the product URL are the decimal text a template literal renders. The model does not format numbers.
- The request bodies and headers of the product thunks are not modelled.
- A `dispatch` that throws inside the thunks' `try` blocks is not modelled; dispatch is total.
- `getUserProfile`, `updatePassword`, `logout`, `allUsers`, `getUserDetails` and `deleteUser` in authController.js are outside the named core and are not modelled.
- The name of a typed error's class is not proved to determine its kind. That statement was too costly for the solver over fifteen string literals; `ClassName` is used only to build instances.
- Engine-generated text (stack traces, the full driver message of E11000) is a placeholder constant.
