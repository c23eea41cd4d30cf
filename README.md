# authentication-api: request gating and account logic, in Dafny

This project models the request-handling core of the `authentication-api`
Express service. It also models the in-memory user and session-token stores
that the service's test suite uses in place of the database.

- **Access middleware** (`AccessController`). `isAuthenticated` takes the
  credential from the `Authorization` header, or from the session cookie when
  the header is absent. It checks the `Bearer ` shape and hands the rest to
  the token verifier. `isAdmin` looks the caller up and checks the admin flag.
  Each is a pure function. It returns either a rejection (status and `reason`)
  or `next` with the request context.
- **Handlers.**
  - `register` and `login` (`AccountController`);
  - `updateUser`, `deleteUser` and `logout` (`UserController`);
  - `getAllUsers`, `getUser`, `adminUpdateUser` and `adminDeleteUser` (`AdminController`).

  Each runs against the user store class. It yields one response envelope
  plus a cookie instruction, or it forwards an application error to `next(err)`.
- **Gates.** `checkEmailExists` (`DatabaseMiddlewares`), and
  `checkBodyHasAtLeastOne` and `checkValidationResult` (`ResultChecker`).
  Each ends in `next()` or `next(err)`. The admin update chain of the admin
  router (`AdminRouter.UpdateRoute`) composes these gates with its handler and
  the error translator. The `isAdmin` body field enters it as a JSON value
  (`AdminValidation.BodyValue`) that the `isBoolean()` validator has judged.
- **Errors and envelopes.**
  - The `ApplicationError` family (`AppErrors`) is a datatype. The class a
    value was built by is its `kind`, and each subclass fixes one status.
  - `handleError` (`RequestErrorHandler`) and `routeNotFound` (`RouteMiddlewares`).
  - `sendResponse` and its two variants (`ResponseFactory`).
- **Stores.**
  - `DaoUserMock` and `DaoUserTokenMock` are classes. Their fields are the
    `data` table, its key order `keys` (a JavaScript `Map` iterates in
    insertion order) and the `autoId` counter.
  - Each method states the whole new state. The stores keep a `Valid()`
    invariant: unique ids, every key below `autoId` and equal to its record's
    id (in the token store, that id may instead be absent after a selecting
    `findById` wiped it), and keys strictly increasing.
- **Secret manager** (`SecretManagerModule.SecretManager`). It is a class. The
  connector slot is chosen by `init`, and the secret map is rebuilt by
  `loadSecrets` with loops that mirror the source's.

The model makes these external parts parameters:

- bcrypt `hash` and `compare`;
- the JWT `sign` and `verify`;
- the clock: `now` is the ISO timestamp of an envelope, and `issuedAt` is the
  login time put in the token;
- the process environment `env`;
- the AWS connector's `getSecretValue` (`fetch`).

What the code does, as the model proves it:

- **Logging out revokes nothing.** `isAuthenticated` never consults the
  token store, and logout only clears the cookie. The same token sent in the
  header is still accepted (`UserController.LogoutRevokesNothing`).
- **`isAdmin` rejects a non-admin with 401** and a `{success, reason}` body.
  The test suite expects 403 and an `error.code` envelope, and a token row
  written at logout. Those tests come from another revision of the service,
  and the model follows the code.
- **Admin rights cannot be revoked through the store.** `update` writes
  `data.is_admin || user.is_admin`, so an `isAdmin: false` update leaves an
  administrator an administrator (`UserMock.PatchNeverRevokesAdmin`,
  `AdminController.AdminUpdateUser`). For the same reason an empty email or
  password is ignored.
- **The user store ignores column selections.** `getUser` and `getAllUsers`
  therefore answer full records, password included. The expectation at
  tests/app/Admin.test.ts:155-158 that `password` is absent would not hold
  against this store.
- **`updateUser` answers 200 even when the context's user no longer exists.**
  The store's `update` returns null and the handler does not look at it.
- **A boolean-like string can grant admin rights.** `isBoolean()` accepts the
  string "false", the handler passes it on, and the store's `||` keeps the
  truthy string; see "## Findings" (`AdminValidation.FalseStringPromotes`).
- **There is no self-exemption in the email check.** An admin update that
  sets a user's email to the one that user already has is refused with 409
  (`AdminRouter.SameEmailIsRefused`).

## Model

| member | source | states |
|---|---|---|
| AccessController.IsAuthenticated | src/controllers/AccessController.ts:20-56 | Every rejection is 401. "Authorization header missing!" exactly when neither a header nor the cookie is present. "Invalid token type!" exactly when the credential lacks the `Bearer ` prefix. "Invalid token!" exactly when the verifier refuses the stripped token. Conversely, whenever a credential is present, Bearer-shaped and accepted by the verifier, the answer is `next` with exactly the decoded claims and `authenticated` set. |
| AccessController.HeaderTakesPrecedence | src/controllers/AccessController.ts:21-42 | With a header present, the outcome does not depend on the cookies. A malformed header is refused even when a valid cookie is present. |
| AccessController.ShapeCheckPrecedesVerify | src/controllers/AccessController.ts:36-45 | A credential without the prefix gets the same outcome under any verifier: `verify` is not consulted. |
| AccessController.VerifyReceivesStrippedToken | src/controllers/AccessController.ts:44-49 | For the credential `"Bearer " + t`, the outcome depends on the verifier only through its answer on exactly `t`. |
| AccessController.IsAdmin | src/controllers/AccessController.ts:58-90 | 500 "Failed to fetch user!" iff the lookup throws. 404 "User not found." iff there is no user. 401 "User is not an admin!" iff the user is not an admin. `next` iff the user is an admin, with the context unchanged. |
| AccessController.IsAdminOnStore | src/controllers/AccessController.ts:62-79 | Against the in-memory store, `next` iff the context's id is stored with the admin flag set. A deleted user gets 404. |
| AccountController.LoginToken | src/controllers/AccountController.ts:65-68 | The login token has the `Bearer ` prefix, and stripping the prefix gives back exactly the signed string. |
| AccountController.LoginCookie | src/controllers/AccountController.ts:70-73 | The cookie is named by the configured key and holds the token itself. It is HTTP-only, with `maxAge` equal to 60000 times the expiry in minutes. |
| AccountController.Register | src/controllers/AccountController.ts:16-43 | For an email already stored: a 409 `USER_EXISTS` error is forwarded and the store is unchanged. Otherwise exactly one user is added, with the next id, the hash of the password and no admin flag, and the reply is 200 "Registration successful!" with no cookie. |
| AccountController.Login | src/controllers/AccountController.ts:45-85 | Writes nothing. An unknown email and a wrong password forward the same 401 `INVALID_CREDENTIALS` error. On success the token is `"Bearer " + sign({id, timestamp})` for the first user with that email; it is answered as `data.token` with status 200, and the same token is set as the cookie. A success implies a stored user whose password matches. |
| AccountController.LoginTokenAuthenticates | src/controllers/AccountController.ts:65-73 | Round trip with `isAuthenticated`: the token login hands out, sent as the header or read from the cookie login set, reaches `verify` as exactly the signed string. The outcome is that verifier's answer, or 401 "Invalid token!". |
| UserController.UpdateUser | src/controllers/UserController.ts:17-40 | Only the context user's record changes. Its email is replaced only by a provided non-empty email, and its password only by the hash of a provided password. Its admin flag is never changed. Every other record, the key order and `autoId` stay as they were. The reply is always 200 "Your user has been successfully updated!". |
| UserController.DeleteUser | src/controllers/UserController.ts:42-57 | Exactly the context's user is removed; the remaining key order and the id counter are kept. Afterwards `findById` answers null and an admin check for the same claims answers 404. The cookie is cleared and the reply is 200 "Your user has been successfully deleted.". |
| UserController.Logout | src/controllers/UserController.ts:59-66 | No store is read or written. The cookie is cleared and the reply is exactly the plain 200 envelope "You have logged off.". |
| UserController.LogoutRevokesNothing | src/controllers/UserController.ts:59-66 | After logout the cookie alone yields "Authorization header missing!". A header token gets exactly the outcome it got before. |
| AdminController.GetAllUsers | src/controllers/AdminController.ts:22-42 | Writes nothing. The reply is exactly the data envelope 200 "Users successfully fetched." around the listed users, which hold every stored user exactly once, in increasing id order. |
| AdminController.GetUser | src/controllers/AdminController.ts:44-71 | Writes nothing. A missing id forwards 404 `USER_NOT_FOUND` "User not found." with details naming the id. Otherwise it replies 200 "User successfully fetched." with the stored record. |
| AdminController.AdminUpdateUser | src/controllers/AdminController.ts:73-109 | A missing id forwards 404 and changes nothing. Otherwise only that user is patched. The email is given verbatim (and ignored when empty). The password is the hash when present. The admin flag becomes `isAdmin == true` or the old flag. The reply is 200 "User successfully updated.". |
| AdminController.AdminDeleteUser | src/controllers/AdminController.ts:111-133 | A missing id forwards 404 "User not found" (its own wording) and changes nothing. Otherwise exactly that user is removed, the remaining key order and the id counter are kept, and the reply is 200 "User successfully deleted.". |
| AdminRouter.UpdateRoute | src/routers/AdminRouter.ts:11 | The chain runs body check, then validation result, then email check, then handler, then error translator. An empty body gets the at-least-one 400. Validation errors get a 400 with the first message, and nothing is written. A stored email gets 409 and nothing is written. When every gate passes, a missing id gets the handler's 404 and nothing is written; a stored id gets 200 "User successfully updated." with the record patched as `adminUpdateUser` patches it, the admin flag read through `IsAdminField`. A 200 implies the id existed, there were no validation errors and the email was free. |
| AdminRouter.SameEmailIsRefused | src/middlewares/DatabaseMiddlewares.ts:11-24 | Setting a user's email to its own current email is refused with 409 `USER_EXISTS`, and the store is unchanged. |
| AdminValidation.Spelled | src/validation/AdminValidation.ts:13 | A value `isBoolean()` accepts spells true exactly for `true`, "true", "1" and 1. |
| AdminValidation.IsAdminField | src/controllers/AdminController.ts:14 | The corrected reading of the field: present iff the body has it, and then the boolean the accepted value spells. |
| AdminValidation.IntendedNeverPromotesOnFalse | src/controllers/AdminController.ts:94 | Under the corrected reading, an accepted value spelling false leaves the stored flag as it was. |
| AdminValidation.FalseStringPromotes | tests/mocks/DaoUserMock.ts:80 | The string "false" passes `isBoolean()`, yet as written it makes a non-admin's flag truthy; the corrected reading gives `false`. |
| AdminValidation.AsWrittenDiffersOnlyOnFalseStrings | tests/mocks/DaoUserMock.ts:80 | Over every accepted value, the code as written and the corrected reading disagree exactly for a non-admin user and the strings "false" and "0". |
| DatabaseMiddlewares.CheckEmailExists | src/middlewares/DatabaseMiddlewares.ts:6-25 | Writes nothing. An absent email field passes. A present email fails with 409 `USER_EXISTS` "Email already registered." iff some stored user has it, and passes iff none does. |
| ResultChecker.AnyListed | src/validation/ResultChecker.ts:8 | True iff some listed key is a key of the body. |
| ResultChecker.CheckBodyHasAtLeastOne | src/validation/ResultChecker.ts:6-18 | Passes iff some body key is in the list. Otherwise fails 400 `INVALID_BODY` "Validation failed." with details listing the keys comma-separated. |
| ResultChecker.AtLeastOneIgnoresUnlisted | src/validation/ResultChecker.ts:8 | An empty body fails. Adding keys outside the list never changes the outcome. |
| ResultChecker.CheckValidationResult | src/validation/ResultChecker.ts:20-31 | Passes iff there are no validation errors. Otherwise fails 400 `INVALID_BODY` "Validation failed." with the first error's message as details. |
| AppErrors.NewApplicationError | src/errors/ApplicationError.ts:12-24 | The `Error` message is the details. The stored response, which `toResponse` returns, carries the given status, message and error object verbatim. |
| AppErrors.NotFound | src/errors/ApplicationError.ts:32-39 | Status 404, the given message, and code and details preserved. |
| AppErrors.Forbidden | src/errors/ApplicationError.ts:46-53 | Status 403, the given message, and code and details preserved. |
| AppErrors.Unauthorized | src/errors/ApplicationError.ts:60-67 | Status 401, the given message, and code and details preserved. |
| AppErrors.BadRequest | src/errors/ApplicationError.ts:74-81 | Status 400, the given message, and code and details preserved. |
| AppErrors.Conflict | src/errors/ApplicationError.ts:88-95 | Status 409, the given message, and code and details preserved. |
| AppErrors.SubclassesFixStatus | src/errors/ApplicationError.ts:32-95 | Every subclass keeps message, code and details. Distinct subclasses fix distinct statuses. |
| RequestErrorHandler.HandleError | src/errors/RequestErrorHandler.ts:7-23 | An application error is sent as its `toResponse()`. Any other error is sent as 500 "Unknown error" with `UNKNOWN_ERROR` and "An unknown error has occurred.". |
| RequestErrorHandler.UnknownErrorsIndistinguishable | src/errors/RequestErrorHandler.ts:15-22 | Two non-application errors give the same response, whatever their names and messages, so no raw message reaches the client. |
| RequestErrorHandler.HandleSubclassError | src/errors/RequestErrorHandler.ts:10-13 | An error built by a subclass answers with that subclass's status. The message, code and details appear verbatim in the body. |
| ResponseFactory.SendResponse | src/controllers/ResponseFactory.ts:21-27 | The HTTP status is `options.status`. The body is the options unchanged plus the timestamp `now`. |
| ResponseFactory.SendDataResponse | src/controllers/ResponseFactory.ts:29-31 | Delegates to `sendResponse`. The data is preserved, and the body status equals the HTTP status. |
| ResponseFactory.SendErrorResponse | src/controllers/ResponseFactory.ts:33-35 | Delegates to `sendResponse`. The error object is preserved, and the body status equals the HTTP status. |
| ResponseFactory.SendResponseInjective | src/controllers/ResponseFactory.ts:21-27 | Two envelopes sent at the same instant are equal iff their options are. |
| RouteMiddlewares.RouteNotFound | src/middlewares/RouteMiddlewares.ts:6-15 | Status 404 through the error envelope, message "Route not found.", code `ROUTE_NOT_FOUND`, stamped `now`; the details are exactly "The route " + path + " does not exist.". |
| RouteMiddlewares.RouteNotFoundNamesPath | src/middlewares/RouteMiddlewares.ts:12 | The request path can be read back from the details, between the fixed prefix and suffix. |
| UserMock.PatchNeverRevokesAdmin | tests/mocks/DaoUserMock.ts:80 | An update never turns an administrator into a non-administrator. |
| UserMock.PatchFields | tests/mocks/DaoUserMock.ts:78-80 | The id is kept. A missing or empty email keeps the old email, and a non-empty one replaces it. The password behaves the same way: missing or empty keeps the old one, non-empty replaces it. The admin flag changes only on `true`. |
| UserMock.FirstWithEmailSpec | tests/mocks/DaoUserMock.ts:44-48 | None iff no row has the email. Otherwise the answer is the row at the first index with that email. |
| UserMock.DaoUserMock.constructor | tests/mocks/DaoUserMock.ts:25-31 | A new store is empty, with `autoId` 1, and satisfies the invariant. |
| UserMock.DaoUserMock.FindById | tests/mocks/DaoUserMock.ts:33-40 | The stored record iff the id is stored, otherwise null. The selection is ignored. |
| UserMock.DaoUserMock.FindByEmail | tests/mocks/DaoUserMock.ts:42-51 | Writes nothing. Answers the first record in insertion order with that email. Null iff no stored record has it. |
| UserMock.DaoUserMock.FindMany | tests/mocks/DaoUserMock.ts:53-55 | Every stored record exactly once, in insertion (that is, id) order. |
| UserMock.DaoUserMock.Create | tests/mocks/DaoUserMock.ts:57-69 | The new record gets the id `autoId`, which was not in use, and the admin flag only when `is_admin` is true. Exactly one record is added, it goes last in key order, `autoId` grows by one, and the invariant is kept. |
| UserMock.DaoUserMock.Update | tests/mocks/DaoUserMock.ts:71-85 | A missing id answers null and changes nothing. Otherwise that record is replaced by its patch, which is returned, and nothing else changes. |
| UserMock.DaoUserMock.Delete | tests/mocks/DaoUserMock.ts:87-97 | A missing id answers null and changes nothing. Otherwise exactly that key is removed; the removed record is returned and the rest of the key order is kept. The id counter never changes. |
| UserMock.DaoUserMock.Clear | tests/mocks/DaoUserMock.ts:99-102 | The store is empty again, with `autoId` 1. |
| UserTokenMock.AllowedKeys | tests/mocks/DaoUserTokenMock.ts:36 | Over the select options' entries in `Object.entries` order, the allowed list holds a key iff some entry pairs that key with `true` (strictly `true`: any other value drops it), and it is no longer than the entry list. |
| UserTokenMock.WipeAllFields | tests/mocks/DaoUserTokenMock.ts:37-41 | After the loop over a record's own keys, exactly the selected fields remain and the others are undefined. |
| UserTokenMock.PatchExpiry | tests/mocks/DaoUserTokenMock.ts:82-84 | A provided expiry always applies, and the id is kept. |
| UserTokenMock.FirstWithTokenSpec | tests/mocks/DaoUserTokenMock.ts:48-52 | None iff no row has the token. Otherwise the answer is the row at the first index with that token. |
| UserTokenMock.DaoUserTokenMock.constructor | tests/mocks/DaoUserTokenMock.ts:24-27 | A new store is empty, with `autoId` 1. |
| UserTokenMock.DaoUserTokenMock.FindById | tests/mocks/DaoUserTokenMock.ts:29-45 | Null for a missing id. Without a selection the stored record is returned unchanged. With one, the stored record itself is overwritten by its selected fields (those named in the allowed-key list) and then returned. |
| UserTokenMock.DaoUserTokenMock.FindByToken | tests/mocks/DaoUserTokenMock.ts:47-55 | Writes nothing. Answers the first row in insertion order with that token. Null iff no row has it. |
| UserTokenMock.DaoUserTokenMock.FindMany | tests/mocks/DaoUserTokenMock.ts:57-59 | Every stored row once, in insertion order. |
| UserTokenMock.DaoUserTokenMock.Create | tests/mocks/DaoUserTokenMock.ts:61-73 | The new row gets the unused id `autoId` and the given fields. It is added last and `autoId` grows by one. |
| UserTokenMock.DaoUserTokenMock.Update | tests/mocks/DaoUserTokenMock.ts:75-89 | A missing id answers null and changes nothing. Otherwise that row is replaced by its patch: a truthy user id or token replaces the old one, and a provided expiry always does. |
| UserTokenMock.DaoUserTokenMock.Delete | tests/mocks/DaoUserTokenMock.ts:91-101 | A missing id answers null and changes nothing. Otherwise exactly that key is removed and its row returned. |
| UserTokenMock.DaoUserTokenMock.Clear | tests/mocks/DaoUserTokenMock.ts:103-106 | The store is empty again, with `autoId` 1. |
| SecretManagerModule.MergeKeys | src/secrets/SecretManager.ts:37-40 | After merging the named secrets, a key is present iff some named secret holds it. |
| SecretManagerModule.MergeLaterWins | src/secrets/SecretManager.ts:39 | For a key held by several secrets, the value of the last one in the list wins. |
| SecretManagerModule.SecretManager.constructor | src/secrets/SecretManager.ts:10-12 | A new manager has no connector assigned yet and no secret map. |
| SecretManagerModule.SecretManager.Init | src/secrets/SecretManager.ts:14-22 | Outside production the connector is null, whatever the name. In production "AWS" selects the AWS connector. Any other name throws "Invalid secrets connector: <name>" (`undefined` when absent) and leaves the connector as it was. |
| SecretManagerModule.SecretManager.LoadSecrets | src/secrets/SecretManager.ts:24-45 | The map is always reset, and `getSecrets` then answers the new map. An undefined list leaves it empty. With a null connector it becomes exactly the environment, and the list is ignored even when empty. With the AWS connector it is the in-order merge of the named secrets. With `init` never called, a non-empty list throws with the map empty, and an empty list does not throw. |
| SecretManagerModule.SecretManager.GetSecrets | src/secrets/SecretManager.ts:43-45 | Hands out the stored secret map itself, not a copy; `LoadSecrets` states its outcome through it. |

## Findings

| source | as written | input that shows it | evidently intended | confidence | as-written member | corrected member |
|---|---|---|---|---|---|---|
| src/validation/AdminValidation.ts:13 | `isBoolean()` accepts "false" and "0"; the handler (src/controllers/AdminController.ts:94) passes the string on and the store (tests/mocks/DaoUserMock.ts:80) keeps `is_admin \|\| old`, a truthy string | `PUT /admin/users/5` with body `{"isAdmin": "false"}` for a non-admin user 5 | the flag becomes the boolean the accepted value spells, so "false" keeps user 5 a non-admin | not executed; `isBoolean()` behaviour as its library documents it | AdminValidation.FalseStringPromotes | AdminValidation.IsAdminField |

## Left out

- **Prisma-backed stores.** `src/database/daos/*`, `src/database/database.ts` and the Prisma `findByToken` ordering by latest expiry are not part of this model. The handlers run against the in-memory user store.
- **Crypto and the clock.** bcrypt, jsonwebtoken (`CipherManager`, `JWTManager`) and the clock are parameters. The random bcrypt salt is not modelled: `hash` is one fixed function. Token expiry is not modelled.
- **Other external systems.** The AWS connector, its `JSON.parse` of the secret string and the process environment are parameters. A connector failure is not modelled.
- **Failures.** Exceptions thrown by bcrypt, by the AWS call, or by the Prisma delegates are not modelled; the in-memory stores never throw. The `next(err)` paths of the handlers are therefore only the application errors they raise themselves.
- **Id parsing.** Route ids arrive already parsed: `parseInt` yielding `NaN` is not modelled.
- **Number width.** Ids and `autoId` are JavaScript numbers (doubles); the model's `int` is unbounded. For |id| >= 10^21, `${id}` renders in exponent form ("1e+21"), so the details texts of `AdminController.GetUser`, `AdminController.AdminUpdateUser` and `AdminController.AdminDeleteUser` hold for smaller ids only. `autoId++` stops growing at 2^53, after which `create` would overwrite the record with that id; the stores' unique-id invariant holds only below that bound.
- AdminController.AdminUpdateUser: takes `isAdmin` at its declared TypeScript type `boolean`. The route supplies it through the corrected reading `AdminValidation.IsAdminField`; what the code as written stores for a boolean-like string is in "## Findings". JSON values other than booleans, strings and integers (null, fractions, arrays, objects) are not modelled.
- **Request validation.** The express-validator rule arrays and `isEmail` are not modelled. Their outcome enters as the list of error messages that `checkValidationResult` reads.
- **Express and I/O.** The Express `req`/`res` objects, async/await, the order in which middleware effects are sent, and logging (`Logger`, the `console.log` calls in the stores and handlers) are not modelled.
- **Server wiring.** Routers other than the admin update chain, `MainApp` and the swagger docs are not modelled.
- **Error constants.** The string values of `ErrorConstants` are not part of this model. The codes form the datatype `ResponseFactory.ErrorCode`.
- **Record aliasing.** The stores hand out references to their stored records, so a later `update` or token `findById` also changes records handed out earlier. The model returns values, so this aliasing is not captured. The change to the stored record itself is modelled.
- **Secret values.** Secret values are strings: the `undefined` values the map type admits never arise from the environment or the connector as modelled. The map's insertion order and the un-awaited `loadSecrets` call of the test setup are not modelled.
- **`getSecret`.** Several callers use a `getSecret` that this revision of `SecretManager` does not define. The model does not invent it; `Config` holds the values the controllers read (cookie key, expiry minutes).
- **Select option values.** `UserTokenMock.AllowedKeys` takes the entries with boolean values; a non-boolean value, which the strict `=== true` test also rejects, stands as `false`. Duplicate keys, which an object cannot have, are admitted and harmless.
