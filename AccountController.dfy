/**
 * Registration and login against the user store. bcrypt and the JWT signer
 * are parameters: `hash` (salt cost fixed by configuration), `compare`, `sign`.
 */
module AccountController {
  import opened Common
  import opened ResponseFactory
  import opened AppErrors
  import opened UserMock
  import opened AccessController
  import opened HandlerTypes

  type Comparer = (string, string) -> bool
  type Signer = Claims -> string

  function UserExistsError(email: string): ApplicationError {
    Conflict(ErrorDetails(UserExists, "User with email " + email + " already exists."), "User already exists!")
  }

  /** One error for both an unknown email and a wrong password. */
  function InvalidCredentialsError(): ApplicationError {
    Unauthorized(ErrorDetails(InvalidCredentials, "An user with the provided email or password does not exist."),
                 "Authentication failed.")
  }

  /** `'Bearer ' + sign(...)`. */
  function LoginToken(signed: string): (token: string)
    ensures BearerToken(token) == Some(signed)
    ensures StartsWith(token, BearerPrefix)
  {
    var token := BearerPrefix + signed;
    assert token[..|BearerPrefix|] == BearerPrefix;
    assert token[|BearerPrefix|..] == signed;
    token
  }

  /** The session cookie login sets: the token itself, HTTP-only, living
      `JWT_EXPIRE_MINUTES` minutes expressed in milliseconds. */
  function LoginCookie(cfg: Config, token: string): (c: CookieAction)
    ensures c.SetCookie? && c.name == cfg.cookieKey && c.value == token
    ensures c.maxAge == 60000 * cfg.expireMinutes && c.httpOnly
  {
    SetCookie(cfg.cookieKey, token, 1000 * 60 * cfg.expireMinutes, true)
  }

  method Register(users: DaoUserMock, email: string, password: string, hash: Hasher, now: string)
    returns (out: HandlerOutcome)
    requires users.Valid()
    modifies users
    ensures users.Valid()
    ensures (exists k :: k in old(users.data) && old(users.data)[k].email == email) ==>
      out == Forward(UserExistsError(email)) && unchanged(users)
    ensures (forall k :: k in old(users.data) ==> old(users.data)[k].email != email) ==>
      && var u := User(old(users.autoId), email, hash(password), false);
      && u.id !in old(users.data)
      && users.data == old(users.data)[u.id := u]
      && |users.data| == |old(users.data)| + 1
      && users.keys == old(users.keys) + [u.id]
      && users.autoId == old(users.autoId) + 1
      && out == Reply(SendResponse(Options(OK, "Registration successful!", Plain), now), NoCookie)
  {
    var existing := users.FindByEmail(email);
    if existing.Some? {
      return Forward(UserExistsError(email));
    }
    var passwordHash := hash(password);
    var _ := users.Create(UserCreate(email, passwordHash, Some(false)));
    out := Reply(SendResponse(Options(OK, "Registration successful!", Plain), now), NoCookie);
  }

  /** Reads the store and never writes it (no `modifies` clause). `issuedAt`
      is the clock reading put in the token's `timestamp` claim. */
  method Login(users: DaoUserMock, email: string, password: string, compare: Comparer, sign: Signer,
               cfg: Config, issuedAt: int, now: string)
    returns (out: HandlerOutcome)
    requires users.Valid()
    ensures var found := FirstWithEmail(users.Rows(), email);
      && (found.None? ==> out == Forward(InvalidCredentialsError()))
      && (found.Some? && !compare(password, found.value.password) ==> out == Forward(InvalidCredentialsError()))
      && (found.Some? && compare(password, found.value.password) ==>
            var token := LoginToken(sign(Claims(found.value.id, issuedAt)));
            out == Reply(SendDataResponse(OK, "Authentication successful!", TokenData(token), now),
                         LoginCookie(cfg, token)))
    ensures out.Reply? ==>
      exists k :: k in users.data && users.data[k].email == email && compare(password, users.data[k].password)
  {
    var user := users.FindByEmail(email);
    if user.None? {
      return Forward(InvalidCredentialsError());
    }
    var passwordMatches := compare(password, user.value.password);
    if !passwordMatches {
      return Forward(InvalidCredentialsError());
    }
    var token := LoginToken(sign(Claims(user.value.id, issuedAt)));
    out := Reply(SendDataResponse(OK, "Authentication successful!", TokenData(token), now), LoginCookie(cfg, token));
  }

  /** Round trip: the token login hands out passes the access middleware's
      shape check, in the header or as the cookie login set, and `verify`
      receives exactly the signed string. */
  lemma LoginTokenAuthenticates(signed: string, cfg: Config, jar: map<string, string>,
                                cookies: map<string, string>, verify: Verifier)
    ensures var expected := if verify(signed).Some? then Next(AuthContext(verify(signed).value, true))
                            else Reject(UNAUTHORIZED, "Invalid token!");
      && IsAuthenticated(AuthRequest(Some(LoginToken(signed)), cookies), cfg.cookieKey, verify) == expected
      && IsAuthenticated(AuthRequest(None, ApplyCookie(jar, LoginCookie(cfg, LoginToken(signed)))), cfg.cookieKey, verify)
         == expected
  {}
}
