/**
 * What a route handler produces in place of Express's `res` and `next`:
 * either one envelope (plus a cookie instruction), or `next(err)`.
 */
module HandlerTypes {
  import opened Common
  import opened ResponseFactory
  import opened AppErrors
  import UserMock

  /** The `data` object of the data responses that the handlers build. */
  datatype Data =
    | TokenData(token: string)
    | UsersData(users: seq<UserMock.User>)
    | UserData(user: UserMock.User)

  /** A response whose `data`, when present, is one of the handlers' objects. */
  type Response = HttpResponse<Data>

  /** The configuration the controllers read once from the secret manager. */
  datatype Config = Config(cookieKey: string, expireMinutes: int)

  /** `res.cookie(name, value, {maxAge, httpOnly})`, `res.clearCookie(name)`, or neither. */
  datatype CookieAction =
    | NoCookie
    | SetCookie(name: string, value: string, maxAge: int, httpOnly: bool)
    | ClearCookie(name: string)

  /** bcrypt's `hash` at the configured salt cost: never an empty string. */
  type Hasher = string -> Digest

  datatype HandlerOutcome = Reply(response: Response, cookie: CookieAction) | Forward(error: ApplicationError)

  /** The client's cookie jar after it receives a cookie instruction. */
  function ApplyCookie(jar: map<string, string>, action: CookieAction): map<string, string> {
    match action
    case NoCookie => jar
    case SetCookie(name, value, _, _) => jar[name := value]
    case ClearCookie(name) => jar - {name}
  }
}
