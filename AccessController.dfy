/**
 * The two gating middlewares. Each ends in exactly one outcome: a rejection
 * written as `{success: false, reason}` with a status, or a call to `next`
 * carrying the per-request context (`res.locals`). Token verification and
 * the user lookup are parameters.
 */
module AccessController {
  import opened Common
  import opened UserMock

  /** The decoded token payload: the user id and the login timestamp. */
  datatype Claims = Claims(id: int, timestamp: int)

  /** `res.locals`: the decoded claims and the `authenticated` flag. */
  datatype AuthContext = AuthContext(user: Claims, authenticated: bool)

  /** Either a response was written, or `next()` was called; never both. */
  datatype AccessOutcome = Reject(status: int, reason: string) | Next(context: AuthContext)

  /** What the middleware reads of the request. */
  datatype AuthRequest = AuthRequest(authorization: Option<string>, cookies: map<string, string>)

  /** `JWTManager.verify`: the claims, or `None` when it throws. */
  type Verifier = string -> Option<Claims>

  /** The result of `daoUser.findById`: it throws, or answers null or a record. */
  datatype Lookup = LookupFailed | Absent | Present(user: User)

  const BearerPrefix: string := "Bearer "

  /** The header when it is defined, otherwise the cookie named `cookieKey`. */
  function Credential(req: AuthRequest, cookieKey: string): Option<string> {
    if req.authorization.Some? then req.authorization
    else if cookieKey in req.cookies then Some(req.cookies[cookieKey])
    else None
  }

  /** The token of a `Bearer ` credential: what `substring(7)` hands to `verify`. */
  function BearerToken(credential: string): Option<string> {
    if StartsWith(credential, BearerPrefix) then Some(credential[|BearerPrefix|..]) else None
  }

  function IsAuthenticated(req: AuthRequest, cookieKey: string, verify: Verifier): (r: AccessOutcome)
    ensures r.Reject? ==> r.status == 401
    ensures r == Reject(401, "Authorization header missing!") <==> Credential(req, cookieKey).None?
    ensures r == Reject(401, "Invalid token type!") <==>
      Credential(req, cookieKey).Some? && BearerToken(Credential(req, cookieKey).value).None?
    ensures r == Reject(401, "Invalid token!") <==>
      Credential(req, cookieKey).Some? && BearerToken(Credential(req, cookieKey).value).Some?
      && verify(BearerToken(Credential(req, cookieKey).value).value).None?
    ensures r.Next? ==>
      && Credential(req, cookieKey).Some?
      && BearerToken(Credential(req, cookieKey).value).Some?
      && verify(BearerToken(Credential(req, cookieKey).value).value) == Some(r.context.user)
      && r.context.authenticated
    ensures Credential(req, cookieKey).Some? && BearerToken(Credential(req, cookieKey).value).Some?
            && verify(BearerToken(Credential(req, cookieKey).value).value).Some? ==>
      r == Next(AuthContext(verify(BearerToken(Credential(req, cookieKey).value).value).value, true))
  {
    match Credential(req, cookieKey)
    case None => Reject(UNAUTHORIZED, "Authorization header missing!")
    case Some(credential) =>
      match BearerToken(credential)
      case None => Reject(UNAUTHORIZED, "Invalid token type!")
      case Some(token) =>
        match verify(token)
        case None => Reject(UNAUTHORIZED, "Invalid token!")
        case Some(claims) => Next(AuthContext(claims, true))
  }

  /** A defined header wins: the cookie is never consulted, so a malformed
      header is not rescued by a valid cookie. */
  lemma HeaderTakesPrecedence(header: string, cookies1: map<string, string>, cookies2: map<string, string>,
                              cookieKey: string, verify: Verifier)
    ensures IsAuthenticated(AuthRequest(Some(header), cookies1), cookieKey, verify)
         == IsAuthenticated(AuthRequest(Some(header), cookies2), cookieKey, verify)
    ensures BearerToken(header).None? ==>
      IsAuthenticated(AuthRequest(Some(header), cookies1), cookieKey, verify) == Reject(401, "Invalid token type!")
  {}

  /** A credential without the `Bearer ` prefix is refused before `verify` is
      consulted: the outcome is the same whatever the verifier. */
  lemma ShapeCheckPrecedesVerify(req: AuthRequest, cookieKey: string, verify1: Verifier, verify2: Verifier)
    requires Credential(req, cookieKey).Some? && BearerToken(Credential(req, cookieKey).value).None?
    ensures IsAuthenticated(req, cookieKey, verify1) == IsAuthenticated(req, cookieKey, verify2)
  {}

  /** The outcome depends on the verifier only through the one string it hands it. */
  lemma VerifyReceivesStrippedToken(req: AuthRequest, cookieKey: string, verify1: Verifier, verify2: Verifier, token: string)
    requires Credential(req, cookieKey) == Some(BearerPrefix + token)
    requires verify1(token) == verify2(token)
    ensures IsAuthenticated(req, cookieKey, verify1) == IsAuthenticated(req, cookieKey, verify2)
  {}

  const FetchFailed: string := "Failed to fetch user!"

  /** `findById` is the store lookup; the id looked up is the context's. */
  function IsAdmin(context: AuthContext, findById: int -> Lookup): (r: AccessOutcome)
    ensures findById(context.user.id) == LookupFailed <==> r == Reject(500, FetchFailed)
    ensures findById(context.user.id) == Absent <==> r == Reject(404, "User not found.")
    ensures (findById(context.user.id).Present? && !findById(context.user.id).user.isAdmin)
            <==> r == Reject(401, "User is not an admin!")
    ensures r.Next? <==> findById(context.user.id).Present? && findById(context.user.id).user.isAdmin
    ensures r.Next? ==> r.context == context
  {
    match findById(context.user.id)
    case LookupFailed => Reject(INTERNAL_SERVER_ERROR, FetchFailed)
    case Absent => Reject(NOT_FOUND, "User not found.")
    case Present(user) =>
      if !user.isAdmin then Reject(UNAUTHORIZED, "User is not an admin!") else Next(context)
  }

  /** The lookup the in-memory store answers: it never fails. */
  function StoreLookup(data: map<int, User>): int -> Lookup {
    id => if id in data then Present(data[id]) else Absent
  }

  /** Against the in-memory store, only a stored admin gets through; a
      deleted user's still-valid token yields 404. */
  lemma IsAdminOnStore(context: AuthContext, data: map<int, User>)
    ensures IsAdmin(context, StoreLookup(data)).Next? <==>
      context.user.id in data && data[context.user.id].isAdmin
    ensures context.user.id !in data ==> IsAdmin(context, StoreLookup(data)) == Reject(404, "User not found.")
  {}
}
