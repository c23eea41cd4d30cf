/**
 * The signed-in user's own account: update, delete, logout. The user is the
 * one the access middleware put in the context; the store is the user mock.
 */
module UserController {
  import opened Common
  import opened ResponseFactory
  import opened UserMock
  import opened AccessController
  import opened HandlerTypes

  /** `updateUser`: each provided field goes into the update parameters, the
      password as its hash; the stored record of the context's id is patched. */
  method UpdateUser(users: DaoUserMock, context: AuthContext, email: Option<string>, password: Option<string>,
                    hash: Hasher, now: string)
    returns (out: HandlerOutcome)
    requires users.Valid()
    modifies users
    ensures users.Valid()
    ensures users.keys == old(users.keys) && users.autoId == old(users.autoId)
    ensures users.data.Keys == old(users.data).Keys
    ensures forall k :: k in old(users.data) && k != context.user.id ==> users.data[k] == old(users.data)[k]
    ensures var id := context.user.id;
      id in old(users.data) ==>
        && users.data[id].id == id
        && users.data[id].email == (if email.Some? && email.value != "" then email.value else old(users.data)[id].email)
        && users.data[id].password == (if password.Some? then hash(password.value) else old(users.data)[id].password)
        && users.data[id].isAdmin == old(users.data)[id].isAdmin
    ensures out == Reply(SendResponse(Options(OK, "Your user has been successfully updated!", Plain), now), NoCookie)
  {
    var id := context.user.id;
    var updateParams := UserWritable(None, None, None);
    if email.Some? {
      updateParams := updateParams.(email := email);
    }
    if password.Some? {
      var digest := hash(password.value);
      updateParams := updateParams.(password := Some(digest));
    }
    var _ := users.Update(id, updateParams);
    out := Reply(SendResponse(Options(OK, "Your user has been successfully updated!", Plain), now), NoCookie);
  }

  /** `deleteUser`: removes the context's user and clears the session cookie.
      A later admin check for the same claims finds no user. */
  method DeleteUser(users: DaoUserMock, context: AuthContext, cfg: Config, now: string)
    returns (out: HandlerOutcome)
    requires users.Valid()
    modifies users
    ensures users.Valid()
    ensures users.data == old(users.data) - {context.user.id}
    ensures users.keys == Without(old(users.keys), context.user.id) && users.autoId == old(users.autoId)
    ensures users.FindById(context.user.id, None) == None
    ensures IsAdmin(context, StoreLookup(users.data)) == Reject(NOT_FOUND, "User not found.")
    ensures out == Reply(SendResponse(Options(OK, "Your user has been successfully deleted.", Plain), now),
                         ClearCookie(cfg.cookieKey))
  {
    var _ := users.Delete(context.user.id);
    out := Reply(SendResponse(Options(OK, "Your user has been successfully deleted.", Plain), now),
                 ClearCookie(cfg.cookieKey));
  }

  /** `logout` takes no store: it clears the cookie and answers. */
  function Logout(cfg: Config, now: string): (out: HandlerOutcome)
    ensures out.Reply? && out.cookie == ClearCookie(cfg.cookieKey)
    ensures out.response == SendResponse(Options(OK, "You have logged off.", Plain), now)
  {
    Reply(SendResponse(Options(OK, "You have logged off.", Plain), now), ClearCookie(cfg.cookieKey))
  }

  /** Logout revokes nothing: after it, a request relying on the cookie alone
      is refused as carrying no credential, but the same token sent in the
      header is accepted exactly as before. */
  lemma LogoutRevokesNothing(cfg: Config, now: string, jar: map<string, string>, header: string, verify: Verifier)
    ensures var after := ApplyCookie(jar, Logout(cfg, now).cookie);
      && IsAuthenticated(AuthRequest(None, after), cfg.cookieKey, verify) == Reject(UNAUTHORIZED, "Authorization header missing!")
      && IsAuthenticated(AuthRequest(Some(header), after), cfg.cookieKey, verify)
         == IsAuthenticated(AuthRequest(Some(header), jar), cfg.cookieKey, verify)
  {}
}
