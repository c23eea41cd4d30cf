/**
 * `checkEmailExists(emailKey)`: rejects a request whose body names an email
 * that some stored user already has. The body is modelled by its string fields.
 */
module DatabaseMiddlewares {
  import opened Common
  import opened ResponseFactory
  import opened AppErrors
  import opened UserMock

  function EmailTakenError(email: string): ApplicationError {
    Conflict(ErrorDetails(UserExists, "Email address " + email + " is already registered!"), "Email already registered.")
  }

  /** Reads the store and never writes it (no `modifies` clause). */
  method CheckEmailExists(emailKey: string, body: map<string, string>, users: DaoUserMock) returns (r: Gate)
    requires users.Valid()
    ensures emailKey !in body ==> r == Pass
    ensures emailKey in body ==>
      (r == Fail(EmailTakenError(body[emailKey])) <==> exists k :: k in users.data && users.data[k].email == body[emailKey])
    ensures emailKey in body ==>
      (r == Pass <==> forall k :: k in users.data ==> users.data[k].email != body[emailKey])
    ensures r.Fail? ==> r.error.ToResponse().status == 409 && r.error.ToResponse().error.code == UserExists
  {
    if emailKey in body {
      var email := body[emailKey];
      var found := users.FindByEmail(email);
      if found.Some? {
        return Fail(EmailTakenError(email));
      }
    }
    return Pass;
  }
}
