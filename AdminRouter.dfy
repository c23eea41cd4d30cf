/**
 * The middleware chain of `PUT /users/:id` on the admin router: the body
 * gates, then the email check, then the handler; any error raised on the way
 * ends in the error translator. The gate in front of the router (which
 * authenticates the caller) is not part of this chain.
 */
module AdminRouter {
  import opened Common
  import opened ResponseFactory
  import opened AppErrors
  import opened UserMock
  import opened HandlerTypes
  import opened ResultChecker
  import opened DatabaseMiddlewares
  import opened RequestErrorHandler
  import opened AdminController
  import opened AdminValidation

  const UpdateKeys: seq<string> := ["email", "password", "isAdmin"]

  /** The body of an admin update: its keys, and its string fields as the email check reads them. */
  function BodyKeys(email: Option<string>, password: Option<string>, isAdmin: Option<BodyValue>): (keys: set<string>)
    ensures "email" in keys <==> email.Some?
    ensures "password" in keys <==> password.Some?
    ensures "isAdmin" in keys <==> isAdmin.Some?
  {
    (if email.Some? then {"email"} else {}) + (if password.Some? then {"password"} else {})
    + (if isAdmin.Some? then {"isAdmin"} else {})
  }

  function StringFields(email: Option<string>, password: Option<string>): (fields: map<string, string>)
    ensures "email" in fields <==> email.Some?
    ensures email.Some? ==> fields["email"] == email.value
  {
    (if email.Some? then map["email" := email.value] else map[])
    + (if password.Some? then map["password" := password.value] else map[])
  }

  /** `errors` are the messages of the field validators that ran first; the
      `isAdmin` validator adds one whenever the field is not boolean-like. The
      handler receives the field through the corrected reading `IsAdminField`. */
  method UpdateRoute(users: DaoUserMock, id: int, email: Option<string>, password: Option<string>,
                     isAdmin: Option<BodyValue>, errors: seq<string>, hash: Hasher, now: string)
    returns (response: Response)
    requires users.Valid()
    requires isAdmin.Some? && !IsBoolean(isAdmin.value) ==> errors != []
    modifies users
    ensures users.Valid()
    ensures email.None? && password.None? && isAdmin.None? ==>
      response == HandleError(App(AtLeastOneError(UpdateKeys)), now) && unchanged(users)
    ensures (email.Some? || password.Some? || isAdmin.Some?) && errors != [] ==>
      && response == HandleError(App(BadRequest(ErrorDetails(InvalidBody, errors[0]), "Validation failed.")), now)
      && unchanged(users)
    ensures email.Some? && errors == [] && (exists k :: k in old(users.data) && old(users.data)[k].email == email.value) ==>
      response == HandleError(App(EmailTakenError(email.value)), now) && response.status == CONFLICT && unchanged(users)
    ensures (email.Some? || password.Some? || isAdmin.Some?) && errors == []
            && (email.None? || forall k :: k in old(users.data) ==> old(users.data)[k].email != email.value) ==>
      && (id !in old(users.data) ==> response == HandleError(App(UserNotFoundError(id)), now) && unchanged(users))
      && (id in old(users.data) ==>
            && response == SendResponse(Options(OK, "User successfully updated.", Plain), now)
            && users.keys == old(users.keys) && users.autoId == old(users.autoId)
            && AdminUpdated(old(users.data), users.data, id, email, password, IsAdminField(isAdmin), hash))
    ensures response.status == OK ==>
      && id in old(users.data)
      && errors == []
      && (email.Some? ==> forall k :: k in old(users.data) ==> old(users.data)[k].email != email.value)
  {
    var bodyKeys := BodyKeys(email, password, isAdmin);
    var gate := CheckBodyHasAtLeastOne(UpdateKeys, bodyKeys);
    if gate.Fail? {
      assert forall k :: k in bodyKeys ==> k !in UpdateKeys;
      return HandleError(App(gate.error), now);
    }
    gate := CheckValidationResult(errors);
    if gate.Fail? {
      return HandleError(App(gate.error), now);
    }
    gate := CheckEmailExists("email", StringFields(email, password), users);
    if gate.Fail? {
      return HandleError(App(gate.error), now);
    }
    var out := AdminUpdateUser(users, id, email, password, IsAdminField(isAdmin), hash, now);
    if out.Forward? {
      return HandleError(App(out.error), now);
    }
    response := out.response;
  }

  /** No self-exemption: an admin update that sets a user's email to the one
      that user already has is refused with 409, and nothing is written. */
  method SameEmailIsRefused(users: DaoUserMock, id: int, password: Option<string>, isAdmin: Option<BodyValue>,
                            hash: Hasher, now: string)
    returns (response: Response)
    requires users.Valid() && id in users.data
    requires isAdmin.Some? ==> IsBoolean(isAdmin.value)
    modifies users
    ensures response.status == CONFLICT && response.body.payload == WithError(ErrorDetails(UserExists,
      "Email address " + old(users.data)[id].email + " is already registered!"))
    ensures unchanged(users)
  {
    response := UpdateRoute(users, id, Some(users.data[id].email), password, isAdmin, [], hash, now);
  }
}
