/**
 * The administrator's view of the user table: list, fetch, update and delete
 * any user by id. The id is the already-parsed route parameter.
 */
module AdminController {
  import opened Common
  import opened ResponseFactory
  import opened AppErrors
  import opened UserMock
  import opened HandlerTypes

  /** The columns `getAllUsers` and `getUser` ask for. */
  const PublicColumns: set<string> := {"id", "email", "is_admin"}

  function UserNotFoundError(id: int): ApplicationError {
    NotFound(ErrorDetails(UserNotFound, "User with ID " + IntToString(id) + " was not found in the database."),
             "User not found.")
  }

  /** `adminDeleteUser` words its 404 differently (and without a final period). */
  function DeleteNotFoundError(id: int): ApplicationError {
    NotFound(ErrorDetails(UserNotFound, "User with ID " + IntToString(id) + " has not been found."), "User not found")
  }

  /** Reads the store only. Every stored user is listed once, in id order;
      the mock ignores the column selection. */
  method GetAllUsers(users: DaoUserMock, now: string) returns (out: HandlerOutcome)
    requires users.Valid()
    ensures out.Reply? && out.cookie == NoCookie
    ensures out.response.status == OK && out.response.body.message == "Users successfully fetched."
    ensures out.response.body.payload.WithData? && out.response.body.payload.data.UsersData?
    ensures var listed := out.response.body.payload.data.users;
      && out.response == SendDataResponse(OK, "Users successfully fetched.", UsersData(listed), now)
      && |listed| == |users.data|
      && (forall u :: u in listed <==> u in users.data.Values)
      && (forall i, j :: 0 <= i < j < |listed| ==> listed[i].id < listed[j].id)
  {
    var listed := users.FindMany(Some(PublicColumns));
    out := Reply(SendDataResponse(OK, "Users successfully fetched.", UsersData(listed), now), NoCookie);
  }

  /** Reads the store only. The record answered is the stored one, password
      included, because the mock ignores the column selection. */
  method GetUser(users: DaoUserMock, id: int, now: string) returns (out: HandlerOutcome)
    requires users.Valid()
    ensures id !in users.data <==> out == Forward(UserNotFoundError(id))
    ensures id in users.data ==>
      out == Reply(SendDataResponse(OK, "User successfully fetched.", UserData(users.data[id]), now), NoCookie)
    ensures out.Forward? ==> out.error.ToResponse().status == 404 && out.error.ToResponse().error.code == UserNotFound
  {
    var user := users.FindById(id, Some(PublicColumns));
    if user.None? {
      return Forward(UserNotFoundError(id));
    }
    out := Reply(SendDataResponse(OK, "User successfully fetched.", UserData(user.value), now), NoCookie);
  }

  /** The table after `adminUpdateUser` patched user `id`: only that record
      changes; a non-empty email replaces the old one, a provided password is
      stored as its hash, and the admin flag becomes `isAdmin == true` or stays. */
  ghost predicate AdminUpdated(before: map<int, User>, after: map<int, User>, id: int, email: Option<string>,
                               password: Option<string>, isAdmin: Option<bool>, hash: Hasher)
    requires id in before
  {
    && after.Keys == before.Keys
    && (forall k :: k in before && k != id ==> after[k] == before[k])
    && after[id].id == id
    && after[id].email == (if email.Some? && email.value != "" then email.value else before[id].email)
    && after[id].password == (if password.Some? then hash(password.value) else before[id].password)
    && after[id].isAdmin == (isAdmin == Some(true) || before[id].isAdmin)
  }

  /** `adminUpdateUser`: the email and admin flag are passed through as given,
      the password is hashed when present, and the found user is patched. */
  method AdminUpdateUser(users: DaoUserMock, id: int, email: Option<string>, password: Option<string>,
                         isAdmin: Option<bool>, hash: Hasher, now: string)
    returns (out: HandlerOutcome)
    requires users.Valid()
    modifies users
    ensures users.Valid()
    ensures id !in old(users.data) ==> out == Forward(UserNotFoundError(id)) && unchanged(users)
    ensures id in old(users.data) ==>
      && users.keys == old(users.keys) && users.autoId == old(users.autoId)
      && AdminUpdated(old(users.data), users.data, id, email, password, isAdmin, hash)
      && out == Reply(SendResponse(Options(OK, "User successfully updated.", Plain), now), NoCookie)
  {
    var user := users.FindById(id, None);
    if user.None? {
      return Forward(UserNotFoundError(id));
    }
    var updateParams := UserWritable(None, None, None);
    updateParams := updateParams.(email := email);
    updateParams := updateParams.(isAdmin := isAdmin);
    if password.Some? {
      var digest := hash(password.value);
      updateParams := updateParams.(password := Some(digest));
    }
    var _ := users.Update(user.value.id, updateParams);
    out := Reply(SendResponse(Options(OK, "User successfully updated.", Plain), now), NoCookie);
  }

  /** `adminDeleteUser`: exactly the found user is removed. */
  method AdminDeleteUser(users: DaoUserMock, id: int, now: string) returns (out: HandlerOutcome)
    requires users.Valid()
    modifies users
    ensures users.Valid()
    ensures id !in old(users.data) ==> out == Forward(DeleteNotFoundError(id)) && unchanged(users)
    ensures id in old(users.data) ==>
      && users.data == old(users.data) - {id}
      && users.keys == Without(old(users.keys), id)
      && users.autoId == old(users.autoId)
      && out == Reply(SendResponse(Options(OK, "User successfully deleted.", Plain), now), NoCookie)
  {
    var user := users.FindById(id, None);
    if user.None? {
      return Forward(DeleteNotFoundError(id));
    }
    var _ := users.Delete(user.value.id);
    out := Reply(SendResponse(Options(OK, "User successfully deleted.", Plain), now), NoCookie);
  }
}
