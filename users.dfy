/** controllers/users.js: the operations on the user collection. */
module UsersController {
  import opened Wrappers
  import opened SchemaTypes
  import opened UserModel
  import opened Requests
  import opened ResponseUtils
  import opened Collections

  function IdOf(u: User): (id: ObjectId) {
    u.id
  }

  /** findById: the position of the user with that id; an undefined id finds nothing. */
  function IndexOfId(users: seq<User>, id: Option<ObjectId>): (r: Option<nat>)
    ensures r.Some? ==> r.value < |users| && Some(users[r.value].id) == id
    ensures r.None? <==> forall u :: u in users ==> Some(u.id) != id
  {
    if id.None? then None else FindIndex(users, (u: User) => u.id == id.value)
  }

  /** The user document `new User(userData)` builds at registration, after `delete userData.role`. */
  function RegistrationFields(data: Body): (f: UserFields)
    ensures f.role.None?
    ensures f.name == data.name && f.email == data.email && f.password == data.password
  {
    UserFields(data.name, data.email, data.password, None)
  }

  /** Registration does not depend on the submitted role: whatever it is, the outcome is the same. */
  lemma RegistrationIgnoresRole(id: ObjectId, data: Body, role: Option<string>, accepts: (string, string, string) -> bool)
    ensures Create(id, RegistrationFields(data), accepts) == Create(id, RegistrationFields(data.(role := role)), accepts)
    ensures Create(id, RegistrationFields(data), accepts).Success? ==>
              Create(id, RegistrationFields(data), accepts).value.role == Customer
  {
  }

  /** getAllUsers: 200 with every stored user, in collection order, as JSON. */
  predicate GetAllUsersSpec(users: seq<User>, r: Response) {
    r == SendJson(UserList(users), 200)
  }

  /** viewUser: 404 when no user has the id, otherwise 200 with that user. */
  ghost predicate ViewUserSpec(users: seq<User>, userId: Option<ObjectId>, r: Response) {
    && ((forall u :: u in users ==> Some(u.id) != userId) ==> r == NotFound())
    && (forall u :: u in users && Some(u.id) == userId ==> r == SendJson(UserDoc(u), 200))
  }

  /**
   * deleteUser, from collection `before` to `after`: existence is checked before the self check,
   * so an unknown id is 404 even when it is the caller's; deleting oneself is 400; otherwise
   * exactly that user is removed and returned.
   */
  ghost predicate DeleteUserSpec(before: seq<User>, after: seq<User>, userId: Option<ObjectId>, currentUser: User, r: Response) {
    && ((forall u :: u in before ==> Some(u.id) != userId) ==> r == NotFound() && after == before)
    && ((exists u :: u in before && Some(u.id) == userId) && userId == Some(currentUser.id) ==>
          r == BadRequest(Some(Message("Bad request"))) && after == before)
    && (forall i :: 0 <= i < |before| && Some(before[i].id) == userId && userId != Some(currentUser.id) ==>
          && r == SendJson(UserDoc(before[i]), 200)
          && after == before[..i] + before[i + 1..]
          && |after| == |before| - 1
          && (forall x :: x in after <==> x in before && Some(x.id) != userId))
  }

  /**
   * updateUser, from `before` to `after`: the self check comes first, so updating oneself is 400
   * whether or not the record exists; an unknown id is 404; otherwise only the role changes, to
   * the payload's, and a failed save is 400 with the collection unchanged.
   */
  ghost predicate UpdateUserSpec(before: seq<User>, after: seq<User>, userId: Option<ObjectId>, currentUser: User,
                                 userData: Body, r: Response) {
    && (userId == Some(currentUser.id) ==>
          r == BadRequest(Some(Message("Updating own data is not allowed"))) && after == before)
    && (userId != Some(currentUser.id) && (forall u :: u in before ==> Some(u.id) != userId) ==>
          r == NotFound() && after == before)
    && (forall i :: 0 <= i < |before| && Some(before[i].id) == userId && userId != Some(currentUser.id) ==>
          match SetRole(before[i], userData.role)
          case Success(updated) =>
            && updated == before[i].(role := updated.role)
            && after == before[i := updated]
            && r == SendJson(UserDoc(updated), 200)
          case Failure(e) => r == BadRequest(Some(Invalid(e))) && after == before)
  }

  /** registerUser, from `before` to `after`: the submitted role is dropped; 201 with the new user appended on a valid save, 400 otherwise. */
  predicate RegisterUserSpec(before: seq<User>, after: seq<User>, userData: Body, newId: ObjectId,
                             accepts: (string, string, string) -> bool, r: Response) {
    match Create(newId, RegistrationFields(userData), accepts)
    case Success(u) =>
      && u.role == Customer
      && after == before + [u]
      && r == CreatedResource(UserDoc(u))
    case Failure(e) => r == BadRequest(Some(Invalid(e))) && after == before
  }

  class UserStore {
    /** The user collection in natural order. */
    var users: seq<User>
    /** What the user schema checks of a new user's name, email and password. */
    const accepts: (string, string, string) -> bool

    ghost predicate Valid()
      reads this
    {
      Unique(users, IdOf)
    }

    constructor (initial: seq<User>, accepts: (string, string, string) -> bool)
      requires Unique(initial, IdOf)
      ensures Valid() && users == initial && this.accepts == accepts
    {
      users := initial;
      this.accepts := accepts;
    }

    method GetAllUsers() returns (r: Response)
      ensures GetAllUsersSpec(users, r)
      ensures r.status == 200 && r.headers == map["Content-Type" := "application/json"]
    {
      r := SendJson(UserList(users), 200);
    }

    method ViewUser(userId: Option<ObjectId>) returns (r: Response)
      requires Valid()
      ensures ViewUserSpec(users, userId, r)
    {
      var found := IndexOfId(users, userId);
      if found.None? {
        return NotFound();
      }
      r := SendJson(UserDoc(users[found.value]), 200);
      forall u | u in users && Some(u.id) == userId ensures u == users[found.value] {
        UniqueAt(users, IdOf, found.value, u);
      }
    }

    method DeleteUser(userId: Option<ObjectId>, currentUser: User) returns (r: Response)
      requires Valid()
      modifies this
      ensures Valid()
      ensures DeleteUserSpec(old(users), users, userId, currentUser, r)
    {
      var found := IndexOfId(users, userId);
      if found.None? {
        return NotFound();
      }
      if userId == Some(currentUser.id) {
        return BadRequest(Some(Message("Bad request")));
      }
      var i := found.value;
      var viewingUser := users[i];
      RemoveAtKey(users, IdOf, i);
      forall k | 0 <= k < |users| && Some(users[k].id) == userId ensures k == i {
        assert IdOf(users[k]) == IdOf(users[i]);
      }
      users := users[..i] + users[i + 1..];
      r := SendJson(UserDoc(viewingUser), 200);
    }

    method UpdateUser(userId: Option<ObjectId>, currentUser: User, userData: Body) returns (r: Response)
      requires Valid()
      modifies this
      ensures Valid()
      ensures UpdateUserSpec(old(users), users, userId, currentUser, userData, r)
    {
      if userId == Some(currentUser.id) {
        return BadRequest(Some(Message("Updating own data is not allowed")));
      }
      var found := IndexOfId(users, userId);
      if found.None? {
        return NotFound();
      }
      var i := found.value;
      forall k | 0 <= k < |users| && Some(users[k].id) == userId ensures k == i {
        assert IdOf(users[k]) == IdOf(users[i]);
      }
      match SetRole(users[i], userData.role)
      case Success(updated) =>
        ReplaceSameKey(users, IdOf, i, updated);
        users := users[i := updated];
        r := SendJson(UserDoc(updated), 200);
      case Failure(e) =>
        r := BadRequest(Some(Invalid(e)));
    }

    method RegisterUser(userData: Body, newId: ObjectId) returns (r: Response)
      requires Valid()
      requires forall u :: u in users ==> u.id != newId
      modifies this
      ensures Valid()
      ensures RegisterUserSpec(old(users), users, userData, newId, accepts, r)
    {
      match Create(newId, RegistrationFields(userData), accepts)
      case Success(u) =>
        AppendFreshKey(users, IdOf, u);
        users := users + [u];
        r := CreatedResource(UserDoc(u));
      case Failure(e) =>
        r := BadRequest(Some(Invalid(e)));
    }
  }
}
