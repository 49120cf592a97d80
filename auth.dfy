/**
 * getCurrentUser of auth/auth.js: credentials, then the first user with that email, then the
 * password check. It only reads the user collection, and every failure is the same `None`.
 */
module Auth {
  import opened Wrappers
  import opened UserModel
  import opened Requests
  import opened Collections

  /** Position `i` holds the first user with email `email` (what `findOne({email})` returns). */
  predicate FirstWithEmail(users: seq<User>, i: int, email: string) {
    0 <= i < |users| && users[i].email == email && forall j :: 0 <= j < i ==> users[j].email != email
  }

  /** `checkPassword` stands for the user document's password check against the stored password. */
  function GetCurrentUser(auth: Authorization, users: seq<User>, checkPassword: (User, string) -> bool): (r: Option<User>)
    ensures GetCredentials(auth).None? ==> r.None?
    ensures GetCredentials(auth).Some? && (forall u :: u in users ==> u.email != GetCredentials(auth).value.email)
            ==> r.None?
    ensures r.Some? ==> && r.value in users
                        && r.value.email == GetCredentials(auth).value.email
                        && checkPassword(r.value, GetCredentials(auth).value.password)
  {
    match GetCredentials(auth)
    case None => None
    case Some(c) =>
      match FindIndex(users, (u: User) => u.email == c.email)
      case None => None
      case Some(i) => if checkPassword(users[i], c.password) then Some(users[i]) else None
  }

  /** With credentials, the outcome is decided by the password check of the first user with their email. */
  lemma CurrentUserIsFirstWithEmail(auth: Authorization, users: seq<User>, checkPassword: (User, string) -> bool, i: int)
    requires GetCredentials(auth).Some? && FirstWithEmail(users, i, GetCredentials(auth).value.email)
    ensures GetCurrentUser(auth, users, checkPassword) ==
            if checkPassword(users[i], GetCredentials(auth).value.password) then Some(users[i]) else None
  {
    var c := GetCredentials(auth).value;
    var hasEmail := (u: User) => u.email == c.email;
    var found := FindIndex(users, hasEmail);
    assert found.Some? by {
      assert hasEmail(users[i]);
    }
    assert found.value == i;
  }
}
