/**
 * The user document. The user schema itself (models/user.js) is not part of this model:
 * what it checks of name, email and password is the abstract predicate `accepts`, and only
 * the role rules that the controllers depend on are spelled out.
 */
module UserModel {
  import opened Wrappers
  import opened SchemaTypes

  datatype Role = Admin | Customer

  /** A stored user; `password` is the password field exactly as it was submitted: the schema's hashing of it is not modelled. */
  datatype User = User(id: ObjectId, name: string, email: string, password: string, role: Role)

  /** The fields of a user document before `save` validates them. */
  datatype UserFields = UserFields(name: Option<string>, email: Option<string>, password: Option<string>, role: Option<string>)

  /** The role a new document receives when none is given. */
  const DefaultRole: Role := Customer

  function RoleName(role: Role): (name: string) {
    match role
    case Admin => "admin"
    case Customer => "customer"
  }

  /** The role enumeration of the schema: exactly the two role names are accepted. */
  function ParseRole(s: string): (r: Option<Role>)
    ensures r.Some? <==> s == "admin" || s == "customer"
    ensures r.Some? ==> RoleName(r.value) == s
  {
    if s == "admin" then Some(Admin) else if s == "customer" then Some(Customer) else None
  }

  /** Saving a new user document: the role defaults when absent and must be a known role otherwise. */
  function Create(id: ObjectId, f: UserFields, accepts: (string, string, string) -> bool): (r: Result<User, ValidationError>)
    ensures r.Success? <==>
      f.name.Some? && f.email.Some? && f.password.Some? && accepts(f.name.value, f.email.value, f.password.value)
      && (f.role.None? || ParseRole(f.role.value).Some?)
    ensures r.Success? ==>
      r.value.id == id && r.value.name == f.name.value && r.value.email == f.email.value && r.value.password == f.password.value
    ensures r.Success? && f.role.None? ==> r.value.role == DefaultRole
    ensures r.Success? && f.role.Some? ==> RoleName(r.value.role) == f.role.value
  {
    if f.name.Some? && f.email.Some? && f.password.Some? && accepts(f.name.value, f.email.value, f.password.value) then
      match f.role
      case None => Success(User(id, f.name.value, f.email.value, f.password.value, DefaultRole))
      case Some(s) =>
        match ParseRole(s)
        case Some(role) => Success(User(id, f.name.value, f.email.value, f.password.value, role))
        case None => Failure(ValidationFailed("User"))
    else Failure(ValidationFailed("User"))
  }

  /** Saving an existing user after `role` was assigned from a payload: the new value must be a known role. */
  function SetRole(u: User, role: Option<string>): (r: Result<User, ValidationError>)
    ensures r.Success? <==> role.Some? && ParseRole(role.value).Some?
    ensures r.Success? ==> r.value == u.(role := r.value.role) && RoleName(r.value.role) == role.value
  {
    if role.Some? && ParseRole(role.value).Some? then Success(u.(role := ParseRole(role.value).value))
    else Failure(ValidationFailed("User"))
  }
}
