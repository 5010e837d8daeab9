/**
 * User creation (src/pages/api/users/index.ts): the role-permission matrix
 * that says which roles a caller may hand out, and the create route's
 * order of checks (permission, then duplicate email, then insert).
 */
module Users {
  import opened Wrappers
  import opened JsText
  import opened JsValues
  import opened UserStore

  // The `UserRole` values of src/models/User.ts.
  const RoleUser := "user"
  const RoleAdmin := "admin"
  const RoleAdminSucursal := "adminSucursal"
  const RoleSuperadmin := "superadmin"

  /** `checkRolePermissions(userRole, targetRole)`: may a caller with `userRole` create a user with `targetRole`? */
  function CheckRolePermissions(userRole: string, targetRole: string): (ok: bool)
    ensures userRole == RoleSuperadmin ==> ok
    ensures userRole == RoleAdmin ==> (ok <==> targetRole in {RoleAdmin, RoleAdminSucursal, RoleUser})
    ensures userRole == RoleAdminSucursal ==> (ok <==> targetRole in {RoleAdminSucursal, RoleUser})
    ensures userRole !in {RoleSuperadmin, RoleAdmin, RoleAdminSucursal} ==> !ok
  {
    if userRole == RoleSuperadmin then true
    else if userRole == RoleAdmin then targetRole == RoleAdmin || targetRole == RoleAdminSucursal || targetRole == RoleUser
    else if userRole == RoleAdminSucursal then targetRole == RoleAdminSucursal || targetRole == RoleUser
    else false
  }

  /** The position of a known role in the hierarchy, lowest first. */
  function Rank(role: string): Option<nat> {
    if role == RoleUser then Some(0)
    else if role == RoleAdminSucursal then Some(1)
    else if role == RoleAdmin then Some(2)
    else if role == RoleSuperadmin then Some(3)
    else None
  }

  /**
   * The matrix as a rule over the hierarchy: the top role may create
   * anything; below it, a role that is not the lowest may create known
   * roles at or below its own rank.
   */
  predicate RankPermits(userRole: string, targetRole: string) {
    userRole == RoleSuperadmin ||
    (Rank(userRole).Some? && Rank(userRole).value >= 1 &&
     Rank(targetRole).Some? && Rank(targetRole).value <= Rank(userRole).value)
  }

  /** The switch and the hierarchy rule agree on every pair of strings. */
  lemma PermissionsFollowRank(userRole: string, targetRole: string)
    ensures CheckRolePermissions(userRole, targetRole) <==> RankPermits(userRole, targetRole)
  {
  }

  /** The sets of creatable roles are nested, and the lowest role creates nothing. */
  lemma PermissionsNested(targetRole: string)
    ensures CheckRolePermissions(RoleAdminSucursal, targetRole) ==> CheckRolePermissions(RoleAdmin, targetRole)
    ensures CheckRolePermissions(RoleAdmin, targetRole) ==> CheckRolePermissions(RoleSuperadmin, targetRole)
    ensures !CheckRolePermissions(RoleUser, targetRole)
  {
  }

  /** No known role may create a known role above its own. */
  lemma NoCreationAbove(userRole: string, targetRole: string)
    requires Rank(userRole).Some? && Rank(targetRole).Some?
    requires Rank(targetRole).value > Rank(userRole).value
    ensures !CheckRolePermissions(userRole, targetRole)
  {
    PermissionsFollowRank(userRole, targetRole);
  }

  // ---------------------------------------------------------------------------
  // createUser
  // ---------------------------------------------------------------------------

  /** The validated body of a creation request. */
  datatype NewUser = NewUser(name: string, email: string, password: string, role: string)

  /** The record the route inserts: trimmed name, lower-cased and trimmed email, hashed password. */
  function StoredUser(input: NewUser, id: string, hash: string -> string): (u: UserRecord)
    ensures u.name == Trim(input.name) && u.email == Trim(ToLower(input.email))
    ensures u.password == hash(input.password) && u.role == input.role
    ensures u.id == id && u.lastLogin.None? && u.refreshToken.None?
  {
    UserRecord(id, None, Trim(input.name), Trim(ToLower(input.email)), hash(input.password), input.role, None, None)
  }

  /** What the route decides. */
  datatype Creation = Forbidden | DuplicateEmail | Created(user: UserRecord)

  /** The decision: permission first, then the duplicate-email lookup on the lower-cased email, then the insert. */
  function CreationFor(users: seq<UserRecord>, creatorRole: string, input: NewUser, id: string, hash: string -> string): (c: Creation)
    ensures c == Forbidden <==> !CheckRolePermissions(creatorRole, input.role)
    ensures c == DuplicateEmail <==>
            CheckRolePermissions(creatorRole, input.role) && exists j :: 0 <= j < |users| && users[j].email == ToLower(input.email)
    ensures c.Created? ==> c.user == StoredUser(input, id, hash)
  {
    FindCases(users, ToLower(input.email), id);
    if !CheckRolePermissions(creatorRole, input.role) then Forbidden
    else if FindByEmail(users, ToLower(input.email)).Some? then DuplicateEmail
    else Created(StoredUser(input, id, hash))
  }

  /** The 201 body: the stored user's id, name, email and role (the timestamps are not modelled). */
  function CreatedResponse(u: UserRecord): Response {
    Response(201, Obj([("success", Bool(true)), ("message", Str("Usuario creado exitosamente")),
                       ("user", Obj([("id", Str(u.id)), ("name", Str(u.name)), ("email", Str(u.email)), ("role", Str(u.role))]))]),
             None)
  }

  function CreationResponse(c: Creation): Response {
    match c
    case Forbidden => Reply(403, false, "No tienes permisos para crear usuarios con este rol")
    case DuplicateEmail => Reply(409, false, "Ya existe un usuario con este email")
    case Created(u) => CreatedResponse(u)
  }

  /**
   * `createUser`: `creatorRole` is the caller's role, `id` the identifier the
   * database assigns and `hash` the password hasher.
   */
  method CreateUser(table: UserTable, creatorRole: string, input: NewUser, id: string, hash: string -> string)
    returns (r: Response)
    modifies table
    ensures r == CreationResponse(CreationFor(old(table.users), creatorRole, input, id, hash))
    ensures CreationFor(old(table.users), creatorRole, input, id, hash).Created? ==>
            table.users == old(table.users) + [StoredUser(input, id, hash)]
    ensures !CreationFor(old(table.users), creatorRole, input, id, hash).Created? ==> table.users == old(table.users)
  {
    if !CheckRolePermissions(creatorRole, input.role) {
      return Reply(403, false, "No tienes permisos para crear usuarios con este rol");
    }
    if FindByEmail(table.users, ToLower(input.email)).Some? {
      return Reply(409, false, "Ya existe un usuario con este email");
    }
    var stored := StoredUser(input, id, hash);
    table.users := table.users + [stored];
    r := CreatedResponse(stored);
  }

  /**
   * Once a user is created, creating it again with the same email (one the
   * validation schema lets through, so without whitespace) is a duplicate,
   * whatever its case.
   */
  lemma SecondCreationIsDuplicate(users: seq<UserRecord>, creatorRole: string, input: NewUser, again: NewUser,
                                  id: string, id2: string, hash: string -> string)
    requires NoWhitespace(input.email)
    requires CreationFor(users, creatorRole, input, id, hash).Created?
    requires ToLower(again.email) == ToLower(input.email)
    requires CheckRolePermissions(creatorRole, again.role)
    ensures CreationFor(users + [StoredUser(input, id, hash)], creatorRole, again, id2, hash) == DuplicateEmail
  {
    LowerKeepsNoWhitespace(input.email);
    var after := users + [StoredUser(input, id, hash)];
    assert after[|users|].email == ToLower(again.email);
  }
}
