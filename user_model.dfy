/** The `users` table: credentials, role and the denormalised points balance. */
module UserModel {
  import opened Wrappers

  datatype Role = Cliente | Admin | Staff

  function Wire(r: Role): string
  {
    match r
    case Cliente => "cliente"
    case Admin => "admin"
    case Staff => "staff"
  }

  /** The values the `isIn` validator of `rol` accepts. */
  const RoleWires: seq<string> := ["cliente", "admin", "staff"]

  function ParseRole(w: string): (r: Option<Role>)
    ensures r.Some? <==> w in RoleWires
    ensures r.Some? ==> Wire(r.value) == w
  {
    if w == "cliente" then Some(Cliente)
    else if w == "admin" then Some(Admin)
    else if w == "staff" then Some(Staff)
    else None
  }

  lemma ParseWire(r: Role)
    ensures ParseRole(Wire(r)) == Some(r)
  {
    match r
    case Cliente =>
    case Admin =>
    case Staff =>
  }

  /** A stored user. `password` holds whatever the hashing hook stored. */
  datatype User = User(
    nombre: string,
    email: string,
    password: string,
    telefono: Option<string>,
    rol: Role,
    puntos_actuales: int,
    fecha_registro: int)

  /** The user as returned to a client: every column except `password`. */
  datatype PublicUser = PublicUser(
    id: int,
    nombre: string,
    email: string,
    telefono: Option<string>,
    rol: Role,
    puntos_actuales: int,
    fecha_registro: int)

  function WithoutPassword(id: int, u: User): PublicUser
  {
    PublicUser(id, u.nombre, u.email, u.telefono, u.rol, u.puntos_actuales, u.fecha_registro)
  }

  /** The row constraint re-checked on every save that does not depend on the
      e-mail syntax check: a non-empty name. */
  predicate Valid(u: User)
  {
    u.nombre != ""
  }

  /** The attributes a caller passes to `User.create`; `None` is an omitted attribute. */
  datatype UserFields = UserFields(
    nombre: Option<string>,
    email: Option<string>,
    password: Option<string>,
    telefono: Option<string>,
    rol: Option<string>,
    puntos_actuales: Option<int>)

  datatype ValidationError =
    | NullViolation(field: string)
    | Empty(field: string)
    | NotEmail(value: string)
    | NotInList(field: string, value: string)

  /** `User.create` before the insert. The e-mail syntax check of the validator
      library is the parameter `isEmail`; `now` is the registration time. */
  function Build(f: UserFields, isEmail: string -> bool, now: int): (r: Result<User, ValidationError>)
    ensures r.Ok? <==> && f.nombre.Some? && f.nombre.value != "" && f.email.Some? && isEmail(f.email.value)
                       && f.password.Some? && (f.rol.None? || f.rol.value in RoleWires)
    ensures r.Ok? ==> Valid(r.value)
    ensures r.Ok? ==> && r.value.nombre == f.nombre.value && r.value.email == f.email.value
                      && r.value.password == f.password.value && r.value.fecha_registro == now
    ensures r.Ok? ==> Wire(r.value.rol) == (if f.rol.Some? then f.rol.value else "cliente")
    ensures r.Ok? ==> r.value.puntos_actuales == (if f.puntos_actuales.Some? then f.puntos_actuales.value else 0)
  {
    if f.nombre.None? then Err(NullViolation("nombre"))
    else if f.nombre.value == "" then Err(Empty("nombre"))
    else if f.email.None? then Err(NullViolation("email"))
    else if !isEmail(f.email.value) then Err(NotEmail(f.email.value))
    else if f.password.None? then Err(NullViolation("password"))
    else
      var rol := if f.rol.Some? then ParseRole(f.rol.value) else Some(Cliente);
      if rol.None? then Err(NotInList("rol", f.rol.value))
      else Ok(User(f.nombre.value, f.email.value, f.password.value, f.telefono, rol.value,
                   if f.puntos_actuales.Some? then f.puntos_actuales.value else 0, now))
  }

  /** The unique index on `email`: no two stored users share an address. */
  ghost predicate EmailsUnique(rows: map<int, User>)
  {
    forall a, b :: a in rows && b in rows && rows[a].email == rows[b].email ==> a == b
  }
}
