/** Registration and login. Registration refuses an e-mail already on file and
    returns the new user without the password; login refuses an unknown e-mail and
    a wrong password with the same message and signs a token with the user's id,
    role and name. Hashing (`hash`), comparison (`matches`), token signing (`sign`)
    and the e-mail syntax check (`isEmail`) are parameters. */
module AuthService {
  import opened Wrappers
  import opened Repository
  import U = UserModel
  import AM = AuthMiddleware

  /** The payload of a login token. */
  datatype Claims = Claims(id: int, rol: string, nombre: string)

  /** The answer of `login`: the stored user, as found, and the token. */
  datatype Session = Session(id: int, user: U.User, token: string)

  const EmailTaken := "El correo electrónico ya está registrado."
  const BadCredentials := "Credenciales inválidas."
  /** What the query layer throws for `where: { email: undefined }`. */
  const UndefinedEmail := "WHERE parameter \"email\" has invalid \"undefined\" value"

  function ByEmail(email: string): U.User -> bool
  {
    (u: U.User) => u.email == email
  }

  /** Some stored user has this e-mail. */
  predicate Taken(t: Table<U.User>, email: string)
  {
    exists k :: k in t.rows && t.rows[k].email == email
  }

  /** The message of the validation error `User.create` throws. */
  function ValidationMessage(e: U.ValidationError): string
  {
    match e
    case NullViolation(field) => "notNull Violation: User." + field + " cannot be null"
    case Empty(_) => "Validation error: El nombre es obligatorio"
    case NotEmail(_) => "Validation error: Debe ser un correo válido"
    case NotInList(field, _) => "Validation error: Validation isIn on " + field + " failed"
  }

  /** The `beforeCreate` hook: a non-empty password is replaced by its hash. */
  function Hashed(u: U.User, hash: string -> string): (r: U.User)
    ensures r == u.(password := r.password)
    ensures u.password != "" ==> r.password == hash(u.password)
  {
    if u.password != "" then u.(password := hash(u.password)) else u
  }

  /** `register(userData)` on the user repository, whose validation is the model's
      row constraint. */
  method Register(users: BaseRepository<U.User>, f: U.UserFields, isEmail: string -> bool, hash: string -> string, now: int)
    returns (r: Result<U.PublicUser, string>)
    requires users.Valid() && forall u :: users.valid(u) <==> U.Valid(u)
    modifies users
    ensures users.Valid()
    ensures f.email.None? ==> r == Err(UndefinedEmail)
    ensures f.email.Some? && Taken(old(users.table), f.email.value) ==> r == Err(EmailTaken)
    ensures r.Ok? <==> f.email.Some? && !Taken(old(users.table), f.email.value) && U.Build(f, isEmail, now).Ok?
    ensures r.Ok? ==>
      var stored := Hashed(U.Build(f, isEmail, now).value, hash);
      && r.value.id !in old(users.table.rows)
      && users.table.rows == old(users.table.rows)[r.value.id := stored]
      && r.value == U.WithoutPassword(r.value.id, stored)
    ensures r.Err? ==> users.table == old(users.table)
    ensures U.EmailsUnique(old(users.table.rows)) ==> U.EmailsUnique(users.table.rows)
  {
    if f.email.None? {
      return Err(UndefinedEmail);
    }
    var existing := users.GetOne(ByEmail(f.email.value));
    if existing.Some? {
      return Err(EmailTaken);
    }
    var built := U.Build(f, isEmail, now);
    if built.Err? {
      return Err(ValidationMessage(built.error));
    }
    var stored := Hashed(built.value, hash);
    var id := users.Create(stored);
    assert id.Some?;
    r := Ok(U.WithoutPassword(id.value, stored));
  }

  /** The token's payload for the user stored under `id`. */
  function ClaimsOf(id: int, u: U.User): Claims
  {
    Claims(id, U.Wire(u.rol), u.nombre)
  }

  /** `login(email, password)`: the first user with the e-mail, if the password
      matches its stored hash, with a token signed over its claims. */
  function Login(t: Table<U.User>, email: Option<string>, password: string,
                 matches: (string, string) -> bool, sign: Claims -> string): (r: Result<Session, string>)
    requires Wf(t)
    ensures email.None? ==> r == Err(UndefinedEmail)
    ensures email.Some? && !Taken(t, email.value) ==> r == Err(BadCredentials)
    ensures r.Ok? ==> && email.Some? && r.value.id in t.rows && t.rows[r.value.id] == r.value.user
                      && r.value.user.email == email.value && matches(password, r.value.user.password)
                      && r.value.token == sign(ClaimsOf(r.value.id, r.value.user))
    ensures r.Err? ==> r.error == UndefinedEmail || r.error == BadCredentials
  {
    if email.None? then Err(UndefinedEmail)
    else
      var key := FirstKey(t, ByEmail(email.value));
      if key.None? then Err(BadCredentials)
      else
        var user := t.rows[key.value];
        if !matches(password, user.password) then Err(BadCredentials)
        else Ok(Session(key.value, user, sign(ClaimsOf(key.value, user))))
  }

  /** With e-mails unique, a stored user logs in with a password that matches the
      stored hash, and with no other. */
  lemma LoginFindsUser(t: Table<U.User>, id: int, password: string,
                       matches: (string, string) -> bool, sign: Claims -> string)
    requires Wf(t) && U.EmailsUnique(t.rows) && id in t.rows
    ensures var u := t.rows[id];
      var r := Login(t, Some(u.email), password, matches, sign);
      && (matches(password, u.password) ==> r == Ok(Session(id, u, sign(ClaimsOf(id, u)))))
      && (!matches(password, u.password) ==> r == Err(BadCredentials))
  {
    var u := t.rows[id];
    var key := FirstKey(t, ByEmail(u.email));
    assert ByEmail(u.email)(t.rows[id]);
    assert key.Some?;
    assert t.rows[key.value].email == u.email;
  }

  /** The token a login hands out passes `protect` as a bearer header with the
      user's claims, when verification undoes signing and tokens have no spaces. */
  lemma LoginTokenAdmitted(t: Table<U.User>, email: Option<string>, password: string,
                           matches: (string, string) -> bool, sign: Claims -> string, verify: string -> Option<Claims>)
    requires Wf(t) && Login(t, email, password, matches, sign).Ok?
    requires forall c :: ' ' !in sign(c) && sign(c) != "" && verify(sign(c)) == Some(c)
    ensures var s := Login(t, email, password, matches, sign).value;
      AM.Protect(Some("Bearer " + s.token), verify) == AM.Next(ClaimsOf(s.id, s.user))
  {
    var s := Login(t, email, password, matches, sign).value;
    AM.SignedTokenAdmitted(ClaimsOf(s.id, s.user), sign, verify);
  }
}
