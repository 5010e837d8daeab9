/**
 * The login route, src/pages/api/auth/login.ts: read the body, look the
 * user up by lower-cased email, compare the hex SHA-256 digest of the
 * password with the stored one, record the login time, and answer with the
 * session cookie.
 */
module Login {
  import opened Wrappers
  import opened JsText
  import opened JsValues
  import opened UserStore
  import opened Hex

  /**
   * What the route relies on and does not define: `JSON.parse` (None when it
   * throws), SHA-256 of the UTF-8 encoding of `String(password)`, the
   * Set-Cookie value that `createSessionCookie(generateToken(user))` builds,
   * and the companies that `.populate('company')` reads.
   */
  datatype LoginEnv = LoginEnv(parse: string -> Option<JsVal>, digest: JsVal -> seq<Byte>, sessionCookie: JsVal -> string,
                               companies: Companies)

  /** How far a login gets. */
  datatype LoginStep =
    | Rejected(status: int, message: string)
    | Crashed                          // a thrown TypeError or SyntaxError, answered with 500
    | Matched(index: nat)              // password accepted for users[index]

  const NoData := "No se recibieron datos"
  const CredentialsRequired := "Email y contraseña son requeridos"
  const UserNotFound := "Usuario no encontrado"
  const WrongPassword := "Contraseña incorrecta"
  const LoginFailed := "Error en la autenticación"

  /** The checks in order, up to and including the password comparison. */
  function LoginDecision(users: seq<UserRecord>, text: string, env: LoginEnv): (step: LoginStep)
    ensures step.Matched? ==> env.parse(text).Some? && !IsNullish(env.parse(text).value)
    ensures step.Matched? ==> step.index < |users| && users[step.index].password == ToHex(env.digest(PropertyRead(env.parse(text).value, "password")))
    ensures step.Matched? ==>
              PropertyRead(env.parse(text).value, "email").Str?
              && FindByEmail(users, ToLower(PropertyRead(env.parse(text).value, "email").s)) == Some(step.index)
    ensures step.Rejected? ==> step.status == 400 || step.status == 401 || step.status == 404
    ensures step.Rejected? && step.status == 401 ==> step.message == WrongPassword
  {
    if Trim(text) == "" then Rejected(400, NoData)
    else match env.parse(text)
      case None => Crashed
      case Some(body) =>
        if IsNullish(body) then Crashed
        else
          var email := PropertyRead(body, "email");
          var password := PropertyRead(body, "password");
          if !Truthy(email) || !Truthy(password) then Rejected(400, CredentialsRequired)
          else if !email.Str? then Crashed
          else match FindByEmail(users, ToLower(email.s))
            case None => Rejected(404, UserNotFound)
            case Some(k) =>
              if ToHex(env.digest(password)) != users[k].password then Rejected(401, WrongPassword)
              else Matched(k)
  }

  /**
   * The `authUser` object sent back and signed, with `companyId` the
   * `toString()` of the populated company; that call throws when the
   * populated value is undefined (no reference) or null (a dangling one).
   */
  function AuthUser(u: UserRecord, companies: Companies): Option<JsVal> {
    match Populate(u, companies)
    case Document(doc) =>
      Some(Obj([("id", Str(u.id)), ("name", Str(u.name)), ("email", Str(u.email)),
                ("role", Str(u.role)), ("companyId", Str(companies.render(doc)))]))
    case _ => None
  }

  /** The response of the route. */
  function LoginResponse(users: seq<UserRecord>, text: string, env: LoginEnv): Response {
    StepResponse(users, LoginDecision(users, text, env), env)
  }

  /** The answer for how far the login got. */
  function StepResponse(users: seq<UserRecord>, step: LoginStep, env: LoginEnv): Response
    requires step.Matched? ==> step.index < |users|
  {
    match step
    case Rejected(status, message) => Reply(status, false, message)
    case Crashed => Reply(500, false, LoginFailed)
    case Matched(k) =>
      match AuthUser(users[k], env.companies)
      case None => Reply(500, false, LoginFailed)
      case Some(authUser) =>
        Response(200, Obj([("success", Bool(true)), ("message", Str("Inicio de sesión exitoso")), ("user", authUser)]),
                 Some(env.sessionCookie(authUser)))
  }

  /** The users table afterwards: the matched user's `lastLogin` set to `now`, even if the reply is then a 500. */
  function LoginUsers(users: seq<UserRecord>, text: string, env: LoginEnv, now: int): (after: seq<UserRecord>)
    ensures |after| == |users|
  {
    match LoginDecision(users, text, env)
    case Matched(k) => users[k := users[k].(lastLogin := Some(now))]
    case _ => users
  }

  /** `POST /api/auth/login` with body `text` at time `now`. */
  method HandleLogin(table: UserTable, text: string, env: LoginEnv, now: int) returns (r: Response)
    modifies table
    ensures r == LoginResponse(old(table.users), text, env)
    ensures table.users == LoginUsers(old(table.users), text, env, now)
  {
    if Trim(text) == "" {
      return Reply(400, false, NoData);
    }
    var parsed := env.parse(text);
    if parsed.None? || IsNullish(parsed.value) {
      return Reply(500, false, LoginFailed);
    }
    var email := PropertyRead(parsed.value, "email");
    var password := PropertyRead(parsed.value, "password");
    if !Truthy(email) || !Truthy(password) {
      return Reply(400, false, CredentialsRequired);
    }
    if !email.Str? {
      return Reply(500, false, LoginFailed);
    }
    var found := FindByEmail(table.users, ToLower(email.s));
    if found.None? {
      return Reply(404, false, UserNotFound);
    }
    var k := found.value;
    var user := table.users[k];
    var passwordHashHex := ToHex(env.digest(password));
    if passwordHashHex != user.password {
      return Reply(401, false, WrongPassword);
    }
    assert LoginDecision(old(table.users), text, env) == Matched(k);
    table.users := table.users[k := user.(lastLogin := Some(now))];
    var authUser := AuthUser(user, env.companies);
    if authUser.None? {
      return Reply(500, false, LoginFailed);
    }
    r := Response(200, Obj([("success", Bool(true)), ("message", Str("Inicio de sesión exitoso")), ("user", authUser.value)]),
                  Some(env.sessionCookie(authUser.value)));
  }

  /** A body that is empty or only whitespace is answered with 400 before it is parsed. */
  lemma BlankBodyRejected(users: seq<UserRecord>, text: string, env: LoginEnv)
    requires AllWhitespace(text)
    ensures LoginResponse(users, text, env) == Reply(400, false, NoData)
    ensures LoginUsers(users, text, env, 0) == users
  {
    var t := Trim(text);
    TrimEmptyOnlyIfBlank(text, t, t);
  }

  /**
   * With a parsed body whose email is a string: a falsy email or password is
   * a 400; otherwise the answer is 404 exactly when no stored user has the
   * lower-cased email.
   */
  lemma LookupByLowerCaseEmail(users: seq<UserRecord>, text: string, env: LoginEnv, email: string, password: JsVal)
    requires Trim(text) != ""
    requires env.parse(text) == Some(Obj([("email", Str(email)), ("password", password)]))
    ensures email == "" || !Truthy(password) ==> LoginDecision(users, text, env) == Rejected(400, CredentialsRequired)
    ensures email != "" && Truthy(password) ==>
            (LoginDecision(users, text, env) == Rejected(404, UserNotFound) <==>
             forall j :: 0 <= j < |users| ==> users[j].email != ToLower(email))
  {
    var body := Obj([("email", Str(email)), ("password", password)]);
    assert "password" != "email" by { assert "password"[0] != "email"[0]; }
    assert body.props[..1] == [("email", Str(email))];
    assert Lookup(body.props[..1], "email") == Str(email);
    assert Lookup(body.props, "email") == Lookup(body.props[..1], "email");
    assert PropertyRead(body, "password") == password;
    FindCases(users, ToLower(email), "");
  }

  /**
   * Once the body passes the blank, parse and credentials checks and its
   * email finds the user at `k`, the password comparison alone decides: a
   * match for `k` when the digest equals its stored password, 401 otherwise.
   */
  lemma PasswordDecides(users: seq<UserRecord>, text: string, env: LoginEnv, k: nat)
    requires Trim(text) != "" && env.parse(text).Some? && !IsNullish(env.parse(text).value)
    requires var body := env.parse(text).value;
             Truthy(PropertyRead(body, "email")) && Truthy(PropertyRead(body, "password")) && PropertyRead(body, "email").Str?
             && FindByEmail(users, ToLower(PropertyRead(body, "email").s)) == Some(k)
    ensures var digest := ToHex(env.digest(PropertyRead(env.parse(text).value, "password")));
            (digest == users[k].password ==> LoginDecision(users, text, env) == Matched(k))
            && (digest != users[k].password ==> LoginDecision(users, text, env) == Rejected(401, WrongPassword))
  {
  }

  /**
   * The user object of a 200 answer: exactly the keys id, name, email, role
   * and companyId, holding the stored user's values and the rendering of its
   * populated company.
   */
  predicate SessionUserOf(user: JsVal, u: UserRecord, companies: Companies)
    requires Populate(u, companies).Document?
  {
    && user.Obj?
    && Keys(user) == ["id", "name", "email", "role", "companyId"]
    && PropertyRead(user, "id") == Str(u.id)
    && PropertyRead(user, "name") == Str(u.name)
    && PropertyRead(user, "email") == Str(u.email)
    && PropertyRead(user, "role") == Str(u.role)
    && PropertyRead(user, "companyId") == Str(companies.render(Populate(u, companies).doc))
  }

  /** The object `AuthUser` builds for a user with a stored company is that user's session user. */
  lemma AuthUserOf(u: UserRecord, companies: Companies)
    requires Populate(u, companies).Document?
    ensures AuthUser(u, companies).Some? && SessionUserOf(AuthUser(u, companies).value, u, companies)
  {
    var props := AuthUser(u, companies).value.props;
    assert "id"[0] == 'i' && "name"[0] == 'n' && "email"[0] == 'e' && "role"[0] == 'r' && "companyId"[0] == 'c';
    LookupLastBinding(props, 0, "id");
    LookupLastBinding(props, 1, "name");
    LookupLastBinding(props, 2, "email");
    LookupLastBinding(props, 3, "role");
  }

  /** `lastLogin` changes only when the password matched, and only on the matching user. */
  lemma LastLoginOnlyOnMatch(users: seq<UserRecord>, text: string, env: LoginEnv, now: int, j: nat)
    requires j < |users|
    ensures !LoginDecision(users, text, env).Matched? ==> LoginUsers(users, text, env, now) == users
    ensures LoginUsers(users, text, env, now)[j] != users[j] ==>
            LoginDecision(users, text, env) == Matched(j) && LoginUsers(users, text, env, now)[j] == users[j].(lastLogin := Some(now))
    ensures LoginDecision(users, text, env).Rejected? && LoginDecision(users, text, env).status == 401 ==>
            LoginResponse(users, text, env) == Reply(401, false, WrongPassword)
  {
    var step := LoginDecision(users, text, env);
    if step.Matched? {
      assert LoginUsers(users, text, env, now) == users[step.index := users[step.index].(lastLogin := Some(now))];
    } else {
      assert LoginUsers(users, text, env, now) == users;
    }
  }

  /**
   * A 200 answer carries the session cookie and a user with exactly the keys
   * id, name, email, role and companyId, and happens exactly when the stored
   * password is the hex digest of the submitted one and the user's company
   * reference names a stored company; `companyId` is then that company's
   * rendering. A matched user without a company, or with a dangling
   * reference, is answered with 500.
   */
  lemma SuccessfulLogin(users: seq<UserRecord>, text: string, env: LoginEnv)
    ensures LoginResponse(users, text, env).status == 200 <==>
            LoginDecision(users, text, env).Matched? && Populate(users[LoginDecision(users, text, env).index], env.companies).Document?
    ensures LoginDecision(users, text, env).Matched? && !Populate(users[LoginDecision(users, text, env).index], env.companies).Document? ==>
            LoginResponse(users, text, env) == Reply(500, false, LoginFailed)
    ensures LoginResponse(users, text, env).status == 200 ==>
            var user := PropertyRead(LoginResponse(users, text, env).body, "user");
            LoginResponse(users, text, env).setCookie == Some(env.sessionCookie(user))
            && SessionUserOf(user, users[LoginDecision(users, text, env).index], env.companies)
  {
    StepSucceeds(users, LoginDecision(users, text, env), env);
  }

  /** The answer is a 200 exactly for a matched user whose company is stored, and then carries its cookie and keys. */
  lemma StepSucceeds(users: seq<UserRecord>, step: LoginStep, env: LoginEnv)
    requires step.Matched? ==> step.index < |users|
    requires step.Rejected? ==> step.status != 200
    ensures StepResponse(users, step, env).status == 200 <==> step.Matched? && Populate(users[step.index], env.companies).Document?
    ensures step.Matched? && !Populate(users[step.index], env.companies).Document? ==>
            StepResponse(users, step, env) == Reply(500, false, LoginFailed)
    ensures StepResponse(users, step, env).status == 200 ==>
            var user := PropertyRead(StepResponse(users, step, env).body, "user");
            StepResponse(users, step, env).setCookie == Some(env.sessionCookie(user))
            && SessionUserOf(user, users[step.index], env.companies)
  {
    if step.Matched? && Populate(users[step.index], env.companies).Document? {
      UserEntryRead(AuthUser(users[step.index], env.companies).value);
      AuthUserOf(users[step.index], env.companies);
    }
  }

  /** The `user` entry of a 200 body reads back as the object put there. */
  lemma UserEntryRead(authUser: JsVal)
    ensures PropertyRead(Obj([("success", Bool(true)), ("message", Str("Inicio de sesión exitoso")), ("user", authUser)]), "user") == authUser
  {
  }
}
