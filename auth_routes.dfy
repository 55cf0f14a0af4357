/** `POST /auth/login` and `POST /auth/change-password`. `bcrypt.compare` is the
    parameter `matches`, `bcrypt.hash` the value `newHash`, and `signJwt` the
    parameter `sign`; the signer's secret and expiry are not modelled. */
module AuthRoutes {
  import opened Js
  import opened Db
  import opened Http
  import opened Middleware

  /** The login reply: the token and the user without the password hash. */
  datatype LoginReply = LoginReply(token: string, user: UserView)

  /** The claims a login signs: the user's id, agency and role. */
  function ClaimsOf(u: User): (c: Claims)
    ensures c.userId == u.id && c.agencyId == u.agencyId && c.role == u.role && c.extra == map[]
  {
    Claims(u.id, u.agencyId, u.role, map[])
  }

  /** What the login handler answers against the given users. An unknown
      e-mail and a wrong password get the very same reply. */
  function LoginOutcome(
    users: map<string, User>, body: Value, matches: (string, string) -> bool, sign: Claims -> string)
    : (resp: Response<LoginReply>)
    requires EmailsUnique(users)
    ensures !IsNonEmptyString(Field(body, "email")) ==> resp == Error(400, "email é obrigatório")
    ensures IsNonEmptyString(Field(body, "email")) && !IsNonEmptyString(Field(body, "password"))
            ==> resp == Error(400, "password é obrigatório")
    ensures resp.status == 200 || resp.status == 400 || resp == Error(401, "Credenciais inválidas")
    ensures IsNonEmptyString(Field(body, "email")) && IsNonEmptyString(Field(body, "password"))
            && !EmailTaken(users, NormalizeKey(Field(body, "email").s))
            ==> resp == Error(401, "Credenciais inválidas")
    ensures IsNonEmptyString(Field(body, "email")) && IsNonEmptyString(Field(body, "password")) ==>
      forall id :: id in users && users[id].email == NormalizeKey(Field(body, "email").s) ==>
        && (resp.status == 200 <==> matches(Field(body, "password").s, users[id].passwordHash))
        && (resp.status == 200 ==> resp == Response(200, Json(LoginReply(sign(ClaimsOf(users[id])), ViewOf(users[id])))))
        && (!matches(Field(body, "password").s, users[id].passwordHash) ==> resp == Error(401, "Credenciais inválidas"))
  {
    var email := Field(body, "email");
    var password := Field(body, "password");
    if !IsNonEmptyString(email) then Error(400, "email é obrigatório")
    else if !IsNonEmptyString(password) then Error(400, "password é obrigatório")
    else match UserWithEmail(users, NormalizeKey(email.s))
      case None => Error(401, "Credenciais inválidas")
      case Some(u) =>
        if !matches(password.s, u.passwordHash) then Error(401, "Credenciais inválidas")
        else Response(200, Json(LoginReply(sign(ClaimsOf(u)), ViewOf(u))))
  }

  /** The login handler: one lookup by the normalised e-mail, then the
      password check. */
  method Login(db: Store, body: Value, matches: (string, string) -> bool, sign: Claims -> string)
    returns (resp: Response<LoginReply>)
    requires db.Valid()
    ensures resp == LoginOutcome(db.users, body, matches, sign)
  {
    var email := Field(body, "email");
    var password := Field(body, "password");
    if !IsNonEmptyString(email) {
      return Error(400, "email é obrigatório");
    }
    if !IsNonEmptyString(password) {
      return Error(400, "password é obrigatório");
    }
    var user := db.FindUserByEmail(NormalizeKey(email.s));
    if user.None? {
      return Error(401, "Credenciais inválidas");
    }
    var u := user.value;
    if !matches(password.s, u.passwordHash) {
      return Error(401, "Credenciais inválidas");
    }
    resp := Response(200, Json(LoginReply(sign(ClaimsOf(u)), ViewOf(u))));
  }

  /** A token as `jsonwebtoken` prints it: no white space at either end. */
  predicate TokenShaped(token: string) {
    token != [] ==> !IsSpace(token[0]) && !IsSpace(token[|token| - 1])
  }

  /** A token issued at login, sent back as "Bearer <token>", passes the auth
      gate with the identity of the user who logged in, provided `verify`
      recovers the signed claims. */
  lemma IssuedTokenAuthenticates(u: User, sign: Claims -> string, verify: string -> Option<Claims>, extra: map<string, Value>)
    requires TokenShaped(sign(ClaimsOf(u)))
    requires verify(sign(ClaimsOf(u))) == Some(ClaimsOf(u).(extra := extra))
    ensures Authenticate(Some(BearerPrefix + sign(ClaimsOf(u))), verify) == Admit(AuthUser(u.id, u.agencyId, u.role))
  {
    var token := sign(ClaimsOf(u));
    var header := BearerPrefix + token;
    assert header[..|BearerPrefix|] == BearerPrefix;
    assert header[|BearerPrefix|..] == token;
    TrimOfTrimmed(token);
  }

  /** What the change-password handler answers against the given users. */
  function ChangePasswordOutcome(
    users: map<string, User>, user: Option<AuthUser>, body: Value, matches: (string, string) -> bool)
    : (resp: Response<()>)
    ensures user.None? || user.value.userId == "" ==> resp == Error(401, "Não autorizado")
    ensures user.Some? && user.value.userId != "" && !IsNonEmptyString(Field(body, "currentPassword"))
            ==> resp == Error(400, "currentPassword é obrigatório")
    ensures user.Some? && user.value.userId != "" && IsNonEmptyString(Field(body, "currentPassword"))
            && !(IsNonEmptyString(Field(body, "newPassword")) && |Field(body, "newPassword").s| >= 6)
            ==> resp == Error(400, "newPassword é obrigatório (mín 6)")
    ensures resp.status == 404 <==>
      && user.Some? && user.value.userId != ""
      && IsNonEmptyString(Field(body, "currentPassword"))
      && IsNonEmptyString(Field(body, "newPassword")) && |Field(body, "newPassword").s| >= 6
      && user.value.userId !in users
    ensures resp.status == 200 <==>
      && user.Some? && user.value.userId != ""
      && IsNonEmptyString(Field(body, "currentPassword"))
      && IsNonEmptyString(Field(body, "newPassword")) && |Field(body, "newPassword").s| >= 6
      && user.value.userId in users
      && matches(Field(body, "currentPassword").s, users[user.value.userId].passwordHash)
    ensures resp.status == 200 ==> resp == Response(200, Message("Senha atualizada com sucesso"))
    ensures user.Some? && user.value.userId != "" && user.value.userId in users
            && IsNonEmptyString(Field(body, "currentPassword"))
            && IsNonEmptyString(Field(body, "newPassword")) && |Field(body, "newPassword").s| >= 6
            && !matches(Field(body, "currentPassword").s, users[user.value.userId].passwordHash)
            ==> resp == Error(401, "Senha atual incorreta")
    ensures resp.status == 404 ==> resp == Error(404, "Usuário não encontrado")
  {
    var current := Field(body, "currentPassword");
    var next := Field(body, "newPassword");
    if user.None? || user.value.userId == "" then Error(401, "Não autorizado")
    else if !IsNonEmptyString(current) then Error(400, "currentPassword é obrigatório")
    else if !IsNonEmptyString(next) || |next.s| < 6 then Error(400, "newPassword é obrigatório (mín 6)")
    else if user.value.userId !in users then Error(404, "Usuário não encontrado")
    else if !matches(current.s, users[user.value.userId].passwordHash) then Error(401, "Senha atual incorreta")
    else Response(200, Message("Senha atualizada com sucesso"))
  }

  /** The change-password handler; `newHash` is `bcrypt.hash(newPassword, 10)`.
      Only a 200 changes the database, and then only the caller's hash. */
  method ChangePassword(
    db: Store, user: Option<AuthUser>, body: Value, matches: (string, string) -> bool, newHash: string)
    returns (resp: Response<()>)
    requires db.Valid()
    modifies db
    ensures db.Valid()
    ensures resp == ChangePasswordOutcome(old(db.users), user, body, matches)
    ensures db.users == if resp.status == 200 then WithPasswordHash(old(db.users), user.value.userId, newHash) else old(db.users)
    ensures db.agencies == old(db.agencies) && db.vouchers == old(db.vouchers)
  {
    if user.None? || user.value.userId == "" {
      return Error(401, "Não autorizado");
    }
    var current := Field(body, "currentPassword");
    var next := Field(body, "newPassword");
    if !IsNonEmptyString(current) {
      return Error(400, "currentPassword é obrigatório");
    }
    if !IsNonEmptyString(next) || |next.s| < 6 {
      return Error(400, "newPassword é obrigatório (mín 6)");
    }
    var id := user.value.userId;
    if id !in db.users {
      return Error(404, "Usuário não encontrado");
    }
    if !matches(current.s, db.users[id].passwordHash) {
      return Error(401, "Senha atual incorreta");
    }
    var fault := db.SetPasswordHash(id, newHash);
    resp := Response(200, Message("Senha atualizada com sucesso"));
  }

  /** After a successful change, logging in with the new password succeeds
      (for any spelling of the e-mail that normalises to the stored one), and
      the token carries the same identity as before. */
  lemma NewPasswordLogsIn(
    users: map<string, User>, user: Option<AuthUser>, body: Value, matches: (string, string) -> bool,
    newHash: string, loginEmail: string, sign: Claims -> string)
    requires EmailsUnique(users)
    requires ChangePasswordOutcome(users, user, body, matches).status == 200
    requires matches(Field(body, "newPassword").s, newHash)
    requires loginEmail != "" && NormalizeKey(loginEmail) == users[user.value.userId].email
    ensures var id := user.value.userId;
      var after := WithPasswordHash(users, id, newHash);
      var login := Obj(map["email" := Str(loginEmail), "password" := Field(body, "newPassword")]);
      && EmailsUnique(after)
      && LoginOutcome(after, login, matches, sign)
         == Response(200, Json(LoginReply(sign(ClaimsOf(users[id])), ViewOf(users[id]))))
  {
    var id := user.value.userId;
    var after := WithPasswordHash(users, id, newHash);
    var login := Obj(map["email" := Str(loginEmail), "password" := Field(body, "newPassword")]);
    assert Field(login, "email") == Str(loginEmail);
    assert Field(login, "password") == Field(body, "newPassword");
    assert id in after && after[id].email == NormalizeKey(loginEmail);
    assert ClaimsOf(after[id]) == ClaimsOf(users[id]) && ViewOf(after[id]) == ViewOf(users[id]);
  }
}
