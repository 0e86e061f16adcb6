/**
 * The admin login route (`POST /api/auth/login`): the request checks, the
 * lookup of the admin by lower-cased email, the password check, and the
 * session written only once both have passed.
 */
module LoginApi {
  import opened Wrappers
  import opened Text
  import opened Http
  import opened Session
  import Db

  const MissingCredentialsMessage := "Email e senha são obrigatórios."
  const InvalidCredentialsMessage := "Credenciais inválidas."
  const InternalErrorPrefix := "Erro interno no servidor: "

  /** The JSON body; a field the client left out is `None`. */
  datatype LoginBody = LoginBody(email: Option<string>, password: Option<string>)

  /** The JSON the route answers with. */
  datatype Reply =
    | LoggedIn(isLoggedIn: bool, id: string, email: string, name: string)
    | Message(message: string)

  /** A JavaScript falsy body field: absent or the empty string. */
  predicate Falsy(v: Option<string>) {
    v.None? || v.value == ""
  }

  /** `findUnique({ where: { email } })` over the admin table. */
  function UserByEmail(users: seq<Db.AdminUser>, email: string): (r: Option<Db.AdminUser>)
    ensures r.Some? ==> r.value in users && r.value.email == email
    ensures r.None? <==> forall u :: u in users ==> u.email != email
  {
    if users == [] then None
    else if users[0].email == email then Some(users[0])
    else UserByEmail(users[1..], email)
  }

  /**
   * The admin the credentials sign in: the one stored under the lower-cased
   * email, if `compare` (the password hash check) accepts the password for
   * that admin's hash.
   */
  function Authenticated(users: seq<Db.AdminUser>, email: string, password: string,
                         compare: (string, string) -> bool): (r: Option<Db.AdminUser>)
    ensures r.Some? ==> r.value in users && r.value.email == ToLower(email)
                        && compare(password, r.value.passwordHash)
    ensures r.None? <==> UserByEmail(users, ToLower(email)).None?
                         || !compare(password, UserByEmail(users, ToLower(email)).value.passwordHash)
  {
    match UserByEmail(users, ToLower(email))
    case None => None
    case Some(user) => if compare(password, user.passwordHash) then Some(user) else None
  }

  /** The letter case of the email typed in does not matter. */
  lemma {:induction false} EmailCaseIgnored(users: seq<Db.AdminUser>, email: string, password: string,
                                            compare: (string, string) -> bool)
    ensures Authenticated(users, email, password, compare)
            == Authenticated(users, ToLower(email), password, compare)
  {
    ToLowerIdempotent(email);
  }

  /** What the session keeps of an admin: never the password hash. */
  function SessionUserOf(user: Db.AdminUser): (s: SessionUser)
    ensures s.id == user.id && s.email == user.email && s.name == user.name
  {
    SessionUser(user.id, user.email, user.name)
  }

  /**
   * `loginRoute`. `users` is the admin table, `compare` the password hash
   * check, `lookupError` what the lookup throws and `saveError` what saving
   * the session throws, if anything. `session` is the admin user the saved
   * session cookie holds afterwards.
   */
  method Login(verb: string, body: LoginBody, users: seq<Db.AdminUser>,
               compare: (string, string) -> bool, lookupError: Option<string>, saveError: Option<string>)
    returns (res: Response<Reply>, session: Option<SessionUser>)
    ensures verb != "POST" ==> res == Response(405, ["POST"], Message(NotAllowedMessage(verb))) && session.None?
    ensures verb == "POST" && (Falsy(body.email) || Falsy(body.password)) ==>
              res == Response(400, [], Message(MissingCredentialsMessage)) && session.None?
    ensures verb == "POST" && !Falsy(body.email) && !Falsy(body.password) ==>
              var found := Authenticated(users, body.email.value, body.password.value, compare);
              if lookupError.Some? then
                res == Response(500, [], Message(InternalErrorPrefix + lookupError.value)) && session.None?
              else if found.None? then
                res == Response(401, [], Message(InvalidCredentialsMessage)) && session.None?
              else if saveError.Some? then
                res == Response(500, [], Message(InternalErrorPrefix + saveError.value)) && session.None?
              else
                && res == Response(200, [], LoggedIn(true, found.value.id, found.value.email, found.value.name))
                && session == Some(SessionUserOf(found.value))
    ensures session.Some? ==>
              && body.email.Some? && body.password.Some?
              && Authenticated(users, body.email.value, body.password.value, compare).Some?
              && res.status == 200
    ensures res.status == 401 ==> res == Response(401, [], Message(InvalidCredentialsMessage))
  {
    session := None;
    if verb != "POST" {
      return Response(405, ["POST"], Message(NotAllowedMessage(verb))), None;
    }
    if Falsy(body.email) || Falsy(body.password) {
      return Response(400, [], Message(MissingCredentialsMessage)), None;
    }
    if lookupError.Some? {
      return Response(500, [], Message(InternalErrorPrefix + lookupError.value)), None;
    }
    var adminUser := UserByEmail(users, ToLower(body.email.value));
    if adminUser.None? {
      return Response(401, [], Message(InvalidCredentialsMessage)), None;
    }
    var passwordIsValid := compare(body.password.value, adminUser.value.passwordHash);
    if !passwordIsValid {
      return Response(401, [], Message(InvalidCredentialsMessage)), None;
    }
    var stored := SessionUserOf(adminUser.value);
    if saveError.Some? {
      return Response(500, [], Message(InternalErrorPrefix + saveError.value)), None;
    }
    session := Some(stored);
    var user := adminUser.value;
    res := Response(200, [], LoggedIn(true, user.id, user.email, user.name));
  }
}
