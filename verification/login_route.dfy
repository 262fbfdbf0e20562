/** `POST /api/auth/login`: the decision chain 400, 401, 403, 401, 200.
    Password comparison (`bcrypt.compare`) is the oracle `matches` and the
    current time is the parameter `now`. */
module LoginRoute {
  import opened Values
  import opened Records
  import opened Session

  datatype LoginBody = LoginBody(email: Option<string>, password: Option<string>)

  const MissingCredentials := "Email et mot de passe sont obligatoires"
  const InvalidCredentials := "Identifiants invalides"
  const AccountDisabled := "Compte désactivé. Contacte l’administrateur."
  const LoginFailed := "Erreur serveur lors du login"

  predicate HasCredentials(b: LoginBody) {
    Present(b.email) && Present(b.password)
  }

  /** Credentials that log in: a known, active account whose stored hash
      matches the password. */
  predicate Authenticated(b: LoginBody, s: Store, matches: (string, string) -> bool) {
    && HasCredentials(b)
    && var found := FindUserByEmail(s.users, b.email.value);
    && found.Some? && found.value.isActive && matches(b.password.value, found.value.passwordHash)
  }

  /** `POST(req)`. The first failing check decides: 500 for a body that is
      not JSON or is `null`, 400 without e-mail or password, 401 for an unknown
      e-mail, 403 for a disabled account (before the password is looked
      at), 401 with the same message for a wrong password. Only a
      successful login records the login time and sets the cookie; its
      body is the user's projection, agency reduced to its brief. */
  function Post(body: Option<LoginBody>, s: Store, matches: (string, string) -> bool, now: int)
    : (r: Reply<UserView>)
    ensures body.None? ==> r.status == ServerError && r.body == Failed(LoginFailed)
    ensures body.Some? && !HasCredentials(body.value) ==>
              r.status == BadRequest && r.body == Failed(MissingCredentials)
    ensures (body.Some? && HasCredentials(body.value)
             && FindUserByEmail(s.users, body.value.email.value).None?)
            ==> r.status == Unauthorized && r.body == Failed(InvalidCredentials)
    ensures (body.Some? && HasCredentials(body.value)
             && FindUserByEmail(s.users, body.value.email.value).Some?
             && !FindUserByEmail(s.users, body.value.email.value).value.isActive)
            ==> r.status == Forbidden && r.body == Failed(AccountDisabled)
    ensures (body.Some? && HasCredentials(body.value)
             && FindUserByEmail(s.users, body.value.email.value).Some?
             && FindUserByEmail(s.users, body.value.email.value).value.isActive
             && !matches(body.value.password.value, FindUserByEmail(s.users, body.value.email.value).value.passwordHash))
            ==> r.status == Unauthorized && r.body == Failed(InvalidCredentials)
    ensures r.status == Ok <==> body.Some? && Authenticated(body.value, s, matches)
    ensures r.status != Ok ==> r.store == s && r.cookie.None? && r.body.Failed?
    ensures r.status == Ok ==> (
      && var u := FindUserByEmail(s.users, body.value.email.value).value;
      && r.body == Done(ViewOf(s, u))
      && r.cookie == Some(AuthCookie(Summary(u)))
      && r.store == s.(users := TouchLogin(s.users, u.id, now)))
    ensures Valid(s) ==> Valid(r.store)
  {
    match body
    case None => Fail(ServerError, LoginFailed, s)
    case Some(b) =>
      if !HasCredentials(b) then Fail(BadRequest, MissingCredentials, s)
      else match FindUserByEmail(s.users, b.email.value)
        case None => Fail(Unauthorized, InvalidCredentials, s)
        case Some(u) =>
          if !u.isActive then Fail(Forbidden, AccountDisabled, s)
          else if !matches(b.password.value, u.passwordHash) then Fail(Unauthorized, InvalidCredentials, s)
          else
            var s' := s.(users := TouchLogin(s.users, u.id, now));
            assert Valid(s) ==> Valid(s') by {
              if Valid(s) { TouchLoginValid(s, u.id, now); }
            }
            Reply(Ok, Done(ViewOf(s, u)), s', Some(AuthCookie(Summary(u))))
  }

  /** A wrong password and an unknown e-mail cannot be told apart from the
      reply. */
  lemma WrongPasswordLooksLikeUnknownEmail(b: LoginBody, s: Store, matches: (string, string) -> bool, now: int)
    requires HasCredentials(b)
    requires FindUserByEmail(s.users, b.email.value).Some?
    requires FindUserByEmail(s.users, b.email.value).value.isActive
    requires !matches(b.password.value, FindUserByEmail(s.users, b.email.value).value.passwordHash)
    ensures Post(Some(b), s, matches, now) == Post(Some(b), s.(users := []), matches, now).(store := s)
  {
  }
}
