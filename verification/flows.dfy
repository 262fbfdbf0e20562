/** Requests chained across routes: registering and then logging in, and
    logging in and then asking who is logged in. */
module Flows {
  import opened Values
  import opened Records
  import opened Session
  import AppRegisterRoute
  import LoginRoute

  /** The login body for the credentials a registration used. */
  function LoginFor(b: AppRegisterRoute.RegisterBody): LoginRoute.LoginBody {
    LoginRoute.LoginBody(b.email, b.password)
  }

  /** The user a successful registration stored. */
  lemma RegisteredUserFound(b: AppRegisterRoute.RegisterBody, s: Store, hash: string -> string)
    requires AppRegisterRoute.Accepted(b, s)
    ensures var s' := AppRegisterRoute.Post(Some(b), s, hash).store;
      && |s'.users| == |s.users| + 1
      && FindUserByEmail(s'.users, b.email.value) == Some(s'.users[|s.users|])
      && s'.users[|s.users|].isActive
      && s'.users[|s.users|].passwordHash == hash(b.password.value)
  {
    var s' := AppRegisterRoute.Post(Some(b), s, hash).store;
    if AppRegisterRoute.IsAgencyOwner(b.accountType) {
      AppRegisterRoute.OwnerRegistration(b, s, hash);
    } else {
      AppRegisterRoute.UserOnlyRegistration(b, s, hash);
    }
    assert s'.users == s.users + [s'.users[|s.users|]];
    FindAppendedUser(s.users, s'.users[|s.users|]);
  }

  /** A fresh account can log in at once with the password it registered,
      whenever the password check accepts a password against its own
      hash. */
  lemma RegisterThenLogin(b: AppRegisterRoute.RegisterBody, s: Store, hash: string -> string,
                          matches: (string, string) -> bool, now: int)
    requires AppRegisterRoute.Accepted(b, s)
    requires matches(b.password.value, hash(b.password.value))
    ensures LoginRoute.Post(Some(LoginFor(b)), AppRegisterRoute.Post(Some(b), s, hash).store, matches, now).status == Ok
  {
    RegisteredUserFound(b, s, hash);
  }

  /** After a successful login, the cookie it sets leads back to the user
      the login returned, given a verifier that recovers the claims the
      cookie was issued with. */
  lemma LoginThenSession(b: LoginRoute.LoginBody, s: Store, matches: (string, string) -> bool, now: int,
                         token: string, verify: string -> Option<Claims>)
    requires Valid(s)
    requires LoginRoute.Post(Some(b), s, matches, now).status == Ok
    requires token != ""
    requires verify(token) == Some(LoginRoute.Post(Some(b), s, matches, now).cookie.value.token.claims)
    ensures var r := LoginRoute.Post(Some(b), s, matches, now);
      CurrentUser(Some(token), verify, r.store) == Some(r.body.value)
  {
    var r := LoginRoute.Post(Some(b), s, matches, now);
    var u := FindUserByEmail(s.users, b.email.value).value;
    var i :| 0 <= i < |s.users| && s.users[i] == u;
    var u' := r.store.users[i];
    assert u' == u.(lastLoginAt := Some(now));
    assert u' in r.store.users;
    SessionRoundTrip(r.store, u', token, verify);
    assert ViewOf(r.store, u') == ViewOf(s, u);
  }
}
