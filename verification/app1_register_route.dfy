/** `POST /api/auth/register` of the `app1/` generation: every account comes
    with a new agency, all agency fields are required, and the first user
    ever registered becomes SUPER_ADMIN. */
module App1RegisterRoute {
  import opened Values
  import opened Records
  import opened Session
  import Slug
  import AppRegisterRoute

  datatype RegisterBody = RegisterBody(
    email: Option<string>, password: Option<string>, name: Option<string>,
    agencyName: Option<string>, city: Option<string>, country: Option<string>,
    phone: Option<string>)

  /** The success body: the user and the agency created together. */
  datatype Registered = Registered(user: UserSummary, agency: Agency)

  const MissingFields := "email, password, agencyName, city et country sont obligatoires"
  const EmailTaken := "Un utilisateur avec cet email existe déjà"
  const RegisterFailed := "Erreur serveur lors de l’inscription"

  predicate HasAllFields(b: RegisterBody) {
    Present(b.email) && Present(b.password) && Present(b.agencyName) && Present(b.city) && Present(b.country)
  }

  predicate Accepted(b: RegisterBody, s: Store) {
    HasAllFields(b) && FindUserByEmail(s.users, b.email.value).None?
  }

  function Register(b: RegisterBody, s: Store, hash: string -> string): (r: Reply<Registered>)
    requires Accepted(b, s)
    ensures r.status == Created && r.body.Done? && r.cookie.Some?
    ensures var a := r.body.value.agency;
      && a.name == b.agencyName.value && a.city == b.city.value && a.country == b.country.value
      && a.slug == Some(Slug.Slugify(b.agencyName)) && a.email == b.email && a.phone == OrNull(b.phone)
      && r.store.agencies == s.agencies + [a]
    ensures var u := r.body.value.user;
      && u.agencyId == Some(r.body.value.agency.id)
      && (u.role == SuperAdmin <==> |s.users| == 0) && (u.role != SuperAdmin ==> u.role == AgencyAdmin)
      && u.email == b.email.value && u.name == OrElse(b.name, b.agencyName.value)
      && |r.store.users| == |s.users| + 1 && r.store.users[..|s.users|] == s.users
      && Summary(r.store.users[|s.users|]) == u
      && r.store.users[|s.users|].passwordHash == hash(b.password.value)
      && r.store.users[|s.users|].isActive
      && r.cookie == Some(AuthCookie(u))
    ensures r.store.listings == s.listings && r.store.images == s.images
    ensures Valid(s) ==> Valid(r.store)
  {
    var (s1, agency) := CreateAgency(s, Agency(0, b.agencyName.value, Some(Slug.Slugify(b.agencyName)),
                                               b.city.value, b.country.value, b.email, OrNull(b.phone)));
    var draft := User(0, b.email.value, OrElse(b.name, b.agencyName.value), hash(b.password.value),
                      AppRegisterRoute.OwnerRole(s), Some(agency.id), NewAccountActive, None);
    assert HasAgency(s1, agency.id) by { assert agency in s1.agencies; }
    var (s2, user) := CreateUser(s1, draft);
    var summary := Summary(user);
    Reply(Created, Done(Registered(summary, agency)), s2, Some(AuthCookie(summary)))
  }

  /** `POST(req)`: every field but the name and phone is required, then the
      e-mail must be new; a failure changes nothing and sets no cookie. On
      success the user belongs to the new agency, is SUPER_ADMIN exactly
      when no user existed before, and receives the session cookie. */
  function Post(body: Option<RegisterBody>, s: Store, hash: string -> string): (r: Reply<Registered>)
    ensures body.None? ==> r.status == ServerError && r.store == s && r.body == Failed(RegisterFailed)
    ensures body.Some? && !HasAllFields(body.value) ==>
              r.status == BadRequest && r.store == s && r.body == Failed(MissingFields)
    ensures (body.Some? && HasAllFields(body.value)
             && FindUserByEmail(s.users, body.value.email.value).Some?) ==>
              r.status == BadRequest && r.store == s && r.body == Failed(EmailTaken)
    ensures r.status == Created <==> body.Some? && Accepted(body.value, s)
    ensures r.status != Created ==> r.store == s && r.cookie.None? && r.body.Failed?
    ensures r.status == Created ==> r.body.Done? && var u := r.body.value.user;
      && u.agencyId == Some(r.body.value.agency.id)
      && (u.role == SuperAdmin <==> |s.users| == 0)
      && r.store.agencies == s.agencies + [r.body.value.agency]
      && r.cookie == Some(AuthCookie(u))
    ensures Valid(s) ==> Valid(r.store)
  {
    match body
    case None => Fail(ServerError, RegisterFailed, s)
    case Some(b) =>
      if !HasAllFields(b) then Fail(BadRequest, MissingFields, s)
      else if FindUserByEmail(s.users, b.email.value).Some? then Fail(BadRequest, EmailTaken, s)
      else Register(b, s, hash)
  }

  /** The same request as the `app/` route sees it, with no account type. */
  function AsAppBody(b: RegisterBody): AppRegisterRoute.RegisterBody {
    AppRegisterRoute.RegisterBody(b.email, b.password, b.name, None, b.agencyName, b.city, b.country, b.phone)
  }

  /** The `app1/` route behaves as the `app/` route does for an agency owner:
      same status, same store, same cookie, same user and agency. The
      `app/` route's longer default-name chain never reaches past the agency
      name, which this route requires. */
  lemma AgreesWithAppOwner(b: RegisterBody, s: Store, hash: string -> string)
    ensures var r1 := Post(Some(b), s, hash);
      var r2 := AppRegisterRoute.Post(Some(AsAppBody(b)), s, hash);
      && r1.status == r2.status && r1.store == r2.store && r1.cookie == r2.cookie
      && (r1.body.Done? ==> r2.body.Done? && r2.body.value.user == r1.body.value.user
                            && r2.body.value.agency == Some(r1.body.value.agency))
  {
  }
}
