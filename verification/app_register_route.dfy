/** `POST /api/auth/register` of the `app/` generation. An account is either
    an agency owner (the default) or a plain user (`accountType` "USER_ONLY").
    The first agency owner ever registered becomes SUPER_ADMIN. Password
    hashing is an oracle `hash`. */
module AppRegisterRoute {
  import opened Values
  import opened Strings
  import opened Records
  import opened Session
  import Slug

  /** The JSON body fields the route reads. */
  datatype RegisterBody = RegisterBody(
    email: Option<string>, password: Option<string>, name: Option<string>,
    accountType: Option<string>, agencyName: Option<string>, city: Option<string>,
    country: Option<string>, phone: Option<string>)

  /** The success body: the created user, the created agency (null for a
      plain user) and the account type. */
  datatype Registered = Registered(user: UserSummary, agency: Option<Agency>, accountType: string)

  const MissingCredentials := "email et password sont obligatoires"
  const MissingAgencyFields := "Pour un compte agence, agencyName, city et country sont obligatoires"
  const EmailTaken := "Un utilisateur avec cet email existe déjà"
  const RegisterFailed := "Erreur serveur lors de l’inscription"

  /** Every account type other than "USER_ONLY", an absent one included,
      is an agency owner. */
  predicate IsAgencyOwner(accountType: Option<string>) {
    accountType != Some("USER_ONLY")
  }

  predicate HasCredentials(b: RegisterBody) {
    Present(b.email) && Present(b.password)
  }

  predicate HasAgencyFields(b: RegisterBody) {
    Present(b.agencyName) && Present(b.city) && Present(b.country)
  }

  /** The requests that create an account: credentials, agency fields for
      an owner, and an e-mail no user has. */
  predicate Accepted(b: RegisterBody, s: Store) {
    && HasCredentials(b)
    && (IsAgencyOwner(b.accountType) ==> HasAgencyFields(b))
    && FindUserByEmail(s.users, b.email.value).None?
  }

  /** `email.split("@")[0]`: the part before the first "@". */
  function LocalPart(email: string): (r: string)
    ensures '@' !in r
    ensures StartsWith(email, r)
    ensures '@' !in email ==> r == email
    ensures '@' in email ==> |r| < |email| && email[|r|] == '@'
  {
    var pieces := Split(email, '@');
    assert pieces[0] in pieces;
    LocalPartIsPrefix(email);
    pieces[0]
  }

  lemma LocalPartIsPrefix(email: string)
    ensures StartsWith(email, Split(email, '@')[0])
  {
    if '@' in email {
      var i := IndexOf(email, '@');
      assert Split(email, '@')[0] == email[..i];
    }
  }

  /** `name || agencyName || email.split("@")[0] || "Utilisateur"`: the
      first of the candidates that is not empty, so never empty itself. */
  function DefaultName(name: Option<string>, agencyName: Option<string>, email: string): (r: string)
    ensures r != ""
    ensures Present(name) ==> r == name.value
    ensures !Present(name) && Present(agencyName) ==> r == agencyName.value
    ensures !Present(name) && !Present(agencyName) && LocalPart(email) != "" ==> r == LocalPart(email)
    ensures !Present(name) && !Present(agencyName) && LocalPart(email) == "" ==> r == "Utilisateur"
  {
    if Present(name) then name.value
    else if Present(agencyName) then agencyName.value
    else if LocalPart(email) != "" then LocalPart(email)
    else "Utilisateur"
  }

  /** The role of a new agency owner: SUPER_ADMIN for the very first user. */
  function OwnerRole(s: Store): (r: Role)
    ensures r == SuperAdmin <==> |s.users| == 0
    ensures r != SuperAdmin ==> r == AgencyAdmin
  {
    if |s.users| == 0 then SuperAdmin else AgencyAdmin
  }

  /** Agency and owner created together (the transaction). */
  function RegisterOwner(b: RegisterBody, s: Store, hash: string -> string): (r: Reply<Registered>)
    requires Accepted(b, s) && IsAgencyOwner(b.accountType)
    ensures r.status == Created && r.body.Done? && r.cookie.Some?
    ensures r.body.value.agency.Some? && r.body.value.accountType == "AGENCY_OWNER"
    ensures var a := r.body.value.agency.value;
      && a.name == b.agencyName.value && a.city == b.city.value && a.country == b.country.value
      && a.slug == Some(Slug.Slugify(b.agencyName)) && a.email == b.email && a.phone == OrNull(b.phone)
      && r.store.agencies == s.agencies + [a]
    ensures var u := r.body.value.user;
      && u.agencyId == Some(r.body.value.agency.value.id)
      && (u.role == SuperAdmin <==> |s.users| == 0) && (u.role != SuperAdmin ==> u.role == AgencyAdmin)
      && u.email == b.email.value && u.name == DefaultName(b.name, b.agencyName, b.email.value)
      && |r.store.users| == |s.users| + 1 && r.store.users[..|s.users|] == s.users
      && Summary(r.store.users[|s.users|]) == u
      && r.store.users[|s.users|].passwordHash == hash(b.password.value)
      && r.store.users[|s.users|].isActive
      && r.cookie == Some(AuthCookie(u))
    ensures r.store.listings == s.listings && r.store.images == s.images
    ensures Valid(s) ==> Valid(r.store)
  {
    var (s1, agency) := CreateAgency(s, Agency(0, b.agencyName.value, Some(Slug.Slugify(b.agencyName)),
                                               b.city.value, b.country.value, b.email, OrNull(b.phone)));
    var draft := User(0, b.email.value, DefaultName(b.name, b.agencyName, b.email.value),
                      hash(b.password.value), OwnerRole(s), Some(agency.id), NewAccountActive, None);
    assert HasAgency(s1, agency.id) by { assert agency in s1.agencies; }
    var (s2, user) := CreateUser(s1, draft);
    var summary := Summary(user);
    Reply(Created, Done(Registered(summary, Some(agency), "AGENCY_OWNER")), s2, Some(AuthCookie(summary)))
  }

  /** A plain user: role AGENT, no agency, no agency created. */
  function RegisterUserOnly(b: RegisterBody, s: Store, hash: string -> string): (r: Reply<Registered>)
    requires Accepted(b, s)
    ensures r.status == Created && r.body.Done? && r.cookie.Some?
    ensures r.body.value.agency.None? && r.body.value.accountType == "USER_ONLY"
    ensures var u := r.body.value.user;
      && u.role == Agent && u.agencyId.None?
      && u.email == b.email.value && u.name == DefaultName(b.name, b.agencyName, b.email.value)
      && |r.store.users| == |s.users| + 1 && r.store.users[..|s.users|] == s.users
      && Summary(r.store.users[|s.users|]) == u
      && r.store.users[|s.users|].passwordHash == hash(b.password.value)
      && r.store.users[|s.users|].isActive
      && r.cookie == Some(AuthCookie(u))
    ensures r.store.agencies == s.agencies && r.store.listings == s.listings && r.store.images == s.images
    ensures Valid(s) ==> Valid(r.store)
  {
    var draft := User(0, b.email.value, DefaultName(b.name, b.agencyName, b.email.value),
                      hash(b.password.value), Agent, None, NewAccountActive, None);
    var (s1, user) := CreateUser(s, draft);
    var summary := Summary(user);
    Reply(Created, Done(Registered(summary, None, "USER_ONLY")), s1, Some(AuthCookie(summary)))
  }

  /** `POST(req)`. `body` is `None` when the request body is not JSON or
      is `null`; any other JSON value reads every field as absent. Checks
      run in order and the first failing one decides the reply: credentials, then agency fields for an owner, then the e-mail;
      every failure leaves the store as it was and sets no cookie. */
  function Post(body: Option<RegisterBody>, s: Store, hash: string -> string): (r: Reply<Registered>)
    ensures body.None? ==> r.status == ServerError && r.store == s && r.body == Failed(RegisterFailed)
    ensures body.Some? && !HasCredentials(body.value) ==>
              r.status == BadRequest && r.store == s && r.body == Failed(MissingCredentials)
    ensures (body.Some? && HasCredentials(body.value) && IsAgencyOwner(body.value.accountType)
             && !HasAgencyFields(body.value)) ==>
              r.status == BadRequest && r.store == s && r.body == Failed(MissingAgencyFields)
    ensures (body.Some? && HasCredentials(body.value)
             && !(IsAgencyOwner(body.value.accountType) && !HasAgencyFields(body.value))
             && FindUserByEmail(s.users, body.value.email.value).Some?) ==>
              r.status == BadRequest && r.store == s && r.body == Failed(EmailTaken)
    ensures r.status == Created <==> body.Some? && Accepted(body.value, s)
    ensures r.status != Created ==> r.store == s && r.cookie.None? && r.body.Failed?
    ensures Valid(s) ==> Valid(r.store)
  {
    match body
    case None => Fail(ServerError, RegisterFailed, s)
    case Some(b) =>
      if !HasCredentials(b) then Fail(BadRequest, MissingCredentials, s)
      else if IsAgencyOwner(b.accountType) && !HasAgencyFields(b) then Fail(BadRequest, MissingAgencyFields, s)
      else if FindUserByEmail(s.users, b.email.value).Some? then Fail(BadRequest, EmailTaken, s)
      else if IsAgencyOwner(b.accountType) then RegisterOwner(b, s, hash)
      else RegisterUserOnly(b, s, hash)
  }

  /** An accepted agency owner: a new agency whose slug is derived from its
      name and whose contact e-mail is the user's, and a new user linked to
      it, SUPER_ADMIN exactly when no user existed before. */
  lemma OwnerRegistration(b: RegisterBody, s: Store, hash: string -> string)
    requires Accepted(b, s) && IsAgencyOwner(b.accountType)
    ensures var r := Post(Some(b), s, hash);
      && r.body.Done? && r.body.value.agency.Some? && r.body.value.accountType == "AGENCY_OWNER"
      && var u := r.body.value.user;
      && var a := r.body.value.agency.value;
      && (u.role == SuperAdmin <==> |s.users| == 0)
      && (u.role != SuperAdmin ==> u.role == AgencyAdmin)
      && u.agencyId == Some(a.id)
      && u.email == b.email.value
      && u.name == DefaultName(b.name, b.agencyName, b.email.value)
      && a.name == b.agencyName.value && a.city == b.city.value && a.country == b.country.value
      && a.slug == Some(Slug.Slugify(b.agencyName))
      && a.email == b.email
      && a.phone == OrNull(b.phone)
      && r.store.agencies == s.agencies + [a]
      && |r.store.users| == |s.users| + 1 && r.store.users[..|s.users|] == s.users
      && Summary(r.store.users[|s.users|]) == u
      && r.store.users[|s.users|].passwordHash == hash(b.password.value)
      && r.store.users[|s.users|].isActive
      && r.cookie == Some(AuthCookie(u))
  {
    assert s.users + [Post(Some(b), s, hash).store.users[|s.users|]] == Post(Some(b), s, hash).store.users;
  }

  /** An accepted "USER_ONLY" account is an AGENT without agency, even as
      the very first user, and no agency is created. */
  lemma UserOnlyRegistration(b: RegisterBody, s: Store, hash: string -> string)
    requires Accepted(b, s) && !IsAgencyOwner(b.accountType)
    ensures var r := Post(Some(b), s, hash);
      && r.body.Done? && r.body.value.agency.None? && r.body.value.accountType == "USER_ONLY"
      && r.body.value.user.role == Agent
      && r.body.value.user.agencyId.None?
      && r.body.value.user.name == DefaultName(b.name, b.agencyName, b.email.value)
      && r.store.agencies == s.agencies
      && |r.store.users| == |s.users| + 1 && r.store.users[..|s.users|] == s.users
      && r.store.users[|s.users|].passwordHash == hash(b.password.value)
      && r.store.users[|s.users|].isActive
      && r.cookie == Some(AuthCookie(r.body.value.user))
  {
    assert s.users + [Post(Some(b), s, hash).store.users[|s.users|]] == Post(Some(b), s, hash).store.users;
  }
}
