/** `/api/agencies` of the `app1/` generation: role-scoped reads, creation
    reserved to SUPER_ADMIN, and a slug derived from the agency's name. */
module App1AgenciesRoute {
  import opened Values
  import opened Records
  import opened Session
  import Slug
  import opened AppAgenciesRoute

  const NotAuthenticated := "Non authentifié"
  const OnlySuperAdmin := "Seul le SUPER_ADMIN peut créer des agences"

  /** `GET()` for the current user `user`: 401 without a session, every
      agency for SUPER_ADMIN, otherwise at most the caller's own agency
      (none when the caller has no agency or it no longer exists). */
  function Get(user: Option<UserView>, s: Store): (r: Reply<seq<Agency>>)
    ensures r.store == s && r.cookie.None?
    ensures user.None? <==> r.status == Unauthorized
    ensures user.None? ==> r.body.Failed?
    ensures user.Some? ==> r.status == Ok && r.body.Done?
    ensures user.Some? && user.value.role == SuperAdmin ==> multiset(r.body.value) == multiset(s.agencies)
    ensures user.Some? && user.value.role != SuperAdmin ==>
      && |r.body.value| <= 1
      && (forall a :: a in r.body.value ==> a in s.agencies && user.value.agencyId == Some(a.id))
      && (user.value.agencyId.Some? && HasAgency(s, user.value.agencyId.value) ==> |r.body.value| == 1)
  {
    match user
    case None => Fail(Unauthorized, NotAuthenticated, s)
    case Some(u) =>
      if u.role == SuperAdmin then Reply(Ok, Done(s.agencies), s, None)
      else match u.agencyId
        case None => Reply(Ok, Done([]), s, None)
        case Some(id) =>
          match FindAgency(s.agencies, id)
          case None => Reply(Ok, Done([]), s, None)
          case Some(a) => Reply(Ok, Done([a]), s, None)
  }

  /** `POST(req)`: 401 without a session, then 403 for anyone but
      SUPER_ADMIN before the body is read, then 500 for a body that is
      not JSON or is `null`, then 400 when the name, city or country is
      missing.
      A created agency carries the slug of its name. */
  function Post(user: Option<UserView>, body: Option<AgencyBody>, s: Store): (r: Reply<Agency>)
    ensures user.None? ==> r.status == Unauthorized && r.body == Failed(NotAuthenticated)
    ensures user.Some? && user.value.role != SuperAdmin ==>
              r.status == Forbidden && r.body == Failed(OnlySuperAdmin)
    ensures user.Some? && user.value.role == SuperAdmin && body.None? ==>
              r.status == ServerError && r.body == Failed(CreateFailed)
    ensures (user.Some? && user.value.role == SuperAdmin && body.Some?
             && !HasRequiredFields(body.value)) ==> r.status == BadRequest && r.body == Failed(MissingFields)
    ensures (r.status == Created <==>
             user.Some? && user.value.role == SuperAdmin && body.Some? && HasRequiredFields(body.value))
    ensures r.status != Created ==> r.store == s && r.body.Failed?
    ensures r.status == Created ==> r.body.Done? && var a := r.body.value;
      && a == NewAgency(body.value, Some(Slug.Slugify(body.value.name))).(id := s.nextId)
      && r.store.agencies == s.agencies + [a]
      && r.store.users == s.users && r.store.listings == s.listings
      && r.store.images == s.images && r.store.nextId == s.nextId + 1
      && r.store == s.(agencies := s.agencies + [a], nextId := s.nextId + 1)
    ensures r.cookie.None?
    ensures Valid(s) ==> Valid(r.store)
  {
    match user
    case None => Fail(Unauthorized, NotAuthenticated, s)
    case Some(u) =>
      if u.role != SuperAdmin then Fail(Forbidden, OnlySuperAdmin, s)
      else match body
        case None => Fail(ServerError, CreateFailed, s)
        case Some(b) =>
          if !HasRequiredFields(b) then Fail(BadRequest, MissingFields, s)
          else
            var (s', a) := CreateAgency(s, NewAgency(b, Some(Slug.Slugify(b.name))));
            Reply(Created, Done(a), s', None)
  }

  /** For a SUPER_ADMIN the two generations store the same agency under the
      same id and differ only in the slug, which only `app1/` sets. */
  lemma DiffersFromAppOnlyInSlug(user: UserView, body: Option<AgencyBody>, s: Store)
    requires user.role == SuperAdmin
    ensures var r1 := Post(Some(user), body, s);
      var r2 := AppAgenciesRoute.Post(body, s);
      && r1.status == r2.status
      && (r1.status != Created ==> r1.store == r2.store)
      && (r1.status == Created ==>
            && r1.body.value == r2.body.value.(slug := Some(Slug.Slugify(body.value.name)))
            && r1.store == r2.store.(agencies := s.agencies + [r1.body.value]))
  {
  }
}
