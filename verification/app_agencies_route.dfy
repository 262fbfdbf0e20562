/** `/api/agencies` of the `app/` generation: no authentication at all. */
module AppAgenciesRoute {
  import opened Values
  import opened Records
  import opened Session

  /** The JSON body fields the POST handler reads. */
  datatype AgencyBody = AgencyBody(
    name: Option<string>, city: Option<string>, country: Option<string>,
    email: Option<string>, phone: Option<string>)

  const MissingFields := "name, city et country sont obligatoires"
  const CreateFailed := "Erreur serveur lors de la création de l’agence"

  predicate HasRequiredFields(b: AgencyBody) {
    Present(b.name) && Present(b.city) && Present(b.country)
  }

  /** `GET()`: every agency, to anyone; only the order (newest first) is
      not modelled. */
  function Get(s: Store): (r: Reply<seq<Agency>>)
    ensures r.status == Ok && r.body.Done? && r.store == s && r.cookie.None?
    ensures multiset(r.body.value) == multiset(s.agencies)
  {
    Reply(Ok, Done(s.agencies), s, None)
  }

  /** The record a valid body describes: name, city and country as given,
      a falsy e-mail or phone stored as null. */
  function NewAgency(b: AgencyBody, slug: Option<string>): (a: Agency)
    requires HasRequiredFields(b)
    ensures a.name == b.name.value && a.city == b.city.value && a.country == b.country.value
    ensures a.email.Some? <==> Present(b.email)
    ensures a.phone.Some? <==> Present(b.phone)
    ensures a.email.Some? ==> a.email == b.email
    ensures a.phone.Some? ==> a.phone == b.phone
    ensures a.slug == slug
  {
    Agency(0, b.name.value, slug, b.city.value, b.country.value, OrNull(b.email), OrNull(b.phone))
  }

  /** `POST(req)`: 500 for a body that is not JSON or is `null`, 400 when the
      name, city or country is missing, otherwise 201 with a new agency that
      has no slug. Only a 201 changes the store, and then only by appending
      that agency. */
  function Post(body: Option<AgencyBody>, s: Store): (r: Reply<Agency>)
    ensures body.None? ==> r.status == ServerError && r.body == Failed(CreateFailed)
    ensures body.Some? && !HasRequiredFields(body.value) ==>
              r.status == BadRequest && r.body == Failed(MissingFields)
    ensures r.status == Created <==> body.Some? && HasRequiredFields(body.value)
    ensures r.status != Created ==> r.store == s && r.body.Failed?
    ensures r.status == Created ==> r.body.Done? && var a := r.body.value;
      && a == NewAgency(body.value, None).(id := s.nextId)
      && a.slug.None?
      && r.store.agencies == s.agencies + [a]
      && r.store.users == s.users && r.store.listings == s.listings
      && r.store.images == s.images && r.store.nextId == s.nextId + 1
      && r.store == s.(agencies := s.agencies + [a], nextId := s.nextId + 1)
    ensures r.cookie.None?
    ensures Valid(s) ==> Valid(r.store)
  {
    match body
    case None => Fail(ServerError, CreateFailed, s)
    case Some(b) =>
      if !HasRequiredFields(b) then Fail(BadRequest, MissingFields, s)
      else
        var (s', a) := CreateAgency(s, NewAgency(b, None));
        Reply(Created, Done(a), s', None)
  }
}
