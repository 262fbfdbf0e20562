/** `/api/listings` of the `app1/` generation: role-scoped reads, and
    creation by the caller's own agency (SUPER_ADMIN may name another). */
module App1ListingsRoute {
  import opened Values
  import opened Strings
  import opened Records
  import opened Session
  import opened Lists

  /** The JSON body fields the POST handler reads; `kind` is `type`.
      `imageUrls` is `None` when absent or null. */
  datatype ListingBody = ListingBody(
    title: Option<string>, description: Option<string>, city: Option<string>,
    country: Option<string>, price: Scalar, currency: Option<string>, kind: Option<string>,
    imageUrls: Option<seq<string>>, agencyId: Option<Id>)

  /** A created listing with its image rows. */
  datatype CreatedListing = CreatedListing(listing: Listing, images: seq<ListingImage>)

  const NotAuthenticated := "Non authentifié"
  const NoAgency := "Utilisateur sans agence associée"
  const MissingFields := "Champs obligatoires manquants"
  const CreateFailed := "Erreur serveur lors de la création de l’annonce"

  /** The listings a user may read: all of them for SUPER_ADMIN, otherwise
      those of the user's own agency. */
  predicate MayRead(u: UserView, l: Listing) {
    u.role == SuperAdmin || u.agencyId == Some(l.agencyId)
  }

  /** `GET()`: 401 without a session, otherwise exactly the readable
      listings, in store order (the newest-first order is not modelled). */
  function Get(user: Option<UserView>, s: Store): (r: Reply<seq<Listing>>)
    ensures r.store == s && r.cookie.None?
    ensures user.None? <==> r.status == Unauthorized
    ensures user.None? ==> r.body.Failed?
    ensures user.Some? ==> r.status == Ok && r.body.Done?
    ensures user.Some? ==> forall l :: l in r.body.value <==> l in s.listings && MayRead(user.value, l)
    ensures user.Some? ==> multiset(r.body.value) <= multiset(s.listings)
    ensures user.Some? && user.value.role == SuperAdmin ==> r.body.value == s.listings
    ensures user.Some? && user.value.role != SuperAdmin && user.value.agencyId.None? ==> r.body.value == []
  {
    match user
    case None => Fail(Unauthorized, NotAuthenticated, s)
    case Some(u) =>
      if u.role == SuperAdmin then Reply(Ok, Done(s.listings), s, None)
      else match u.agencyId
        case None => Reply(Ok, Done([]), s, None)
        case Some(id) => Reply(Ok, Done(Filter(s.listings, (l: Listing) => l.agencyId == id)), s, None)
  }

  /** Callers allowed past the agency check: SUPER_ADMIN, or anyone with
      an agency. */
  predicate MayCreate(u: UserView) {
    u.agencyId.Some? || u.role == SuperAdmin
  }

  /** `!title || !city || !country || !price || !type`: a price of 0 counts
      as missing. */
  predicate HasRequiredFields(b: ListingBody) {
    Present(b.title) && Present(b.city) && Present(b.country) && Truthy(b.price) && Present(b.kind)
  }

  /** The agency a new listing goes to: the body's for SUPER_ADMIN when it
      names one, otherwise always the caller's own. */
  function TargetAgency(u: UserView, b: ListingBody): (r: Option<Id>)
    ensures u.role != SuperAdmin ==> r == u.agencyId
    ensures u.role == SuperAdmin && b.agencyId.Some? ==> r == b.agencyId
    ensures u.role == SuperAdmin && b.agencyId.None? ==> r == u.agencyId
  {
    if u.role == SuperAdmin && b.agencyId.Some? then b.agencyId else u.agencyId
  }

  /** The listing row a valid body describes, before it gets its id. */
  function NewListing(b: ListingBody, agencyId: Id, defaultStatus: Status): Listing
    requires HasRequiredFields(b)
  {
    Listing(0, b.title.value, OrNull(b.description), b.city.value, b.country.value,
            ToNumber(b.price), OrElse(b.currency, "EUR"), defaultStatus, b.kind.value, agencyId)
  }

  /** The requests that create a listing. */
  predicate Accepted(u: UserView, b: ListingBody, s: Store) {
    && MayCreate(u) && HasRequiredFields(b)
    && TargetAgency(u, b).Some? && HasAgency(s, TargetAgency(u, b).value)
  }

  /** `POST(req)`. The checks run in order: 401 without a session, 403 for
      a caller with no agency who is not SUPER_ADMIN (before the body is
      read), 500 for a body that is not JSON or is `null`, 400 for a missing
      field, and 500 when the database refuses the row (no agency at all,
      or an unknown one). The listing's status is the column default
      `defaultStatus`; its images get positions 0 to n-1 in the given
      order. */
  function Post(user: Option<UserView>, body: Option<ListingBody>, s: Store, defaultStatus: Status)
    : (r: Reply<CreatedListing>)
    ensures user.None? ==> r.status == Unauthorized && r.body == Failed(NotAuthenticated)
    ensures user.Some? && !MayCreate(user.value) ==> r.status == Forbidden && r.body == Failed(NoAgency)
    ensures user.Some? && MayCreate(user.value) && body.None? ==>
              r.status == ServerError && r.body == Failed(CreateFailed)
    ensures (user.Some? && MayCreate(user.value) && body.Some?
             && !HasRequiredFields(body.value)) ==> r.status == BadRequest && r.body == Failed(MissingFields)
    ensures r.status == Created <==> user.Some? && body.Some? && Accepted(user.value, body.value, s)
    ensures r.status != Created ==> r.store == s && r.body.Failed?
    ensures r.status == Created ==> (
      && r.body.Done?
      && var c := r.body.value;
      && var urls := body.value.imageUrls.GetOr([]);
      && c.listing == NewListing(body.value, TargetAgency(user.value, body.value).value, defaultStatus).(id := s.nextId)
      && (user.value.role != SuperAdmin ==> Some(c.listing.agencyId) == user.value.agencyId)
      && |c.images| == |urls|
      && (forall i :: 0 <= i < |urls| ==>
            c.images[i].url == urls[i] && c.images[i].position == i && c.images[i].listingId == c.listing.id)
      && r.store.listings == s.listings + [c.listing]
      && r.store.images == s.images + c.images)
    ensures r.cookie.None?
    ensures Valid(s) ==> Valid(r.store)
  {
    match user
    case None => Fail(Unauthorized, NotAuthenticated, s)
    case Some(u) =>
      if !MayCreate(u) then Fail(Forbidden, NoAgency, s)
      else match body
        case None => Fail(ServerError, CreateFailed, s)
        case Some(b) =>
          if !HasRequiredFields(b) then Fail(BadRequest, MissingFields, s)
          else match TargetAgency(u, b)
            case None => Fail(ServerError, CreateFailed, s)
            case Some(agencyId) =>
              match CreateListing(s, NewListing(b, agencyId, defaultStatus), b.imageUrls.GetOr([]))
              case None => Fail(ServerError, CreateFailed, s)
              case Some((s', listing, images)) => Reply(Created, Done(CreatedListing(listing, images)), s', None)
  }

  /** A caller who is not SUPER_ADMIN only ever creates listings for their
      own agency, whatever agency the body names. */
  lemma StaffCannotChooseAgency(u: UserView, b: ListingBody, s: Store, defaultStatus: Status)
    requires u.role != SuperAdmin
    ensures var r := Post(Some(u), Some(b), s, defaultStatus);
      && r == Post(Some(u), Some(b.(agencyId := None)), s, defaultStatus)
      && (r.status == Created ==> u.agencyId == Some(r.body.value.listing.agencyId))
  {
  }
}
