/** `/api/listings` of the `app/` generation: no authentication; the
    caller names the agency, the price is checked, the image URLs are
    cleaned. */
module AppListingsRoute {
  import opened Values
  import opened Strings
  import opened Records
  import opened Session
  import opened Lists
  import opened UrlList

  /** The JSON body fields the POST handler reads; `kind` is `type`.
      `imageUrls` is `None` when it is not an array. */
  datatype ListingBody = ListingBody(
    title: Option<string>, description: Option<string>, city: Option<string>,
    country: Option<string>, price: Scalar, currency: Option<string>, status: Option<string>,
    kind: Option<string>, agencyId: Option<Id>, imageUrls: Option<seq<Scalar>>)

  datatype CreatedListing = CreatedListing(listing: Listing, images: seq<ListingImage>)

  const MissingFields := "title, city, country, type et agencyId sont obligatoires pour créer une annonce"
  const BadPrice := "price doit être un nombre positif"
  const CreateFailed := "Erreur serveur lors de la création de l’annonce"

  /** `GET(req)` with the `agencyId` query parameter (`None` when absent
      or empty): that agency's listings, or every listing. */
  function Get(agencyId: Option<Id>, s: Store): (r: Reply<seq<Listing>>)
    ensures r.status == Ok && r.body.Done? && r.store == s && r.cookie.None?
    ensures agencyId.None? ==> r.body.value == s.listings
    ensures agencyId.Some? ==> forall l :: l in r.body.value <==> l in s.listings && l.agencyId == agencyId.value
    ensures multiset(r.body.value) <= multiset(s.listings)
  {
    match agencyId
    case None => Reply(Ok, Done(s.listings), s, None)
    case Some(id) => Reply(Ok, Done(Filter(s.listings, (l: Listing) => l.agencyId == id)), s, None)
  }

  /** The entries of an `imageUrls` array as `String(u || "")` makes them. */
  function Texts(xs: seq<Scalar>): (r: seq<string>)
    ensures |r| == |xs|
    ensures forall i :: 0 <= i < |xs| ==> r[i] == TextOrEmpty(xs[i])
  {
    seq(|xs|, i requires 0 <= i < |xs| => TextOrEmpty(xs[i]))
  }

  /** `imagesArray`: a non-array becomes [], otherwise every entry is made
      text and trimmed and the empty ones are dropped. */
  function CleanImageUrls(v: Option<seq<Scalar>>): (r: seq<string>)
    ensures v.None? ==> r == []
    ensures v.Some? ==> |r| <= |v.value|
    ensures forall u :: u in r ==> u != "" && IsTrimmed(u)
    ensures v.Some? ==> forall u :: u in r ==> exists i :: 0 <= i < |v.value| && u == Trim(TextOrEmpty(v.value[i]))
    ensures v.Some? ==> forall i :: 0 <= i < |v.value| && Trim(TextOrEmpty(v.value[i])) != "" ==>
      Trim(TextOrEmpty(v.value[i])) in r
  {
    match v
    case None => []
    case Some(xs) =>
      TextsCleaned(xs);
      CleanPieces(Texts(xs))
  }

  /** The cleaned texts are exactly the non-empty trimmed entries. */
  lemma TextsCleaned(xs: seq<Scalar>)
    ensures forall u :: u in CleanPieces(Texts(xs)) ==> exists i :: 0 <= i < |xs| && u == Trim(TextOrEmpty(xs[i]))
    ensures forall i :: 0 <= i < |xs| && Trim(TextOrEmpty(xs[i])) != "" ==>
      Trim(TextOrEmpty(xs[i])) in CleanPieces(Texts(xs))
  {
    TextsCleanedFrom(xs);
    TextsCleanedKept(xs);
  }

  lemma TextsCleanedFrom(xs: seq<Scalar>)
    ensures forall u :: u in CleanPieces(Texts(xs)) ==> exists i :: 0 <= i < |xs| && u == Trim(TextOrEmpty(xs[i]))
  {
    var texts := Texts(xs);
    forall u | u in CleanPieces(texts) ensures exists i :: 0 <= i < |xs| && u == Trim(TextOrEmpty(xs[i])) {
      var i := CleanedIndex(texts, u);
      assert texts[i] == TextOrEmpty(xs[i]);
    }
  }

  /** The index of an input piece that a kept piece is the trim of. */
  lemma CleanedIndex(texts: seq<string>, u: string) returns (i: nat)
    requires u in CleanPieces(texts)
    ensures i < |texts| && u == Trim(texts[i])
  {
    CleanPiecesMembers(texts);
    var p :| p in texts && u == Trim(p);
    i :| i < |texts| && texts[i] == p;
  }

  lemma TextsCleanedKept(xs: seq<Scalar>)
    ensures forall i :: 0 <= i < |xs| && Trim(TextOrEmpty(xs[i])) != "" ==>
      Trim(TextOrEmpty(xs[i])) in CleanPieces(Texts(xs))
  {
    var texts := Texts(xs);
    CleanPiecesMembers(texts);
    assert forall i :: 0 <= i < |xs| ==> texts[i] in texts;
  }

  /** One entry is kept as its trimmed text, or dropped when that is empty.
      With `CleanImageUrlsAppend` this determines the cleaning of every
      array. */
  lemma CleanImageUrlsSingleton(x: Scalar)
    ensures CleanImageUrls(Some([x])) == (if Trim(TextOrEmpty(x)) == "" then [] else [Trim(TextOrEmpty(x))])
  {
    assert Texts([x]) == [TextOrEmpty(x)];
    CleanPiecesSingleton(TextOrEmpty(x));
  }

  /** Cleaning keeps the order of the entries. */
  lemma CleanImageUrlsAppend(a: seq<Scalar>, b: seq<Scalar>)
    ensures CleanImageUrls(Some(a + b)) == CleanImageUrls(Some(a)) + CleanImageUrls(Some(b))
  {
    assert Texts(a + b) == Texts(a) + Texts(b);
    CleanPiecesAppend(Texts(a), Texts(b));
  }

  /** URLs that are already non-empty and trimmed come through unchanged. */
  lemma CleanImageUrlsOfClean(urls: seq<string>)
    requires forall u :: u in urls ==> u != "" && IsTrimmed(u)
    ensures CleanImageUrls(Some(seq(|urls|, i requires 0 <= i < |urls| => Str(urls[i])))) == urls
  {
    var xs := seq(|urls|, i requires 0 <= i < |urls| => Str(urls[i]));
    forall i | 0 <= i < |urls| ensures Texts(xs)[i] == urls[i] {
      assert urls[i] in urls;
    }
    assert Texts(xs) == urls;
    CleanPiecesOfClean(urls);
  }

  /** `!title || !city || !country || !type || !agencyId`. */
  predicate HasRequiredFields(b: ListingBody) {
    Present(b.title) && Present(b.city) && Present(b.country) && Present(b.kind) && b.agencyId.Some?
  }

  /** `Number(price)` is a number and not negative; 0, "" and null pass. */
  predicate PriceOk(price: Scalar) {
    ToNumber(price).Some? && ToNumber(price).value >= 0
  }

  /** `status || "ACTIVE"`, checked against the enum as the database does. */
  function StatusOf(status: Option<string>): (r: Option<Status>)
    ensures !Present(status) ==> r == Some(Active)
    ensures Present(status) ==> r == ParseStatus(status.value)
  {
    ParseStatus(OrElse(status, "ACTIVE"))
  }

  /** The requests that create a listing. */
  predicate Accepted(b: ListingBody, s: Store) {
    && HasRequiredFields(b) && PriceOk(b.price) && StatusOf(b.status).Some?
    && HasAgency(s, b.agencyId.value)
  }

  function NewListing(b: ListingBody): Listing
    requires HasRequiredFields(b) && PriceOk(b.price) && StatusOf(b.status).Some?
  {
    Listing(0, b.title.value, OrNull(b.description), b.city.value, b.country.value,
            ToNumber(b.price), OrElse(b.currency, "EUR"), StatusOf(b.status).value, b.kind.value,
            b.agencyId.value)
  }

  /** `POST(req)`. In order: 500 for a body that is not JSON or is
      `null`, 400 for a missing field, 400 for a price that is not a
      number or is negative, and 500 when the database refuses the row (a
      status outside the enum, an unknown agency). The listing gets description null,
      currency "EUR" and status ACTIVE by default, and one image row per
      cleaned URL, positions 0 to n-1, none when no URL survives. */
  function Post(body: Option<ListingBody>, s: Store): (r: Reply<CreatedListing>)
    ensures body.None? ==> r.status == ServerError && r.body == Failed(CreateFailed)
    ensures body.Some? && !HasRequiredFields(body.value) ==>
              r.status == BadRequest && r.body == Failed(MissingFields)
    ensures (body.Some? && HasRequiredFields(body.value)
             && !PriceOk(body.value.price)) ==> r.status == BadRequest && r.body == Failed(BadPrice)
    ensures (body.Some? && HasRequiredFields(body.value) && PriceOk(body.value.price)
             && !Accepted(body.value, s)) ==> r.status == ServerError && r.body == Failed(CreateFailed)
    ensures r.status == Created <==> body.Some? && Accepted(body.value, s)
    ensures r.status != Created ==> r.store == s && r.body.Failed?
    ensures r.status == Created ==> (
      && r.body.Done?
      && var b := body.value;
      && var c := r.body.value;
      && var urls := CleanImageUrls(b.imageUrls);
      && c.listing == NewListing(b).(id := s.nextId)
      && c.listing.price.Some? && c.listing.price.value >= 0
      && (!Present(b.description) ==> c.listing.description.None?)
      && (!Present(b.currency) ==> c.listing.currency == "EUR")
      && (!Present(b.status) ==> c.listing.status == Active)
      && |c.images| == |urls|
      && (forall i :: 0 <= i < |urls| ==>
            c.images[i].url == urls[i] && c.images[i].position == i && c.images[i].listingId == c.listing.id)
      && r.store.listings == s.listings + [c.listing]
      && r.store.images == s.images + c.images)
    ensures r.cookie.None?
    ensures Valid(s) ==> Valid(r.store)
  {
    match body
    case None => Fail(ServerError, CreateFailed, s)
    case Some(b) =>
      if !HasRequiredFields(b) then Fail(BadRequest, MissingFields, s)
      else if !PriceOk(b.price) then Fail(BadRequest, BadPrice, s)
      else if StatusOf(b.status).None? then Fail(ServerError, CreateFailed, s)
      else match CreateListing(s, NewListing(b), CleanImageUrls(b.imageUrls))
        case None => Fail(ServerError, CreateFailed, s)
        case Some((s', listing, images)) => Reply(Created, Done(CreatedListing(listing, images)), s', None)
  }
}
