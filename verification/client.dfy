/** What the browser pages share: the answer of `GET /api/auth/me` as a
    page reads it, the navigation a page asks for, and the listing JSON the
    pages list. */
module Client {
  import opened Values
  import opened Records
  import opened Session

  /** Where a page sends the browser: nowhere, `router.push` or
      `router.replace`. */
  datatype Nav = Stay | Push(path: string) | Replace(path: string)

  /** `fetch("/api/auth/me")` as a page sees it: the request threw, the
      reply was not ok, or it was ok with a JSON body (`None` when the body
      is unreadable or null; a body `{ user }` and a bare user read the
      same). */
  datatype MeResponse = Unreachable | NotOk(status: nat) | OkJson(user: Option<UserView>)

  /** `data?.user || data || null` after an ok reply, and null after a
      failure or a reply that is not ok. */
  function LoadMe(r: MeResponse): (me: Option<UserView>)
    ensures me.Some? ==> r.OkJson?
    ensures r.OkJson? ==> me == r.user
  {
    match r
    case OkJson(u) => u
    case _ => None
  }

  /** `GET /api/auth/me`: 401 without a current user, the user otherwise. */
  function MeRoute(cookie: Option<string>, verify: string -> Option<Claims>, s: Store): (r: MeResponse)
    ensures r.NotOk? <==> CurrentUser(cookie, verify, s).None?
    ensures r.NotOk? ==> r.status == Unauthorized
    ensures !r.Unreachable?
  {
    match CurrentUser(cookie, verify, s)
    case None => NotOk(Unauthorized)
    case Some(u) => OkJson(Some(u))
  }

  /** A page that asks who is logged in learns exactly the server-side
      current user. */
  lemma PagesSeeTheSessionUser(cookie: Option<string>, verify: string -> Option<Claims>, s: Store)
    ensures LoadMe(MeRoute(cookie, verify, s)) == CurrentUser(cookie, verify, s)
  {
  }

  /** A listing as the listing routes send it: `kind` is `type`, `price`
      is `None` when it is not a number, `createdAt` a timestamp in
      milliseconds (`None` when absent), `images` the image URLs. */
  datatype ListingCard = ListingCard(
    id: Id, title: string, city: string, country: string, kind: string,
    price: Option<int>, status: string, agencyId: Id, createdAt: Option<int>,
    images: seq<string>)

  /** The JSON of a stored listing with the given image URLs and creation
      time. */
  function CardOf(l: Listing, urls: seq<string>, createdAt: Option<int>): (c: ListingCard)
    ensures c.id == l.id && c.agencyId == l.agencyId && c.price == l.price
    ensures ParseStatus(c.status) == Some(l.status)
  {
    StatusNameRoundTrip(l.status);
    ListingCard(l.id, l.title, l.city, l.country, l.kind, l.price, StatusName(l.status),
                l.agencyId, createdAt, urls)
  }
}
