/** The listing management page of the `app/` generation: the image-URL
    text of its forms, the agency a payload names, the agency filter, and
    the listings it shows. */
module AnnoncesPage {
  import opened Values
  import opened Strings
  import opened Records
  import opened Session
  import opened Lists
  import opened UrlList
  import opened Client
  import AppListingsRoute

  predicate IsSuperAdmin(me: Option<UserView>) {
    me.Some? && me.value.role == SuperAdmin
  }

  /** `me?.agencyId`. */
  function MyAgency(me: Option<UserView>): Option<Id> {
    if me.Some? then me.value.agencyId else None
  }

  /** `parseImageUrls(text)`: one URL per line, trimmed, blank lines
      dropped; a missing text gives no URL. */
  function ParseImageUrls(text: Option<string>): (r: seq<string>)
    ensures !Present(text) ==> r == []
    ensures forall u :: u in r ==> IsCleanUrl(u, '\n')
    ensures Present(text) ==> forall u :: u in r ==> exists line :: line in Split(text.value, '\n') && u == Trim(line)
    ensures Present(text) ==> forall line :: line in Split(text.value, '\n') && Trim(line) != "" ==> Trim(line) in r
  {
    assert Split("", '\n') == [""];
    assert Trim("") == "";
    ParseList(OrElse(text, ""), '\n')
  }

  /** The URL text `startEdit` puts in the edit form: the image URLs one
      per line, or "" when the listing has no image array. */
  function EditText(images: Option<seq<string>>): string {
    match images
    case None => ""
    case Some(urls) => Join(urls, '\n')
  }

  /** Editing a listing and saving it without touching the text keeps its
      image list, when every URL is non-empty, trimmed and on one line. */
  lemma EditRoundTrip(urls: seq<string>)
    requires forall u :: u in urls ==> IsCleanUrl(u, '\n')
    ensures ParseImageUrls(Some(EditText(Some(urls)))) == urls
  {
    JoinParseRoundTrip(urls, '\n');
  }

  /** `[...manualUrls, ...uploadedUrls]`: the typed URLs first, then the
      uploaded ones, both in order. */
  function SubmittedUrls(text: Option<string>, uploaded: seq<string>): (r: seq<string>)
    ensures |r| == |ParseImageUrls(text)| + |uploaded|
    ensures r[..|ParseImageUrls(text)|] == ParseImageUrls(text)
    ensures r[|ParseImageUrls(text)|..] == uploaded
  {
    ParseImageUrls(text) + uploaded
  }

  /** `isSuperAdmin ? form.agencyId : me?.agencyId`: only SUPER_ADMIN
      chooses the agency of a listing. */
  function PayloadAgency(me: Option<UserView>, formAgency: Option<Id>): (r: Option<Id>)
    ensures IsSuperAdmin(me) ==> r == formAgency
    ensures !IsSuperAdmin(me) ==> r == MyAgency(me)
  {
    if IsSuperAdmin(me) then formAgency else MyAgency(me)
  }

  /** The fields of the create form; `kind` is `type`, `agencyId` is
      `None` for "". */
  datatype ListingForm = ListingForm(
    title: string, description: string, city: string, country: string, price: string,
    currency: string, status: string, kind: string, agencyId: Option<Id>, imageUrlsText: string)

  const InitialForm := ListingForm("", "", "", "", "", "EUR", "ACTIVE", "", None, "")

  /** The URLs as JSON text values. */
  function AsJson(urls: seq<string>): (r: seq<Scalar>)
    ensures |r| == |urls| && forall i :: 0 <= i < |urls| ==> r[i] == Str(urls[i])
  {
    seq(|urls|, i requires 0 <= i < |urls| => Str(urls[i]))
  }

  /** The body `handleCreate` sends to `POST /api/listings`. */
  function CreatePayload(form: ListingForm, me: Option<UserView>, uploaded: seq<string>)
    : (b: AppListingsRoute.ListingBody)
    ensures b.agencyId == PayloadAgency(me, form.agencyId)
    ensures b.imageUrls == Some(AsJson(SubmittedUrls(Some(form.imageUrlsText), uploaded)))
  {
    AppListingsRoute.ListingBody(
      Some(form.title), Some(form.description), Some(form.city), Some(form.country),
      Str(form.price), Some(form.currency), Some(form.status), Some(form.kind),
      PayloadAgency(me, form.agencyId), Some(AsJson(SubmittedUrls(Some(form.imageUrlsText), uploaded))))
  }

  /** Every submitted URL is non-empty and trimmed when the uploaded ones
      are: the typed ones are cleaned by `parseImageUrls`. */
  lemma SubmittedUrlsClean(text: Option<string>, uploaded: seq<string>)
    requires forall u :: u in uploaded ==> u != "" && IsTrimmed(u)
    ensures forall u :: u in SubmittedUrls(text, uploaded) ==> u != "" && IsTrimmed(u)
  {
    var manual := ParseImageUrls(text);
    assert SubmittedUrls(text, uploaded) == manual + uploaded;
  }

  /** The server stores the submitted URLs unchanged. */
  lemma ServerKeepsSubmittedUrls(form: ListingForm, me: Option<UserView>, uploaded: seq<string>)
    requires forall u :: u in uploaded ==> u != "" && IsTrimmed(u)
    ensures AppListingsRoute.CleanImageUrls(CreatePayload(form, me, uploaded).imageUrls)
         == SubmittedUrls(Some(form.imageUrlsText), uploaded)
  {
    var urls := SubmittedUrls(Some(form.imageUrlsText), uploaded);
    SubmittedUrlsClean(Some(form.imageUrlsText), uploaded);
    AppListingsRoute.CleanImageUrlsOfClean(urls);
    assert AsJson(urls) == seq(|urls|, i requires 0 <= i < |urls| => Str(urls[i]));
  }

  /** A listing created from this page by anyone but SUPER_ADMIN belongs to
      that user's agency, whatever the form says, and carries the typed URLs
      and then the uploaded ones as its images, in order. */
  lemma CreateFromPage(form: ListingForm, me: UserView, uploaded: seq<string>, s: Store)
    requires me.role != SuperAdmin
    requires forall u :: u in uploaded ==> u != "" && IsTrimmed(u)
    ensures var r := AppListingsRoute.Post(Some(CreatePayload(form, Some(me), uploaded)), s);
      r.status == Created ==>
        && Some(r.body.value.listing.agencyId) == me.agencyId
        && |r.body.value.images| == |SubmittedUrls(Some(form.imageUrlsText), uploaded)|
        && forall i :: 0 <= i < |r.body.value.images| ==>
             r.body.value.images[i].url == SubmittedUrls(Some(form.imageUrlsText), uploaded)[i]
  {
    ServerKeepsSubmittedUrls(form, Some(me), uploaded);
  }

  /** The create form after a successful creation: blank again, except
      that a user who is not SUPER_ADMIN keeps their agency. */
  function ResetForm(me: Option<UserView>): (f: ListingForm)
    ensures f == InitialForm.(agencyId := f.agencyId)
    ensures IsSuperAdmin(me) ==> f.agencyId.None?
    ensures !IsSuperAdmin(me) ==> f.agencyId == MyAgency(me)
  {
    InitialForm.(agencyId := if IsSuperAdmin(me) then None else MyAgency(me))
  }

  /** The agency filter: "ALL" or one agency. */
  datatype AgencyFilter = AllAgencies | OnlyAgency(id: Id)

  /** The `agencyId` query parameter `fetchListings` sends. */
  function QueryOf(f: AgencyFilter): (q: Option<Id>)
    ensures f.AllAgencies? <==> q.None?
    ensures f.OnlyAgency? ==> q == Some(f.id)
  {
    match f
    case AllAgencies => None
    case OnlyAgency(id) => Some(id)
  }

  /** The filter after `init`: a user who is not SUPER_ADMIN and has an
      agency is pinned to it; everyone else starts on "ALL". */
  function InitialFilter(me: Option<UserView>): (f: AgencyFilter)
    ensures !IsSuperAdmin(me) && MyAgency(me).Some? ==> f == OnlyAgency(MyAgency(me).value)
    ensures IsSuperAdmin(me) || MyAgency(me).None? ==> f == AllAgencies
  {
    if !IsSuperAdmin(me) && MyAgency(me).Some? then OnlyAgency(MyAgency(me).value) else AllAgencies
  }

  /** `handleFilterAgencyChange`: ignored unless the user is SUPER_ADMIN. */
  function ChangeFilter(me: Option<UserView>, current: AgencyFilter, chosen: AgencyFilter): (f: AgencyFilter)
    ensures !IsSuperAdmin(me) ==> f == current
    ensures IsSuperAdmin(me) ==> f == chosen
  {
    if IsSuperAdmin(me) then chosen else current
  }

  /** `filteredListings`: everything for SUPER_ADMIN or a user without
      agency, otherwise exactly the listings of the user's agency, in
      order. */
  function VisibleListings(me: Option<UserView>, listings: seq<ListingCard>): (r: seq<ListingCard>)
    ensures IsSuperAdmin(me) || MyAgency(me).None? ==> r == listings
    ensures forall l :: l in r <==> l in listings && (IsSuperAdmin(me) || MyAgency(me).None? || MyAgency(me) == Some(l.agencyId))
    ensures multiset(r) <= multiset(listings)
  {
    if IsSuperAdmin(me) || MyAgency(me).None? then listings
    else Filter(listings, (l: ListingCard) => Some(l.agencyId) == MyAgency(me))
  }

  /** Whatever filter change a staff member attempts, the page keeps the
      filter it pinned them to, and shows only their agency's listings. */
  lemma StaffStaysOnOwnAgency(me: UserView, chosen: AgencyFilter, listings: seq<ListingCard>)
    requires me.role != SuperAdmin && me.agencyId.Some?
    ensures ChangeFilter(Some(me), InitialFilter(Some(me)), chosen) == OnlyAgency(me.agencyId.value)
    ensures forall l :: l in VisibleListings(Some(me), listings) ==> l.agencyId == me.agencyId.value
  {
  }
}
