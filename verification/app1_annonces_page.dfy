/** The listing page of the `app1/` generation: its create form, the
    comma-separated image field and the body it posts. */
module App1AnnoncesPage {
  import opened Values
  import opened Strings
  import opened Records
  import opened Session
  import opened UrlList
  import App1ListingsRoute

  /** The form fields; `kind` is `type`, `agencyId` is `None` for "". */
  datatype ListingForm = ListingForm(
    title: string, description: string, city: string, country: string, price: string,
    currency: string, kind: string, agencyId: Option<Id>, imageUrls: string)

  /** `INITIAL_FORM`: everything blank but the currency and the type. */
  const InitialForm := ListingForm("", "", "", "", "", "EUR", "vente", None, "")

  /** `form.imageUrls.split(",").map(trim).filter(Boolean)`. */
  function ParseImageUrls(text: string): (r: seq<string>)
    ensures forall u :: u in r ==> IsCleanUrl(u, ',')
    ensures forall u :: u in r ==> exists p :: p in Split(text, ',') && u == Trim(p)
    ensures forall p :: p in Split(text, ',') && Trim(p) != "" ==> Trim(p) in r
  {
    ParseList(text, ',')
  }

  /** `Number(form.price)` as `JSON.stringify` sends it: NaN goes out as
      null. */
  function PriceJson(price: string): (v: Scalar)
    ensures ParseNumber(price).Some? ==> v == Num(ParseNumber(price).value)
    ensures ParseNumber(price).None? ==> v == Null
  {
    match ParseNumber(price)
    case Some(n) => Num(n)
    case None => Null
  }

  /** `{ ...form, price: Number(form.price), imageUrls }`. */
  function Payload(f: ListingForm): (b: App1ListingsRoute.ListingBody)
    ensures b.title == Some(f.title) && b.description == Some(f.description)
    ensures b.city == Some(f.city) && b.country == Some(f.country)
    ensures b.currency == Some(f.currency) && b.kind == Some(f.kind) && b.agencyId == f.agencyId
    ensures b.price == PriceJson(f.price)
    ensures b.imageUrls == Some(ParseImageUrls(f.imageUrls))
  {
    App1ListingsRoute.ListingBody(
      Some(f.title), Some(f.description), Some(f.city), Some(f.country), PriceJson(f.price),
      Some(f.currency), Some(f.kind), Some(ParseImageUrls(f.imageUrls)), f.agencyId)
  }

  /** `handleSubmit`'s effect on the form: back to `INITIAL_FORM` after a
      successful POST, kept as typed after a failure. */
  function AfterSubmit(f: ListingForm, status: nat): (r: ListingForm)
    ensures 200 <= status < 300 ==> r == InitialForm
    ensures !(200 <= status < 300) ==> r == f
  {
    if 200 <= status < 300 then InitialForm else f
  }

  /** A price left blank, or typed as 0, reaches the server as 0, which the
      server counts as missing: the POST fails with 400 and the form keeps
      what was typed. */
  lemma ZeroPriceRefused(f: ListingForm, u: UserView, s: Store, defaultStatus: Status)
    requires Trim(f.price) == "" || Trim(f.price) == "0"
    requires App1ListingsRoute.MayCreate(u)
    ensures App1ListingsRoute.Post(Some(u), Some(Payload(f)), s, defaultStatus).status == BadRequest
    ensures AfterSubmit(f, App1ListingsRoute.Post(Some(u), Some(Payload(f)), s, defaultStatus).status) == f
  {
    ZeroPriceSent(f.price);
    assert !App1ListingsRoute.HasRequiredFields(Payload(f));
  }

  /** A blank price and "0" both go out as the number 0. */
  lemma ZeroPriceSent(price: string)
    requires Trim(price) == "" || Trim(price) == "0"
    ensures PriceJson(price) == Num(0)
  {
    var t := Trim(price);
    if t == "0" {
      assert AllDigits(t);
      assert t[..0] == "";
      assert DigitsValue(t) == 0;
    }
    assert ParseNumber(price) == Some(0);
  }

  /** The listing the server creates from this page's form carries the
      typed URLs as its images, in order, with positions 0 to n-1. */
  lemma ImagesFromForm(f: ListingForm, u: UserView, s: Store, defaultStatus: Status)
    ensures var r := App1ListingsRoute.Post(Some(u), Some(Payload(f)), s, defaultStatus);
      r.status == Created ==>
        && |r.body.value.images| == |ParseImageUrls(f.imageUrls)|
        && forall i :: 0 <= i < |r.body.value.images| ==>
             r.body.value.images[i].url == ParseImageUrls(f.imageUrls)[i]
             && r.body.value.images[i].position == i
  {
  }
}
