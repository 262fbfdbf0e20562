/** The sign-up page of the `app/` generation: the checks it runs before
    sending anything, and the JSON body it sends. The body nests the agency
    fields under `agency`, where the registration route does not look for
    them; `ServerBody` is that body as the route reads it and `FlatServerBody`
    the body with the agency fields where the route reads them. */
module RegisterPage {
  import opened Values
  import opened Records
  import opened Session
  import opened Client
  import AppRegisterRoute

  /** The form's fields; the account type defaults to "AGENCY_OWNER". */
  datatype RegisterForm = RegisterForm(
    accountType: string, email: string, password: string, passwordConfirm: string,
    agencyName: string, agencyCity: string, agencyCountry: string, agencyPhone: string)

  const MissingCredentials := "Email et mot de passe sont obligatoires."
  const PasswordMismatch := "Les mots de passe ne correspondent pas."
  const MissingAgencyFields := "Pour un compte agence, le nom, la ville et le pays de l’agence sont obligatoires."

  /** The `agency` object of the body. */
  datatype AgencyPart = AgencyPart(name: string, city: string, country: string, phone: string)

  /** The body as the page builds it: `agency` is null unless the account
      is an agency owner's. */
  datatype Payload = Payload(email: string, password: string, accountType: string, agency: Option<AgencyPart>)

  /** The outcome of `handleSubmit`'s checks: an error shown and nothing
      sent, or the body sent. */
  datatype Submission = Rejected(message: string) | Send(payload: Payload)

  predicate IsOwner(f: RegisterForm) {
    f.accountType == "AGENCY_OWNER"
  }

  /** Every check passes: credentials, a matching confirmation, and the
      agency fields for an owner. */
  predicate Valid(f: RegisterForm) {
    && f.email != "" && f.password != ""
    && f.password == f.passwordConfirm
    && (IsOwner(f) ==> f.agencyName != "" && f.agencyCity != "" && f.agencyCountry != "")
  }

  /** `handleSubmit`: the checks run in order and only the first failure is
      reported; when one fails nothing is sent. A "USER_ONLY" account skips
      the agency check and sends `agency: null`. */
  function Submit(f: RegisterForm): (r: Submission)
    ensures r.Send? <==> Valid(f)
    ensures (f.email == "" || f.password == "") ==> r == Rejected(MissingCredentials)
    ensures (f.email != "" && f.password != "" && f.password != f.passwordConfirm) ==> r == Rejected(PasswordMismatch)
    ensures (f.email != "" && f.password != "" && f.password == f.passwordConfirm && !Valid(f))
              ==> r == Rejected(MissingAgencyFields)
    ensures r.Send? ==> r.payload.email == f.email && r.payload.password == f.password
    ensures r.Send? ==> (r.payload.agency.Some? <==> IsOwner(f))
    ensures r.Send? && IsOwner(f) ==> (
      && r.payload.agency.value.name == f.agencyName
      && r.payload.agency.value.city == f.agencyCity
      && r.payload.agency.value.country == f.agencyCountry)
  {
    if f.email == "" || f.password == "" then Rejected(MissingCredentials)
    else if f.password != f.passwordConfirm then Rejected(PasswordMismatch)
    else if IsOwner(f) && (f.agencyName == "" || f.agencyCity == "" || f.agencyCountry == "") then
      Rejected(MissingAgencyFields)
    else
      var agency := if IsOwner(f) then Some(AgencyPart(f.agencyName, f.agencyCity, f.agencyCountry, f.agencyPhone)) else None;
      Send(Payload(f.email, f.password, f.accountType, agency))
  }

  /** The body as the registration route reads it: the route looks for
      `agencyName`, `city`, `country`, `phone` and `name` at the top level,
      finds none of them, and never reads `agency`. */
  function ServerBody(p: Payload): (b: AppRegisterRoute.RegisterBody)
    ensures b.email == Some(p.email) && b.password == Some(p.password) && b.accountType == Some(p.accountType)
    ensures b.agencyName.None? && b.city.None? && b.country.None? && b.phone.None? && b.name.None?
  {
    AppRegisterRoute.RegisterBody(Some(p.email), Some(p.password), None, Some(p.accountType), None, None, None, None)
  }

  /** As written, every agency-owner sign-up that passes the page's own
      checks is refused by the route with 400, and nothing is created. */
  lemma OwnerSignUpRefused(f: RegisterForm, s: Store, hash: string -> string)
    requires IsOwner(f) && Submit(f).Send?
    ensures var r := AppRegisterRoute.Post(Some(ServerBody(Submit(f).payload)), s, hash);
      r.status == BadRequest && r.store == s && r.body == Failed(AppRegisterRoute.MissingAgencyFields)
  {
  }

  /** A concrete form showing it: every field filled in, and still 400. */
  lemma OwnerSignUpRefusedExample(s: Store, hash: string -> string)
    ensures var f := RegisterForm("AGENCY_OWNER", "a@b.fr", "secret", "secret", "Agence", "Lyon", "France", "");
      && Submit(f).Send?
      && AppRegisterRoute.Post(Some(ServerBody(Submit(f).payload)), s, hash).status == BadRequest
  {
    OwnerSignUpRefused(RegisterForm("AGENCY_OWNER", "a@b.fr", "secret", "secret", "Agence", "Lyon", "France", ""), s, hash);
  }

  /** The body with the agency fields where the route reads them. */
  function FlatServerBody(p: Payload): (b: AppRegisterRoute.RegisterBody)
    ensures b.email == Some(p.email) && b.password == Some(p.password) && b.accountType == Some(p.accountType)
    ensures p.agency.Some? ==> b.agencyName == Some(p.agency.value.name) && b.city == Some(p.agency.value.city)
                               && b.country == Some(p.agency.value.country) && b.phone == Some(p.agency.value.phone)
    ensures p.agency.None? ==> b.agencyName.None? && b.city.None? && b.country.None? && b.phone.None?
  {
    match p.agency
    case None => AppRegisterRoute.RegisterBody(Some(p.email), Some(p.password), None, Some(p.accountType), None, None, None, None)
    case Some(a) =>
      AppRegisterRoute.RegisterBody(Some(p.email), Some(p.password), None, Some(p.accountType),
                                    Some(a.name), Some(a.city), Some(a.country), Some(a.phone))
  }

  /** With the flat body, every sign-up that passes the page's checks is
      accepted by the route exactly when the e-mail is new, agency owners
      included; an owner then gets the agency typed in the form, with an
      empty phone stored as null. The page's choice offers only the two
      account types. */
  lemma FlatSignUpAccepted(f: RegisterForm, s: Store, hash: string -> string)
    requires f.accountType == "AGENCY_OWNER" || f.accountType == "USER_ONLY"
    requires Submit(f).Send?
    ensures var r := AppRegisterRoute.Post(Some(FlatServerBody(Submit(f).payload)), s, hash);
      && (r.status == Created <==> FindUserByEmail(s.users, f.email).None?)
      && (r.status == Created && IsOwner(f) ==>
            && r.body.value.agency.Some?
            && r.body.value.agency.value.name == f.agencyName
            && r.body.value.agency.value.city == f.agencyCity
            && r.body.value.agency.value.country == f.agencyCountry
            && (f.agencyPhone == "" ==> r.body.value.agency.value.phone.None?))
  {
    var b := FlatServerBody(Submit(f).payload);
    if IsOwner(f) && FindUserByEmail(s.users, f.email).None? {
      AppRegisterRoute.OwnerRegistration(b, s, hash);
    }
  }

  /** The "USER_ONLY" body needs no agency fields, so the route accepts it
      as sent whenever the e-mail is new. */
  lemma UserOnlySignUpAccepted(f: RegisterForm, s: Store, hash: string -> string)
    requires Submit(f).Send? && f.accountType == "USER_ONLY"
    ensures AppRegisterRoute.Post(Some(ServerBody(Submit(f).payload)), s, hash).status == Created
        <==> FindUserByEmail(s.users, f.email).None?
  {
  }

  /** After a successful reply the page sends the browser to the login
      page; after a failure it stays. */
  function AfterReply(ok: bool): (n: Nav)
    ensures ok <==> n == Push("/login")
    ensures !ok ==> n == Stay
  {
    if ok then Push("/login") else Stay
  }
}
