/** The sign-up page of the `app1/` generation: a logged-in visitor is sent
    to the dashboard, the password is checked for length and confirmation,
    and the body fills in the name and drops an empty phone. */
module App1RegisterPage {
  import opened Values
  import opened Records
  import opened Session
  import opened Client
  import App1RegisterRoute

  /** The form's fields, all text, all "" at first. */
  datatype RegisterForm = RegisterForm(
    name: string, email: string, password: string, confirmPassword: string,
    agencyName: string, city: string, country: string, phone: string)

  const TooShort := "Le mot de passe doit contenir au moins 6 caractères."
  const PasswordMismatch := "Les mots de passe ne correspondent pas."
  const MinPasswordLength := 6

  /** The session check on arrival: an ok reply means someone is logged
      in, and the page goes to the dashboard. */
  function OnArrival(r: MeResponse): (n: Nav)
    ensures r.OkJson? <==> n == Push("/")
    ensures !r.OkJson? ==> n == Stay
  {
    if r.OkJson? then Push("/") else Stay
  }

  /** The outcome of `handleSubmit`'s checks: an error shown and nothing
      sent, or the body sent. */
  datatype Submission = Rejected(message: string) | Send(body: App1RegisterRoute.RegisterBody)

  /** `form.name || form.agencyName`. */
  function NameOrAgency(f: RegisterForm): (r: string)
    ensures f.name != "" ==> r == f.name
    ensures f.name == "" ==> r == f.agencyName
  {
    if f.name != "" then f.name else f.agencyName
  }

  /** `handleSubmit`: a password shorter than 6 is refused first, then a
      confirmation that differs; otherwise the body is sent with the name
      defaulting to the agency name and an empty phone left out. */
  function Submit(f: RegisterForm): (r: Submission)
    ensures r.Send? <==> |f.password| >= MinPasswordLength && f.password == f.confirmPassword
    ensures |f.password| < MinPasswordLength ==> r == Rejected(TooShort)
    ensures |f.password| >= MinPasswordLength && f.password != f.confirmPassword ==> r == Rejected(PasswordMismatch)
    ensures r.Send? ==> (
      && r.body.email == Some(f.email) && r.body.password == Some(f.password)
      && r.body.name == Some(NameOrAgency(f))
      && r.body.agencyName == Some(f.agencyName) && r.body.city == Some(f.city) && r.body.country == Some(f.country)
      && (f.phone == "" <==> r.body.phone.None?)
      && (f.phone != "" ==> r.body.phone == Some(f.phone)))
  {
    if |f.password| < MinPasswordLength then Rejected(TooShort)
    else if f.password != f.confirmPassword then Rejected(PasswordMismatch)
    else
      Send(App1RegisterRoute.RegisterBody(
        Some(f.email), Some(f.password), Some(NameOrAgency(f)), Some(f.agencyName),
        Some(f.city), Some(f.country), if f.phone == "" then None else Some(f.phone)))
  }

  /** A body the page sends is accepted by the route exactly when the
      e-mail, agency name, city and country are filled in and the e-mail is
      new; the account then carries the typed name, or the agency name when
      none was typed. */
  lemma SentBodyAccepted(f: RegisterForm, s: Store, hash: string -> string)
    requires Submit(f).Send?
    ensures var r := App1RegisterRoute.Post(Some(Submit(f).body), s, hash);
      && (r.status == Created <==>
            f.email != "" && f.agencyName != "" && f.city != "" && f.country != ""
            && FindUserByEmail(s.users, f.email).None?)
      && (r.status == Created ==> r.body.value.user.name == NameOrAgency(f))
  {
    var b := Submit(f).body;
    if App1RegisterRoute.Accepted(b, s) {
      App1RegisterRoute.AgreesWithAppOwner(b, s, hash);
      AppRegisterRouteName(b, s, hash);
    }
  }

  /** The name the route stores: the body's when not empty, otherwise the
      agency name. */
  lemma AppRegisterRouteName(b: App1RegisterRoute.RegisterBody, s: Store, hash: string -> string)
    requires App1RegisterRoute.Accepted(b, s)
    ensures App1RegisterRoute.Post(Some(b), s, hash).body.value.user.name == OrElse(b.name, b.agencyName.value)
  {
  }

  /** After a successful reply the route has set the session cookie and
      the page goes to the dashboard; after a failure it stays. */
  function AfterReply(ok: bool): (n: Nav)
    ensures ok <==> n == Push("/")
    ensures !ok ==> n == Stay
  {
    if ok then Push("/") else Stay
  }
}
