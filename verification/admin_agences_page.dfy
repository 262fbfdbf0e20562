/** The SUPER_ADMIN overview of every agency in the `app/` generation:
    `checkAuthAndLoad` and how a row displays its plan and status. */
module AdminAgencesPage {
  import opened Values
  import opened Records
  import opened Session
  import opened Client
  import AppAgenciesRoute

  /** An agency as the overview lists it; an absent `isActive` is false. */
  datatype AgencyRow = AgencyRow(id: Id, name: string, city: string, country: string,
                                 email: Option<string>, phone: Option<string>,
                                 plan: Option<string>, isActive: bool)

  /** `fetch("/api/agencies")` as the page sees it: the request threw, the
      reply was not ok (with the `error` of its body, if any), or it was ok
      with a body (`None` when the body is not an array). */
  datatype AgenciesReply = AgenciesUnreachable | AgenciesNotOk(error: Option<string>)
                         | AgenciesOk(data: Option<seq<AgencyRow>>)

  /** The error shown: none, a message the page chose, or the message of
      an exception the runtime raised. */
  datatype ErrorShown = NoError | Message(text: string) | RuntimeError

  /** What `checkAuthAndLoad` leaves behind: whether the page counts as
      checked, where it sends the browser, whether it asked for the
      agencies, the agencies listed and the error shown. */
  datatype Outcome = Outcome(authChecked: bool, nav: Nav, fetched: bool,
                             agencies: seq<AgencyRow>, error: ErrorShown)

  const AgenciesFailed := "Erreur API agences"

  /** The agencies list from a reply: the array, or [] for anything else. */
  function AgencyList(r: AgenciesReply): (list: seq<AgencyRow>)
    ensures r.AgenciesOk? && r.data.Some? ==> list == r.data.value
    ensures !(r.AgenciesOk? && r.data.Some?) ==> list == []
  {
    if r.AgenciesOk? && r.data.Some? then r.data.value else []
  }

  /** `checkAuthAndLoad()`. A reply from `/api/auth/me` that is not ok
      sends the browser to /login; a user who is not SUPER_ADMIN to "/";
      neither is marked checked nor fetches the agencies. An ok reply with
      a null body makes reading its role throw. SUPER_ADMIN is marked
      checked and the agencies are fetched; a reply that is not ok shows
      its error or a default message. */
  function CheckAuthAndLoad(me: MeResponse, agencies: AgenciesReply): (o: Outcome)
    ensures o.authChecked <==> o.fetched
    ensures o.fetched <==> me.OkJson? && me.user.Some? && me.user.value.role == SuperAdmin
    ensures me.NotOk? ==> o.nav == Push("/login")
    ensures me.OkJson? && me.user.Some? && me.user.value.role != SuperAdmin ==> o.nav == Push("/")
    ensures o.nav != Stay ==> !o.fetched && o.error == NoError
    ensures (me.Unreachable? || me == OkJson(None)) ==> o.nav == Stay && o.error == RuntimeError
    ensures o.fetched && agencies.AgenciesNotOk? ==> o.error == Message(OrElse(agencies.error, AgenciesFailed))
    ensures o.fetched && agencies.AgenciesOk? ==> o.error == NoError && o.agencies == AgencyList(agencies)
    ensures !(o.fetched && agencies.AgenciesOk?) ==> o.agencies == []
  {
    match me
    case Unreachable => Outcome(false, Stay, false, [], RuntimeError)
    case NotOk(_) => Outcome(false, Push("/login"), false, [], NoError)
    case OkJson(None) => Outcome(false, Stay, false, [], RuntimeError)
    case OkJson(Some(u)) =>
      if u.role != SuperAdmin then Outcome(false, Push("/"), false, [], NoError)
      else match agencies
        case AgenciesUnreachable => Outcome(true, Stay, true, [], RuntimeError)
        case AgenciesNotOk(err) => Outcome(true, Stay, true, [], Message(OrElse(err, AgenciesFailed)))
        case AgenciesOk(_) => Outcome(true, Stay, true, AgencyList(agencies), NoError)
  }

  /** `a.plan || "FREE"`. */
  function PlanLabel(plan: Option<string>): (r: string)
    ensures Present(plan) ==> r == plan.value
    ensures !Present(plan) ==> r == "FREE"
  {
    OrElse(plan, "FREE")
  }

  /** The status column depends on `isActive` alone, and tells the two
      states apart. */
  function StatusLabel(isActive: bool): (r: string)
    ensures isActive <==> r == "✅ Active"
    ensures !isActive <==> r == "⛔️ Suspendue"
  {
    if isActive then "✅ Active" else "⛔️ Suspendue"
  }

  /** An agency of the store as the route's JSON carries it to the page.
      The plan and the active flag are not columns of the modelled store,
      so they are given per agency id. */
  function RowOf(a: Agency, plan: Id -> Option<string>, active: Id -> bool): (row: AgencyRow)
    ensures row.id == a.id && row.name == a.name && row.city == a.city && row.country == a.country
    ensures row.email == a.email && row.phone == a.phone
    ensures row.plan == plan(a.id) && row.isActive == active(a.id)
  {
    AgencyRow(a.id, a.name, a.city, a.country, a.email, a.phone, plan(a.id), active(a.id))
  }

  function RowsOf(agencies: seq<Agency>, plan: Id -> Option<string>, active: Id -> bool): (rows: seq<AgencyRow>)
    ensures |rows| == |agencies|
    ensures forall i :: 0 <= i < |agencies| ==> rows[i] == RowOf(agencies[i], plan, active)
  {
    seq(|agencies|, i requires 0 <= i < |agencies| => RowOf(agencies[i], plan, active))
  }

  /** The overview a SUPER_ADMIN session sees is the agencies route's
      full list: every stored agency has its row, and every row is a
      stored agency's. A reply whose body is not an array lists nothing. */
  lemma SuperAdminSeesAll(u: UserView, s: Store, plan: Id -> Option<string>, active: Id -> bool)
    requires u.role == SuperAdmin
    ensures var reply := AppAgenciesRoute.Get(s);
      && reply.status == Ok
      && var o := CheckAuthAndLoad(OkJson(Some(u)), AgenciesOk(Some(RowsOf(reply.body.value, plan, active))));
      && o.error == NoError
      && (forall a :: a in s.agencies ==> RowOf(a, plan, active) in o.agencies)
      && (forall row :: row in o.agencies ==> exists a :: a in s.agencies && row == RowOf(a, plan, active))
    ensures CheckAuthAndLoad(OkJson(Some(u)), AgenciesOk(None)).agencies == []
  {
    var listed := AppAgenciesRoute.Get(s).body.value;
    var rows := RowsOf(listed, plan, active);
    assert forall a :: a in s.agencies <==> a in listed by {
      assert multiset(listed) == multiset(s.agencies);
      forall a ensures a in s.agencies <==> a in listed {
        assert a in s.agencies <==> multiset(s.agencies)[a] > 0;
        assert a in listed <==> multiset(listed)[a] > 0;
      }
    }
    forall a | a in s.agencies ensures RowOf(a, plan, active) in rows {
      var i :| 0 <= i < |listed| && listed[i] == a;
      assert rows[i] == RowOf(a, plan, active);
    }
    forall row | row in rows ensures exists a :: a in s.agencies && row == RowOf(a, plan, active) {
      var i :| 0 <= i < |rows| && rows[i] == row;
      assert listed[i] in listed;
    }
  }
}
