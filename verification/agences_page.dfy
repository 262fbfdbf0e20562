/** The agency management page of the `app/` generation: it waits for the
    session check, sends visitors to the login page and everyone but
    SUPER_ADMIN to the gallery, and loads the agencies only once access is
    granted. */
module AgencesPage {
  import opened Values
  import opened Records
  import opened Session
  import opened Client

  /** `authChecked`, `me` and `allowed`. */
  datatype Gate = Gate(authChecked: bool, me: Option<UserView>, allowed: bool)

  const Initial := Gate(false, None, false)

  /** `loadAuth()`: the current user as the page reads it; the check is
      then done, whatever happened. */
  function LoadAuth(g: Gate, r: MeResponse): (g': Gate)
    ensures g'.authChecked && g'.me == LoadMe(r) && g'.allowed == g.allowed
  {
    g.(authChecked := true, me := LoadMe(r))
  }

  /** The decision effect: nothing before the check; a replace with
      /login without a user; a replace with /galerie for anyone but
      SUPER_ADMIN; access for SUPER_ADMIN. */
  function Decide(g: Gate): (r: (Gate, Nav))
    ensures !g.authChecked ==> r == (g, Stay)
    ensures g.authChecked && g.me.None? ==> r == (g, Replace("/login"))
    ensures g.authChecked && g.me.Some? && g.me.value.role != SuperAdmin ==> r == (g, Replace("/galerie"))
    ensures r.0.allowed <==> g.allowed || (g.authChecked && g.me.Some? && g.me.value.role == SuperAdmin)
    ensures r.0.authChecked == g.authChecked && r.0.me == g.me
  {
    if !g.authChecked then (g, Stay)
    else if g.me.None? then (g, Replace("/login"))
    else if g.me.value.role != SuperAdmin then (g, Replace("/galerie"))
    else (g.(allowed := true), Stay)
  }

  /** The agencies are fetched once access is granted, and only then. */
  predicate FetchesAgencies(g: Gate) {
    g.allowed
  }

  /** The "checking rights" placeholder shows until both the check is done
      and access is granted. */
  predicate ShowsPlaceholder(g: Gate) {
    !g.authChecked || !g.allowed
  }

  /** The page from arrival to its decision, given the answer of
      `/api/auth/me`: only SUPER_ADMIN ever gets the page or the agencies;
      without a session the visitor is sent to /login, anyone else to
      /galerie. */
  lemma Arrival(r: MeResponse)
    ensures var (g, nav) := Decide(LoadAuth(Initial, r));
      && (FetchesAgencies(g) <==> LoadMe(r).Some? && LoadMe(r).value.role == SuperAdmin)
      && (!ShowsPlaceholder(g) <==> FetchesAgencies(g))
      && (LoadMe(r).None? ==> nav == Replace("/login"))
      && (LoadMe(r).Some? && LoadMe(r).value.role != SuperAdmin ==> nav == Replace("/galerie"))
      && (FetchesAgencies(g) ==> nav == Stay)
  {
  }

  /** Before the session check answers, no decision is taken and nothing
      is fetched. */
  lemma NothingBeforeCheck()
    ensures Decide(Initial) == (Initial, Stay)
    ensures !FetchesAgencies(Initial) && ShowsPlaceholder(Initial)
  {
  }
}
