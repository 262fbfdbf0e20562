/** The older side navigation in `components/`: a fixed list of three
    links filtered by role, an admin button for SUPER_ADMIN, exact-match
    highlighting, and a login or logout button. The session check and
    logout behave as in the `app/` bar. */
module ComponentsNavBar {
  import opened Values
  import opened Records
  import opened Session
  import NavBar

  const Dashboard := NavBar.Link("/", "🏠", "Dashboard")
  const Agencies := NavBar.Link("/agences", "🏢", "Agences")
  const Listings := NavBar.Link("/annonces", "📋", "Annonces")

  /** The fixed link list, in order. */
  const StaticLinks := [Dashboard, Agencies, Listings]

  /** The filter: "/agences" only for SUPER_ADMIN, every other link for
      everyone. */
  predicate Shown(user: Option<UserView>, l: NavBar.Link) {
    l.href != "/agences" || NavBar.IsSuperAdmin(user)
  }

  /** The links shown: the fixed list, in its order, with the agencies
      page kept only for SUPER_ADMIN (the first and last entries pass the
      filter for everyone). */
  function Links(user: Option<UserView>): (r: seq<NavBar.Link>)
    ensures Agencies in r <==> NavBar.IsSuperAdmin(user)
    ensures NavBar.IsSuperAdmin(user) ==> r == StaticLinks
    ensures !NavBar.IsSuperAdmin(user) ==> r == [Dashboard, Listings]
  {
    [Dashboard] + (if Shown(user, Agencies) then [Agencies] else []) + [Listings]
  }

  /** A link is highlighted only on its own page. */
  predicate IsActive(pathname: string, href: string) {
    pathname == href
  }

  /** Whatever the page, at most one link is highlighted. */
  lemma AtMostOneActive(user: Option<UserView>, pathname: string, i: int, j: int)
    requires 0 <= i < |Links(user)| && 0 <= j < |Links(user)|
    requires IsActive(pathname, Links(user)[i].href) && IsActive(pathname, Links(user)[j].href)
    ensures i == j
  {
  }

  /** The admin button: shown to SUPER_ADMIN only, highlighted on the
      admin agencies page only (`None` when not shown, otherwise whether
      it is highlighted). */
  function AdminButton(user: Option<UserView>, pathname: string): (r: Option<bool>)
    ensures r.Some? <==> NavBar.IsSuperAdmin(user)
    ensures r.Some? ==> (r.value <==> pathname == "/admin/agences")
  {
    if NavBar.IsSuperAdmin(user) then Some(pathname == "/admin/agences") else None
  }

  /** The buttons of the footer: one of login and logout once the check is
      done, none before, settings always; no register button here. */
  function Footer(st: NavBar.NavState): (r: seq<NavBar.FooterButton>)
    ensures NavBar.LoginButton in r <==> st.authChecked && !st.isAuth
    ensures NavBar.LogoutButton in r <==> st.authChecked && st.isAuth
    ensures NavBar.RegisterButton !in r
    ensures |r| > 0 && r[|r| - 1] == NavBar.SettingsButton
  {
    var session := if !st.authChecked then [] else if !st.isAuth then [NavBar.LoginButton] else [NavBar.LogoutButton];
    session + [NavBar.SettingsButton]
  }

  /** Login and logout never show together. */
  lemma LoginLogoutExclusive(st: NavBar.NavState)
    ensures !(NavBar.LoginButton in Footer(st) && NavBar.LogoutButton in Footer(st))
  {
  }
}
