/** The side navigation of the `app/` generation: the session check, the
    role-driven menu, the active-link rule, the footer buttons and logout. */
module NavBar {
  import opened Values
  import opened Strings
  import opened Records
  import opened Session
  import opened Client

  /** What the bar knows about the session. */
  datatype NavState = NavState(authChecked: bool, isAuth: bool, user: Option<UserView>)

  /** Before `checkAuth` has answered. */
  const Unchecked := NavState(false, false, None)

  /** `checkAuth()`: an ok reply counts as logged in even when its body
      holds no user; a reply that is not ok and a failed request count as
      logged out. Either way the check is then done. */
  function CheckAuth(r: MeResponse): (st: NavState)
    ensures st.authChecked
    ensures st.isAuth <==> r.OkJson?
    ensures st.user == LoadMe(r)
    ensures st.user.Some? ==> st.isAuth
  {
    match r
    case OkJson(u) => NavState(true, true, u)
    case _ => NavState(true, false, None)
  }

  /** A menu entry: its target, its icon and its tooltip. */
  datatype Link = Link(href: string, icon: string, title: string)

  const Gallery := Link("/galerie", "🖼️", "Vitrine publique des annonces")
  const Dashboard := Link("/", "🏠", "Tableau de bord")
  const Listings := Link("/annonces", "📋", "Annonces")
  const Agencies := Link("/agences", "🏢", "Gestion des agences")
  const AdminAgencies := Link("/admin/agences", "🌍", "Admin – Toutes les agences du monde")

  predicate IsSuperAdmin(user: Option<UserView>) {
    user.Some? && user.value.role == SuperAdmin
  }

  /** `!!user?.agencyId`. */
  predicate HasAgency(user: Option<UserView>) {
    user.Some? && user.value.agencyId.Some?
  }

  function Hrefs(links: seq<Link>): (r: seq<string>)
    ensures |r| == |links| && forall i :: 0 <= i < |links| ==> r[i] == links[i].href
  {
    seq(|links|, i requires 0 <= i < |links| => links[i].href)
  }

  /** `links`: the gallery for everyone; the dashboard first and the
      listing management after the gallery for SUPER_ADMIN and for a user
      with an agency; the two agency pages last, for SUPER_ADMIN only. */
  function Links(user: Option<UserView>): (r: seq<Link>)
    ensures "/galerie" in Hrefs(r)
    ensures "/" in Hrefs(r) <==> IsSuperAdmin(user) || HasAgency(user)
    ensures "/" in Hrefs(r) ==> r[0] == Dashboard
    ensures "/annonces" in Hrefs(r) <==> IsSuperAdmin(user) || HasAgency(user)
    ensures "/agences" in Hrefs(r) <==> IsSuperAdmin(user)
    ensures "/admin/agences" in Hrefs(r) <==> IsSuperAdmin(user)
    ensures IsSuperAdmin(user) ==> Hrefs(r) == ["/", "/galerie", "/annonces", "/agences", "/admin/agences"]
    ensures !IsSuperAdmin(user) && HasAgency(user) ==> Hrefs(r) == ["/", "/galerie", "/annonces"]
    ensures !IsSuperAdmin(user) && !HasAgency(user) ==> Hrefs(r) == ["/galerie"]
    ensures forall i, j :: 0 <= i < j < |r| ==> r[i].href != r[j].href
  {
    var base := [Gallery];
    var withAgency := if IsSuperAdmin(user) || HasAgency(user) then [Dashboard] + base + [Listings] else base;
    var r := if IsSuperAdmin(user) then withAgency + [Agencies, AdminAgencies] else withAgency;
    assert Hrefs(r) == (if IsSuperAdmin(user) then ["/", "/galerie", "/annonces", "/agences", "/admin/agences"]
                        else if HasAgency(user) then ["/", "/galerie", "/annonces"]
                        else ["/galerie"]) by {
      if IsSuperAdmin(user) {
        assert r == [Dashboard, Gallery, Listings, Agencies, AdminAgencies];
      } else if HasAgency(user) {
        assert r == [Dashboard, Gallery, Listings];
      }
    }
    r
  }

  /** The highlight rule: the exact page, or any admin page for the admin
      link. */
  predicate IsActive(pathname: string, href: string) {
    pathname == href || (StartsWith(href, "/admin") && StartsWith(pathname, "/admin"))
  }

  /** A text that differs from `prefix` at some index within both does
      not start with it. */
  lemma DiffersAt(s: string, prefix: string, k: nat)
    requires k < |s| && k < |prefix| && s[k] != prefix[k]
    ensures !StartsWith(s, prefix)
  {
    if |prefix| <= |s| {
      assert s[..|prefix|][k] == s[k];
    }
  }

  /** Only the admin agencies link begins with "/admin". */
  lemma OnlyOneAdminLink(user: Option<UserView>, i: int)
    requires 0 <= i < |Links(user)| && StartsWith(Links(user)[i].href, "/admin")
    ensures Links(user)[i] == AdminAgencies
  {
    var r := Links(user);
    assert Hrefs(r)[i] == r[i].href;
    DiffersAt("/galerie", "/admin", 1);
    DiffersAt("/annonces", "/admin", 2);
    DiffersAt("/agences", "/admin", 2);
  }

  /** A highlighted link is the current page's, or the admin link. */
  lemma ActiveIsPageOrAdmin(user: Option<UserView>, pathname: string, i: int)
    requires 0 <= i < |Links(user)| && IsActive(pathname, Links(user)[i].href)
    ensures Links(user)[i].href == pathname || (Links(user)[i] == AdminAgencies && StartsWith(pathname, "/admin"))
  {
    if Links(user)[i].href != pathname {
      OnlyOneAdminLink(user, i);
    }
  }

  /** Whatever the page, at most one menu link is highlighted. */
  lemma AtMostOneActive(user: Option<UserView>, pathname: string, i: int, j: int)
    requires 0 <= i < |Links(user)| && 0 <= j < |Links(user)|
    requires IsActive(pathname, Links(user)[i].href) && IsActive(pathname, Links(user)[j].href)
    ensures i == j
  {
    var r := Links(user);
    ActiveIsPageOrAdmin(user, pathname, i);
    ActiveIsPageOrAdmin(user, pathname, j);
    if StartsWith(pathname, "/admin") {
      if r[i].href == pathname {
        OnlyOneAdminLink(user, i);
      }
      if r[j].href == pathname {
        OnlyOneAdminLink(user, j);
      }
    }
    assert r[i].href == r[j].href;
  }

  /** The buttons of the footer. */
  datatype FooterButton = LoginButton | RegisterButton | LogoutButton | SettingsButton

  /** Login and register while logged out, logout while logged in, nothing
      of the sort until the check is done, and settings always, last. */
  function Footer(st: NavState): (r: seq<FooterButton>)
    ensures LoginButton in r <==> st.authChecked && !st.isAuth
    ensures RegisterButton in r <==> st.authChecked && !st.isAuth
    ensures LogoutButton in r <==> st.authChecked && st.isAuth
    ensures |r| > 0 && r[|r| - 1] == SettingsButton
  {
    var session := if !st.authChecked then [] else if !st.isAuth then [LoginButton, RegisterButton] else [LogoutButton];
    session + [SettingsButton]
  }

  /** `handleLogout()`: whether or not the logout request succeeds
      (`requestOk`), the user is forgotten and the browser goes to the
      login page. */
  function Logout(st: NavState, requestOk: bool): (r: (NavState, Nav))
    ensures !r.0.isAuth && r.0.user.None? && r.0.authChecked == st.authChecked
    ensures r.1 == Push("/login")
  {
    (st.(isAuth := false, user := None), Push("/login"))
  }

  /** After logout, once the session has been checked, the footer offers
      login again and the menu is down to the gallery. */
  lemma LogoutShowsLogin(st: NavState, requestOk: bool)
    requires st.authChecked
    ensures LoginButton in Footer(Logout(st, requestOk).0)
    ensures LogoutButton !in Footer(Logout(st, requestOk).0)
    ensures Links(Logout(st, requestOk).0.user) == [Gallery]
  {
  }

  /** An ok reply without a user shows the logout button but only the
      gallery link. */
  lemma EmptyOkReply()
    ensures LogoutButton in Footer(CheckAuth(OkJson(None)))
    ensures Links(CheckAuth(OkJson(None)).user) == [Gallery]
  {
  }
}
