/** Route replies, the session token and cookie, and the server-side lookup
    of the current user from the `auth_token` cookie. Signing and verifying
    a token are left to an oracle: the model keeps the claims a token
    carries and treats verification as a function from cookie text to
    claims. */
module Session {
  import opened Values
  import opened Records

  const Ok := 200
  const Created := 201
  const BadRequest := 400
  const Unauthorized := 401
  const Forbidden := 403
  const ServerError := 500

  datatype Body<+T> = Failed(error: string) | Done(value: T)

  /** What a route handler produces: the HTTP status, the JSON body, the
      store after the request, and the session cookie it sets, if any. */
  datatype Reply<+T> = Reply(status: nat, body: Body<T>, store: Store, cookie: Option<Cookie>)

  /** A failure reply: nothing stored, no cookie. */
  function Fail<T>(status: nat, message: string, s: Store): (r: Reply<T>)
    ensures r.store == s && r.cookie.None? && r.body == Failed(message) && r.status == status
  {
    Reply(status, Failed(message), s, None)
  }

  /** The claims a session token carries. */
  datatype Claims = Claims(userId: Id, role: Role, agencyId: Option<Id>)

  /** What `jwt.sign` is asked to sign: the claims and the lifetime. */
  datatype TokenRequest = TokenRequest(claims: Claims, expiresInSeconds: nat)

  /** The `auth_token` cookie: the signed token and the cookie options. */
  datatype Cookie = Cookie(name: string, token: TokenRequest, maxAgeSeconds: nat,
                           httpOnly: bool, sameSite: string, path: string)

  const CookieName := "auth_token"
  const SevenDaysInSeconds := 7 * 24 * 60 * 60

  /** `signAuthToken(user)`: exactly the user's id, role and agency id
      (an absent agency id becomes null), valid for seven days. */
  function SignAuthToken(u: UserSummary): (t: TokenRequest)
    ensures t.claims.userId == u.id && t.claims.role == u.role && t.claims.agencyId == u.agencyId
    ensures t.expiresInSeconds == 604800
  {
    TokenRequest(Claims(u.id, u.role, u.agencyId), SevenDaysInSeconds)
  }

  /** The cookie the login and registration routes set for `u`: it lives
      as long as the token inside it. */
  function AuthCookie(u: UserSummary): (c: Cookie)
    ensures c.name == "auth_token" && c.token.claims.userId == u.id
    ensures c.maxAgeSeconds == c.token.expiresInSeconds
    ensures c.httpOnly && c.path == "/" && c.sameSite == "lax"
  {
    Cookie(CookieName, SignAuthToken(u), SevenDaysInSeconds, true, "lax", "/")
  }

  /** The agency fields the current-user projection includes. */
  datatype AgencyBrief = AgencyBrief(id: Id, name: string, city: string, country: string)

  /** The current-user projection: no password hash, the agency reduced to
      its brief, `None` when the user has no agency. */
  datatype UserView = UserView(id: Id, email: string, name: string, role: Role,
                               agencyId: Option<Id>, agency: Option<AgencyBrief>)

  /** The agency's id, name, city and country, nothing else. */
  function Brief(a: Agency): AgencyBrief {
    AgencyBrief(a.id, a.name, a.city, a.country)
  }

  /** The projection of a stored user, with its agency looked up. */
  function ViewOf(s: Store, u: User): (v: UserView)
    ensures Summary(u) == UserSummary(v.id, v.email, v.name, v.role, v.agencyId)
    ensures u.agencyId.None? ==> v.agency.None?
    ensures Valid(s) && u in s.users && u.agencyId.Some? ==>
      exists a :: a in s.agencies && a.id == u.agencyId.value && v.agency == Some(Brief(a))
    ensures v.agency.Some? ==> exists a :: a in s.agencies && Some(a.id) == u.agencyId && v.agency == Some(Brief(a))
  {
    var agency := match u.agencyId
      case None => None
      case Some(id) =>
        match FindAgency(s.agencies, id)
        case None => None
        case Some(a) => Some(Brief(a));
    UserView(u.id, u.email, u.name, u.role, u.agencyId, agency)
  }

  /** `getCurrentUserServer()`. `cookie` is the `auth_token` cookie's value,
      `verify` stands for `jwt.verify` (`None` when it throws). A missing
      cookie, a token that does not verify and an unknown user all give
      `None`: the lookup never fails with an error. The role and agency come
      from the stored user, not from the token. */
  function CurrentUser(cookie: Option<string>, verify: string -> Option<Claims>, s: Store): (r: Option<UserView>)
    ensures !Present(cookie) ==> r.None?
    ensures Present(cookie) && verify(cookie.value).None? ==> r.None?
    ensures r.Some? ==> exists u :: u in s.users && r.value == ViewOf(s, u)
    ensures r.Some? ==> r.value.id == verify(cookie.value).value.userId
    ensures (Present(cookie) && verify(cookie.value).Some?
             && FindUserById(s.users, verify(cookie.value).value.userId).Some?) ==> r.Some?
  {
    if !Present(cookie) then None
    else match verify(cookie.value)
      case None => None
      case Some(claims) =>
        match FindUserById(s.users, claims.userId)
        case None => None
        case Some(u) => Some(ViewOf(s, u))
  }

  /** A session cookie issued for a stored user leads back to that user,
      given a verifier that recovers the claims it was issued with. */
  lemma SessionRoundTrip(s: Store, u: User, token: string, verify: string -> Option<Claims>)
    requires Valid(s) && u in s.users
    requires token != "" && verify(token) == Some(AuthCookie(Summary(u)).token.claims)
    ensures CurrentUser(Some(token), verify, s) == Some(ViewOf(s, u))
  {
    var found := FindUserById(s.users, u.id);
    assert found.Some?;
  }
}
