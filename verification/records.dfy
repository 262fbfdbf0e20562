/** The persistent records (agencies, users, listings and their images) and
    an in-memory store standing in for the relational database. Creating a
    record hands it the next free id; a reference to a missing agency or
    listing is refused, as the database's foreign keys refuse it. */
module Records {
  import opened Values

  datatype Role = SuperAdmin | AgencyAdmin | Agent
  datatype Status = Active | Draft | Archived

  /** The enum value as stored and sent over JSON. */
  function StatusName(st: Status): string {
    match st
    case Active => "ACTIVE"
    case Draft => "DRAFT"
    case Archived => "ARCHIVED"
  }

  /** The database accepts exactly the three enum names; any other text is
      refused (`None`). */
  function ParseStatus(t: string): (r: Option<Status>)
    ensures r.Some? <==> t in {"ACTIVE", "DRAFT", "ARCHIVED"}
    ensures r.Some? ==> StatusName(r.value) == t
  {
    if t == "ACTIVE" then Some(Active)
    else if t == "DRAFT" then Some(Draft)
    else if t == "ARCHIVED" then Some(Archived)
    else None
  }

  lemma StatusNameRoundTrip(st: Status)
    ensures ParseStatus(StatusName(st)) == Some(st)
  {
  }

  datatype Agency = Agency(
    id: Id, name: string, slug: Option<string>, city: string, country: string,
    email: Option<string>, phone: Option<string>)

  datatype User = User(
    id: Id, email: string, name: string, passwordHash: string, role: Role,
    agencyId: Option<Id>, isActive: bool, lastLoginAt: Option<int>)

  /** A listing. `price` is `None` when the stored value is not a number;
      `kind` is the listing's `type` (sale, rental, ...). */
  datatype Listing = Listing(
    id: Id, title: string, description: Option<string>, city: string, country: string,
    price: Option<int>, currency: string, status: Status, kind: string, agencyId: Id)

  datatype ListingImage = ListingImage(id: Id, listingId: Id, url: string, position: nat)

  datatype Store = Store(
    users: seq<User>, agencies: seq<Agency>, listings: seq<Listing>,
    images: seq<ListingImage>, nextId: Id)

  /** The user fields the routes select after creating a user. */
  datatype UserSummary = UserSummary(id: Id, email: string, name: string, role: Role, agencyId: Option<Id>)

  function Summary(u: User): UserSummary {
    UserSummary(u.id, u.email, u.name, u.role, u.agencyId)
  }

  /** Accounts are created active; the column default itself is not part of
      this model. */
  const NewAccountActive := true

  predicate HasAgency(s: Store, id: Id) {
    exists a :: a in s.agencies && a.id == id
  }

  predicate HasListing(s: Store, id: Id) {
    exists l :: l in s.listings && l.id == id
  }

  ghost predicate UniqueEmails(users: seq<User>) {
    forall i, j :: 0 <= i < j < |users| ==> users[i].email != users[j].email
  }

  ghost predicate UniqueUserIds(users: seq<User>) {
    forall i, j :: 0 <= i < j < |users| ==> users[i].id != users[j].id
  }

  ghost predicate UniqueAgencyIds(agencies: seq<Agency>) {
    forall i, j :: 0 <= i < j < |agencies| ==> agencies[i].id != agencies[j].id
  }

  /** Every id is below the next free id, e-mails and agency ids are unique,
      and every reference points at an existing record. */
  ghost predicate Valid(s: Store) {
    && (forall u :: u in s.users ==> u.id < s.nextId)
    && (forall a :: a in s.agencies ==> a.id < s.nextId)
    && (forall l :: l in s.listings ==> l.id < s.nextId)
    && (forall im :: im in s.images ==> im.id < s.nextId)
    && UniqueEmails(s.users)
    && UniqueUserIds(s.users)
    && UniqueAgencyIds(s.agencies)
    && (forall u :: u in s.users && u.agencyId.Some? ==> HasAgency(s, u.agencyId.value))
    && (forall l :: l in s.listings ==> HasAgency(s, l.agencyId))
    && (forall im :: im in s.images ==> HasListing(s, im.listingId))
  }

  /** `user.findUnique({ where: { email } })`. */
  function FindUserByEmail(users: seq<User>, email: string): (r: Option<User>)
    ensures r.Some? ==> r.value in users && r.value.email == email
    ensures r.None? ==> forall u :: u in users ==> u.email != email
  {
    if users == [] then None
    else if users[0].email == email then Some(users[0])
    else FindUserByEmail(users[1..], email)
  }

  /** `user.findUnique({ where: { id } })`. */
  function FindUserById(users: seq<User>, id: Id): (r: Option<User>)
    ensures r.Some? ==> r.value in users && r.value.id == id
    ensures r.None? ==> forall u :: u in users ==> u.id != id
  {
    if users == [] then None
    else if users[0].id == id then Some(users[0])
    else FindUserById(users[1..], id)
  }

  /** `agency.findUnique({ where: { id } })`. */
  function FindAgency(agencies: seq<Agency>, id: Id): (r: Option<Agency>)
    ensures r.Some? ==> r.value in agencies && r.value.id == id
    ensures r.None? ==> forall a :: a in agencies ==> a.id != id
  {
    if agencies == [] then None
    else if agencies[0].id == id then Some(agencies[0])
    else FindAgency(agencies[1..], id)
  }

  /** `agency.create`: the agency is stored under the next free id. */
  function CreateAgency(s: Store, a: Agency): (r: (Store, Agency))
    ensures r.1 == a.(id := s.nextId)
    ensures r.0.agencies == s.agencies + [r.1]
    ensures r.0.users == s.users && r.0.listings == s.listings && r.0.images == s.images
    ensures r.0.nextId == s.nextId + 1
    ensures Valid(s) ==> Valid(r.0)
  {
    var stored := a.(id := s.nextId);
    var s' := s.(agencies := s.agencies + [stored], nextId := s.nextId + 1);
    assert Valid(s) ==> Valid(s') by {
      if Valid(s) {
        assert forall x :: HasAgency(s, x) ==> HasAgency(s', x);
        assert forall x :: HasListing(s, x) ==> HasListing(s', x);
      }
    }
    (s', stored)
  }

  /** A new user whose e-mail is not taken and whose agency, if any, exists. */
  predicate Admissible(s: Store, u: User) {
    && FindUserByEmail(s.users, u.email).None?
    && (u.agencyId.Some? ==> HasAgency(s, u.agencyId.value))
  }

  /** `user.create`: the user is stored under the next free id. The store
      stays valid when the e-mail is new and the agency exists. */
  function CreateUser(s: Store, u: User): (r: (Store, User))
    ensures r.1 == u.(id := s.nextId)
    ensures r.0.users == s.users + [r.1]
    ensures r.0.agencies == s.agencies && r.0.listings == s.listings && r.0.images == s.images
    ensures r.0.nextId == s.nextId + 1
    ensures Valid(s) && Admissible(s, u) ==> Valid(r.0)
  {
    var stored := u.(id := s.nextId);
    var s' := s.(users := s.users + [stored], nextId := s.nextId + 1);
    assert Valid(s) && Admissible(s, u) ==> Valid(s') by {
      if Valid(s) && FindUserByEmail(s.users, u.email).None? {
        assert forall x :: HasAgency(s, x) ==> HasAgency(s', x);
        assert forall x :: HasListing(s, x) ==> HasListing(s', x);
        forall i, j | 0 <= i < j < |s'.users|
          ensures s'.users[i].email != s'.users[j].email && s'.users[i].id != s'.users[j].id
        {
          if j == |s.users| {
            assert s.users[i] in s.users;
          }
        }
      }
    }
    (s', stored)
  }

  /** The image rows for `urls`: one per URL, in order, with positions
      0 to n-1 and fresh ids starting at `firstId`. */
  function ImageRows(listingId: Id, urls: seq<string>, firstId: Id): (r: seq<ListingImage>)
    ensures |r| == |urls|
    ensures forall i :: 0 <= i < |r| ==> r[i].url == urls[i] && r[i].position == i
    ensures forall i :: 0 <= i < |r| ==> r[i].listingId == listingId && r[i].id == firstId + i
  {
    seq(|urls|, i requires 0 <= i < |urls| => ListingImage(firstId + i, listingId, urls[i], i))
  }

  /** `listing.create` with nested image creation. The database refuses a
      listing whose agency does not exist (`None`). */
  function CreateListing(s: Store, l: Listing, urls: seq<string>): (r: Option<(Store, Listing, seq<ListingImage>)>)
    ensures r.None? <==> !HasAgency(s, l.agencyId)
    ensures r.Some? ==> var (s', stored, imgs) := r.value;
      && stored == l.(id := s.nextId)
      && s'.listings == s.listings + [stored]
      && s'.images == s.images + imgs
      && imgs == ImageRows(stored.id, urls, s.nextId + 1)
      && s'.users == s.users && s'.agencies == s.agencies
      && s'.nextId == s.nextId + 1 + |urls|
    ensures r.Some? && Valid(s) ==> Valid(r.value.0)
  {
    if !HasAgency(s, l.agencyId) then None
    else
      var stored := l.(id := s.nextId);
      var imgs := ImageRows(stored.id, urls, s.nextId + 1);
      var s' := s.(listings := s.listings + [stored], images := s.images + imgs,
                   nextId := s.nextId + 1 + |urls|);
      assert Valid(s) ==> Valid(s') by {
        if Valid(s) {
          assert forall x :: HasAgency(s, x) ==> HasAgency(s', x);
          assert HasListing(s', stored.id) by { assert stored in s'.listings; }
          forall im | im in s'.images ensures HasListing(s', im.listingId) && im.id < s'.nextId {
            if im !in s.images {
              var k :| 0 <= k < |imgs| && imgs[k] == im;
            }
          }
        }
      }
      Some((s', stored, imgs))
  }

  /** The users with one user's `lastLoginAt` set to `now`. */
  function TouchLogin(users: seq<User>, id: Id, now: int): (r: seq<User>)
    ensures |r| == |users|
    ensures forall i :: 0 <= i < |users| ==>
      r[i] == (if users[i].id == id then users[i].(lastLoginAt := Some(now)) else users[i])
  {
    seq(|users|, i requires 0 <= i < |users| =>
      if users[i].id == id then users[i].(lastLoginAt := Some(now)) else users[i])
  }

  /** Recording a login keeps the store valid: ids, e-mails and agency
      links are untouched. */
  lemma TouchLoginValid(s: Store, id: Id, now: int)
    requires Valid(s)
    ensures Valid(s.(users := TouchLogin(s.users, id, now)))
  {
    var s' := s.(users := TouchLogin(s.users, id, now));
    assert forall i :: 0 <= i < |s.users| ==>
      s'.users[i].id == s.users[i].id && s'.users[i].email == s.users[i].email
      && s'.users[i].agencyId == s.users[i].agencyId;
    assert UniqueEmails(s'.users) && UniqueUserIds(s'.users);
    forall u | u in s'.users
      ensures u.id < s'.nextId && (u.agencyId.Some? ==> HasAgency(s', u.agencyId.value))
    {
      var i :| 0 <= i < |s'.users| && s'.users[i] == u;
      assert s.users[i] in s.users;
    }
  }

  /** A user appended under an e-mail nobody had is the one found by it. */
  lemma FindAppendedUser(users: seq<User>, u: User)
    requires FindUserByEmail(users, u.email).None?
    ensures FindUserByEmail(users + [u], u.email) == Some(u)
  {
    if users != [] {
      assert (users + [u])[1..] == users[1..] + [u];
      assert users[0] in users;
      FindAppendedUser(users[1..], u);
    }
  }
}
