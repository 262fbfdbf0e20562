/** The public gallery of the `app/` generation: the ACTIVE listings, the
    text, city, type and price filters, and the three sort orders. */
module GaleriePage {
  import opened Values
  import opened Strings
  import opened Session
  import opened Lists
  import opened Client

  /** The listings kept after a fetch: a reply that is not an array
      (`None`) gives none, otherwise exactly the ACTIVE ones, in order. */
  function ActiveOnly(data: Option<seq<ListingCard>>): (r: seq<ListingCard>)
    ensures data.None? ==> r == []
    ensures data.Some? ==> forall l :: l in r <==> l in data.value && l.status == "ACTIVE"
    ensures data.Some? ==> multiset(r) <= multiset(data.value)
  {
    match data
    case None => []
    case Some(arr) => Filter(arr, (l: ListingCard) => l.status == "ACTIVE")
  }

  /** The listings are fetched only once the session is known and a user
      is logged in. */
  predicate ShouldFetch(authChecked: bool, me: Option<UserView>) {
    authChecked && me.Some?
  }

  /** The filter controls, as text, as the page holds them. */
  datatype Filters = Filters(search: string, city: string, kind: string,
                             minPrice: string, maxPrice: string, sortMode: string)

  /** The controls as the page starts: nothing filtered, newest first. */
  const InitialFilters := Filters("", "ALL", "ALL", "", "", "DATE_DESC")

  /** Lower case, then combining marks removed. */
  function Fold(s: string): string {
    StripMarks(Lower(s))
  }

  /** The text the search looks in: title, city, country and type joined
      by spaces. */
  function Haystack(l: ListingCard): string {
    l.title + " " + l.city + " " + l.country + " " + l.kind
  }

  /** A blank search keeps every listing; otherwise the folded search text
      must occur in the folded haystack. */
  predicate TextMatches(search: string, l: ListingCard) {
    var txt := Lower(Trim(search));
    txt == "" || Contains(Fold(Haystack(l)), Fold(txt))
  }

  /** `"ALL"` keeps everything; any other choice requires equality. */
  predicate ChoiceMatches(choice: string, value: string) {
    choice == "ALL" || value == choice
  }

  /** A bound excludes a price only when it is set and is a number: an
      empty bound and a bound that is NaN exclude nothing. */
  predicate AboveMin(minPrice: string, p: int) {
    minPrice == "" || ParseNumber(minPrice).None? || p >= ParseNumber(minPrice).value
  }

  predicate BelowMax(maxPrice: string, p: int) {
    maxPrice == "" || ParseNumber(maxPrice).None? || p <= ParseNumber(maxPrice).value
  }

  /** Unpriced listings pass both bounds. */
  predicate PriceMatches(f: Filters, l: ListingCard) {
    l.price.None? || (AboveMin(f.minPrice, l.price.value) && BelowMax(f.maxPrice, l.price.value))
  }

  predicate Matches(f: Filters, l: ListingCard) {
    && TextMatches(f.search, l)
    && ChoiceMatches(f.city, l.city)
    && ChoiceMatches(f.kind, l.kind)
    && PriceMatches(f, l)
  }

  datatype SortMode = DateDesc | PriceAsc | PriceDesc

  /** `"PRICE_ASC"` and `"PRICE_DESC"` are recognised; anything else sorts
      by date. */
  function ModeOf(text: string): (m: SortMode)
    ensures m == PriceAsc <==> text == "PRICE_ASC"
    ensures m == PriceDesc <==> text == "PRICE_DESC"
  {
    if text == "PRICE_ASC" then PriceAsc
    else if text == "PRICE_DESC" then PriceDesc
    else DateDesc
  }

  /** The time the date sort uses: the creation time, 0 when absent. */
  function Millis(l: ListingCard): int {
    l.createdAt.GetOr(0)
  }

  /** The sign of the page's comparator, with the infinities written out:
      a missing price is `Infinity` ascending and `-Infinity` descending,
      and two missing prices compare as NaN, which the sort reads as 0. */
  function Comparator(m: SortMode, a: ListingCard, b: ListingCard): int {
    match m
    case PriceAsc =>
      if a.price.Some? && b.price.Some? then Sign(a.price.value - b.price.value)
      else if a.price.Some? then -1
      else if b.price.Some? then 1
      else 0
    case PriceDesc =>
      if a.price.Some? && b.price.Some? then Sign(b.price.value - a.price.value)
      else if a.price.Some? then -1
      else if b.price.Some? then 1
      else 0
    case DateDesc => Sign(Millis(b) - Millis(a))
  }

  function Sign(n: int): int {
    if n < 0 then -1 else if n > 0 then 1 else 0
  }

  /** A sort key with an infinity above every number. */
  datatype Ext = Fin(n: int) | Inf

  predicate ExtLe(a: Ext, b: Ext) {
    b.Inf? || (a.Fin? && a.n <= b.n)
  }

  /** The ascending key each mode orders by. */
  function Key(m: SortMode, l: ListingCard): Ext {
    match m
    case PriceAsc => if l.price.Some? then Fin(l.price.value) else Inf
    case PriceDesc => if l.price.Some? then Fin(-l.price.value) else Inf
    case DateDesc => Fin(-Millis(l))
  }

  /** The key order is exactly the order the comparator describes: `a` may
      come before `b` iff the comparator does not put it after. */
  lemma ComparatorAgreesWithKey(m: SortMode, a: ListingCard, b: ListingCard)
    ensures Comparator(m, a, b) <= 0 <==> ExtLe(Key(m, a), Key(m, b))
    ensures Comparator(m, a, b) == -Comparator(m, b, a)
  {
  }

  predicate SortedBy(m: SortMode, s: seq<ListingCard>) {
    forall i, j :: 0 <= i < j < |s| ==> ExtLe(Key(m, s[i]), Key(m, s[j]))
  }

  lemma ExtLeTrans(a: Ext, b: Ext, c: Ext)
    requires ExtLe(a, b) && ExtLe(b, c)
    ensures ExtLe(a, c)
  {
  }

  /** An element no greater than every element of a sorted sequence may
      head it. */
  lemma SortedCons(m: SortMode, x: ListingCard, s: seq<ListingCard>)
    requires SortedBy(m, s)
    requires forall y :: y in s ==> ExtLe(Key(m, x), Key(m, y))
    ensures SortedBy(m, [x] + s)
  {
    var r := [x] + s;
    forall i, j | 0 <= i < j < |r| ensures ExtLe(Key(m, r[i]), Key(m, r[j])) {
      assert r[j] == s[j - 1];
      if i > 0 {
        assert r[i] == s[i - 1];
      } else {
        assert s[j - 1] in s;
      }
    }
  }

  /** `x` inserted before the first element it does not follow. */
  function Insert(m: SortMode, x: ListingCard, s: seq<ListingCard>): (r: seq<ListingCard>)
    requires SortedBy(m, s)
    ensures multiset(r) == multiset(s) + multiset{x}
    ensures SortedBy(m, r)
  {
    if s == [] then [x]
    else
      assert s == [s[0]] + s[1..];
      if ExtLe(Key(m, x), Key(m, s[0])) then
        HeadIsLeast(m, x, s);
        SortedCons(m, x, s);
        [x] + s
      else
        var rest := Insert(m, x, s[1..]);
        InsertedAfterHead(m, x, s, rest);
        SortedCons(m, s[0], rest);
        [s[0]] + rest
  }

  /** What is no greater than the head of a sorted sequence is no greater
      than any of its elements. */
  lemma HeadIsLeast(m: SortMode, x: ListingCard, s: seq<ListingCard>)
    requires SortedBy(m, s) && s != []
    requires ExtLe(Key(m, x), Key(m, s[0]))
    ensures forall y :: y in s ==> ExtLe(Key(m, x), Key(m, y))
  {
    forall y | y in s ensures ExtLe(Key(m, x), Key(m, y)) {
      var k :| 0 <= k < |s| && s[k] == y;
      if k > 0 {
        ExtLeTrans(Key(m, x), Key(m, s[0]), Key(m, y));
      }
    }
  }

  /** The head of a sorted sequence that `x` does not precede is no greater
      than anything in the rest with `x` inserted. */
  lemma InsertedAfterHead(m: SortMode, x: ListingCard, s: seq<ListingCard>, rest: seq<ListingCard>)
    requires SortedBy(m, s) && s != []
    requires !ExtLe(Key(m, x), Key(m, s[0]))
    requires multiset(rest) == multiset(s[1..]) + multiset{x}
    ensures forall y :: y in rest ==> ExtLe(Key(m, s[0]), Key(m, y))
  {
    forall y | y in rest ensures ExtLe(Key(m, s[0]), Key(m, y)) {
      assert y in multiset(rest);
      if y != x {
        assert y in multiset(s[1..]);
        var k :| 0 <= k < |s[1..]| && s[1..][k] == y;
        assert s[k + 1] == y;
      }
    }
  }

  /** The sort: a sorted permutation of its input. */
  function Sort(m: SortMode, s: seq<ListingCard>): (r: seq<ListingCard>)
    ensures multiset(r) == multiset(s)
    ensures SortedBy(m, r)
  {
    if s == [] then []
    else
      assert s == [s[0]] + s[1..];
      Insert(m, s[0], Sort(m, s[1..]))
  }

  /** `filteredListings`: the listings that pass every filter, sorted by
      the chosen mode. */
  function Visible(f: Filters, listings: seq<ListingCard>): (r: seq<ListingCard>)
    ensures multiset(r) == multiset(Filter(listings, l => Matches(f, l)))
    ensures forall l :: l in r <==> l in listings && Matches(f, l)
    ensures SortedBy(ModeOf(f.sortMode), r)
  {
    var kept := Filter(listings, l => Matches(f, l));
    var r := Sort(ModeOf(f.sortMode), kept);
    assert forall l :: l in r <==> l in kept by {
      forall l ensures l in r <==> l in kept {
        assert l in r <==> l in multiset(r);
      }
    }
    r
  }

  /** Ascending price: prices never decrease, and unpriced listings come
      after every priced one. */
  lemma PriceAscOrder(f: Filters, listings: seq<ListingCard>)
    requires f.sortMode == "PRICE_ASC"
    ensures var r := Visible(f, listings);
      forall i, j :: 0 <= i < j < |r| ==>
        && (r[i].price.None? ==> r[j].price.None?)
        && (r[i].price.Some? && r[j].price.Some? ==> r[i].price.value <= r[j].price.value)
  {
  }

  /** Descending price: prices never increase, and unpriced listings still
      come last. */
  lemma PriceDescOrder(f: Filters, listings: seq<ListingCard>)
    requires f.sortMode == "PRICE_DESC"
    ensures var r := Visible(f, listings);
      forall i, j :: 0 <= i < j < |r| ==>
        && (r[i].price.None? ==> r[j].price.None?)
        && (r[i].price.Some? && r[j].price.Some? ==> r[i].price.value >= r[j].price.value)
  {
  }

  /** Newest first, an undated listing counting as time 0: so after every
      listing created after the epoch. */
  lemma DateDescOrder(f: Filters, listings: seq<ListingCard>)
    requires ModeOf(f.sortMode) == DateDesc
    ensures var r := Visible(f, listings);
      forall i, j :: 0 <= i < j < |r| ==>
        && Millis(r[i]) >= Millis(r[j])
        && (r[i].createdAt.None? && r[j].createdAt.Some? ==> r[j].createdAt.value <= 0)
  {
  }

  /** With the controls as the page starts, nothing is hidden: the gallery
      shows a reordering of every listing. */
  lemma InitialFiltersKeepAll(listings: seq<ListingCard>)
    ensures multiset(Visible(InitialFilters, listings)) == multiset(listings)
  {
    var f := InitialFilters;
    var p := l => Matches(f, l);
    forall i | 0 <= i < |listings| ensures p(listings[i]) {
      BlankFiltersMatch(f, listings[i]);
    }
    FilterAll(listings, p);
    assert multiset(Visible(f, listings)) == multiset(Filter(listings, p));
  }

  /** Blank text, "ALL" for both choices and no price bounds keep every
      listing, whatever the sort. */
  lemma BlankFiltersMatch(f: Filters, l: ListingCard)
    requires f.search == "" && f.city == "ALL" && f.kind == "ALL" && f.minPrice == "" && f.maxPrice == ""
    ensures Matches(f, l)
  {
    assert Trim("") == "";
    assert Lower("") == "";
    assert TextMatches(f.search, l);
  }

  lemma FoldAppend(a: string, b: string)
    ensures Fold(a + b) == Fold(a) + Fold(b)
  {
    assert Lower(a + b) == Lower(a) + Lower(b);
    StripMarksAppend(Lower(a), Lower(b));
  }

  lemma LowerIdempotent(s: string)
    ensures Lower(Lower(s)) == Lower(s)
  {
  }

  /** A search for text the title contains, ignoring spaces around it,
      finds the listing. */
  lemma SearchFindsTitle(search: string, l: ListingCard)
    requires Contains(l.title, Trim(search))
    ensures TextMatches(search, l)
  {
    var t := Trim(search);
    var i :| 0 <= i <= |l.title| && OccursAt(l.title, t, i);
    var pre := l.title[..i];
    var post := l.title[i + |t|..] + " " + l.city + " " + l.country + " " + l.kind;
    HaystackSplit(l, t, i);
    FoldedOccurrence(pre, t, post);
    LowerIdempotent(t);
    assert Fold(Lower(t)) == Fold(t);
    assert Contains(Fold(Haystack(l)), Fold(Lower(t)));
  }

  /** The haystack around an occurrence of `t` in the title. */
  lemma HaystackSplit(l: ListingCard, t: string, i: int)
    requires OccursAt(l.title, t, i)
    ensures Haystack(l) == l.title[..i] + t + (l.title[i + |t|..] + " " + l.city + " " + l.country + " " + l.kind)
  {
    assert l.title == l.title[..i] + t + l.title[i + |t|..];
  }

  /** Folding keeps an occurrence: the folded middle occurs in the folded
      whole. */
  lemma FoldedOccurrence(pre: string, t: string, post: string)
    ensures Contains(Fold(pre + t + post), Fold(t))
  {
    FoldAppend(pre + t, post);
    FoldAppend(pre, t);
    var hay := Fold(pre + t + post);
    assert hay == Fold(pre) + Fold(t) + Fold(post);
    assert hay[|Fold(pre)|..|Fold(pre)| + |Fold(t)|] == Fold(t);
    assert OccursAt(hay, Fold(t), |Fold(pre)|);
  }
}
