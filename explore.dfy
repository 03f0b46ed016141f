/** The explore app: the featured-business flag, unified search over businesses and
    products, suggested businesses, trending products and top-rated businesses. Every
    view here only reads; each is a filter, a score and an ordering over the tables. */
module Explore {
  import opened Common
  import opened Tables
  import opened Sorting
  import Accounts
  import Ratings
  import Businesses
  import Products

  /** `StandardPagination`: page size 12, a client-chosen size of at most 100. */
  const PageSize: nat := 12
  const MaxPageSize: nat := 100

  // ---------------------------------------------------------------------------
  // FeaturedBusiness
  // ---------------------------------------------------------------------------

  datatype FeaturedBusiness = FeaturedBusiness(business: Id, promotedUntil: Option<Time>, note: string)

  /** `FeaturedBusiness.is_active`: open-ended, or promoted until strictly after `now`. */
  predicate IsActive(f: FeaturedBusiness, now: Time) {
    f.promotedUntil.None? || f.promotedUntil.value > now
  }

  /** No end date means active; an end date means active exactly before it, so at the end
      instant itself the promotion is over. */
  lemma ActiveWindow(f: FeaturedBusiness, now: Time)
    ensures f.promotedUntil.None? ==> IsActive(f, now)
    ensures f.promotedUntil.Some? ==> (IsActive(f, now) <==> now < f.promotedUntil.value)
    ensures f.promotedUntil == Some(now) ==> !IsActive(f, now)
  {
  }

  /** A promotion that has ended stays ended. */
  lemma EndedStaysEnded(f: FeaturedBusiness, now: Time, later: Time)
    requires now <= later && !IsActive(f, now)
    ensures !IsActive(f, later)
  {
  }

  /** `OneToOneField(Business)`: a business has at most one featured row. */
  ghost predicate OneFeaturePerBusiness(fs: seq<FeaturedBusiness>) {
    forall i, j :: 0 <= i < |fs| && 0 <= j < |fs| && fs[i].business == fs[j].business ==> i == j
  }

  function FeaturesOf(b: Id): FeaturedBusiness -> bool { (f: FeaturedBusiness) => f.business == b }

  /** `featured__isnull=False`: the business has a featured row. */
  predicate HasFeature(fs: seq<FeaturedBusiness>, b: Id) {
    FindFirst(fs, FeaturesOf(b)).Some?
  }

  lemma HasFeatureWitness(fs: seq<FeaturedBusiness>, b: Id)
    ensures HasFeature(fs, b) <==> exists f :: f in fs && f.business == b
  {
    if HasFeature(fs, b) {
      assert fs[FindFirst(fs, FeaturesOf(b)).value] in fs;
    }
  }

  /** With one featured row per business (`OneToOneField`), a featured business has exactly
      one featured row and any other business none. */
  lemma {:induction false} FeatureCountIsFlag(fs: seq<FeaturedBusiness>, b: Id)
    requires OneFeaturePerBusiness(fs)
    ensures Count(fs, FeaturesOf(b)) == if HasFeature(fs, b) then 1 else 0
  {
    var p := FeaturesOf(b);
    HasFeatureWitness(fs, b);
    if fs != [] {
      HasFeatureWitness(fs[1..], b);
      var t := fs[1..];
      assert OneFeaturePerBusiness(t) by {
        forall i, j | 0 <= i < |t| && 0 <= j < |t| && t[i].business == t[j].business ensures i == j {
          assert fs[i + 1] == t[i] && fs[j + 1] == t[j];
        }
      }
      FeatureCountIsFlag(t, b);
      assert Filter(fs, p) == (if p(fs[0]) then [fs[0]] else []) + Filter(t, p);
      if p(fs[0]) {
        forall k | 0 <= k < |t| ensures !p(t[k]) {
          assert fs[k + 1] == t[k];
        }
        assert HasFeature(fs, b) by {
          assert fs[0] in fs;
        }
      } else {
        assert HasFeature(fs, b) <==> HasFeature(t, b) by {
          if HasFeature(fs, b) {
            var f :| f in fs && f.business == b;
            assert f in t;
          }
          if HasFeature(t, b) {
            var f :| f in t && f.business == b;
            assert f in fs;
          }
        }
      }
    }
  }

  // ---------------------------------------------------------------------------
  // The tables the explore views join
  // ---------------------------------------------------------------------------

  datatype Catalog = Catalog(
    users: seq<Accounts.User>,
    ratings: seq<Ratings.Rating>,
    businesses: seq<Businesses.Business>,
    categories: seq<Products.Category>,
    products: seq<Products.Product>,
    views: seq<Products.ProductView>,
    featured: seq<FeaturedBusiness>)

  function UserOf(users: seq<Accounts.User>, id: Id): Option<Accounts.User> {
    match Accounts.UserIndex(users, id)
    case None => None
    case Some(i) => Some(users[i])
  }

  function FollowersOf(users: seq<Accounts.User>, id: Id): nat {
    match UserOf(users, id)
    case None => 0
    case Some(u) => u.followersCount
  }

  predicate BusinessLikeOwner(users: seq<Accounts.User>, id: Id) {
    UserOf(users, id).Some? && Accounts.IsBusinessLike(UserOf(users, id).value.accountType)
  }

  /** `Avg('owner__received_ratings__stars')`: the mean of the stars the user received,
      and nothing (SQL NULL) when there are none. */
  function AverageOf(ratings: seq<Ratings.Rating>, u: Id): (r: Option<real>)
    requires Ratings.StarsInRange(ratings)
    ensures r.None? <==> Ratings.RatingCount(ratings, u) == 0
    ensures r.Some? ==> 1.0 <= r.value <= 5.0 && r.value == Ratings.Mean(ratings, u)
  {
    Ratings.MeanBounds(ratings, u);
    if Ratings.RatingCount(ratings, u) == 0 then None else Some(Ratings.Mean(ratings, u))
  }

  // ---------------------------------------------------------------------------
  // Orderings: `order_by('-a', '-b', ...)` as a key compared field by field
  // ---------------------------------------------------------------------------

  /** Up to four sort columns, each compared larger-first. An ascending column is stored
      negated; an unused one is 0. */
  datatype RankKey = RankKey(k1: real, k2: real, k3: real, k4: real)

  predicate RanksFirst(x: RankKey, y: RankKey) {
    || x.k1 > y.k1
    || (x.k1 == y.k1 && (x.k2 > y.k2 || (x.k2 == y.k2 && (x.k3 > y.k3 || (x.k3 == y.k3 && x.k4 >= y.k4)))))
  }

  /** A sort by the key: a permutation in which every element ranks no later than
      the ones after it. */
  function OrderByKey<T(!new)>(s: seq<T>, key: T -> RankKey): (r: seq<T>)
    ensures multiset(r) == multiset(s)
    ensures forall i, j :: 0 <= i < j < |r| ==> RanksFirst(key(r[i]), key(r[j]))
  {
    var le := (a: T, b: T) => RanksFirst(key(a), key(b));
    assert Total(le);
    assert Transitive(le);
    SortBySorted(s, le);
    SortBy(s, le)
  }

  /** Where an average sorts under `-avg`. The database decides where NULL goes, so that
      is a parameter: `nullsFirst` puts businesses without ratings before all others. */
  function NullRank(avg: Option<real>, nullsFirst: bool): real {
    if avg.Some? then 0.0 else if nullsFirst then 1.0 else -1.0
  }

  function AvgValue(avg: Option<real>): real {
    if avg.Some? then avg.value else 0.0
  }

  /** `a` may precede `b` under `-avg`. */
  predicate AvgBefore(a: Option<real>, b: Option<real>, nullsFirst: bool) {
    if a.Some? && b.Some? then a.value >= b.value
    else if a.None? && b.None? then true
    else if a.None? then nullsFirst
    else !nullsFirst
  }

  // ---------------------------------------------------------------------------
  // ExploreSearchView
  // ---------------------------------------------------------------------------

  /** A query parameter as `if value:` reads it: absent and empty both mean "no filter". */
  function Given(v: Option<string>): string {
    if v.Some? then v.value else ""
  }

  /** The facet parameters of the search view. */
  datatype Facets = Facets(category: Option<string>, country: Option<string>, region: Option<string>, city: Option<string>)

  /** The query string of the search view. `kind` is `type`, "both" when absent. */
  datatype SearchQuery = SearchQuery(q: Option<string>, kind: Option<string>, facets: Facets, sort: Option<string>)

  function KindOf(query: SearchQuery): string {
    if query.kind.Some? then query.kind.value else "both"
  }

  predicate WantsBusinesses(query: SearchQuery) { KindOf(query) == "business" || KindOf(query) == "both" }
  predicate WantsProducts(query: SearchQuery) { KindOf(query) == "product" || KindOf(query) == "both" }

  /** The text and facet filters of the business half. `q` has been stripped. */
  predicate BusinessMatches(users: seq<Accounts.User>, b: Businesses.Business, q: string, facets: Facets) {
    && (q == "" || IContains(b.name, q) || IContains(b.description, q) || IContains(Accounts.UsernameIn(users, b.owner), q))
    && Accounts.MatchesIfGiven(b.category, Given(facets.category))
    && Accounts.MatchesIfGiven(b.country, Given(facets.country))
    && Accounts.MatchesIfGiven(b.region, Given(facets.region))
    && Accounts.MatchesIfGiven(b.city, Given(facets.city))
  }

  function CategoryOf(cs: seq<Products.Category>, p: Products.Product): Option<Products.Category> {
    match Products.CategoryIndex(cs, p.category)
    case None => None
    case Some(j) => Some(cs[j])
  }

  function CategoryName(cs: seq<Products.Category>, p: Products.Product): string {
    match CategoryOf(cs, p)
    case None => ""
    case Some(c) => c.name
  }

  /** The user the product's category belongs to (`category__business`). */
  function SellerOf(c: Catalog, p: Products.Product): Option<Accounts.User> {
    match CategoryOf(c.categories, p)
    case None => None
    case Some(cat) => UserOf(c.users, cat.business)
  }

  function SellerField(c: Catalog, p: Products.Product, field: Accounts.User -> string): string {
    match SellerOf(c, p)
    case None => ""
    case Some(u) => field(u)
  }

  function CountryOf(u: Accounts.User): string { u.country }
  function RegionOf(u: Accounts.User): string { u.region }
  function CityOf(u: Accounts.User): string { u.city }

  /** The text and facet filters of the product half; location goes through the owner of
      the product's category. `q` has been stripped. */
  predicate ProductMatches(c: Catalog, p: Products.Product, q: string, facets: Facets) {
    && (q == "" || IContains(p.name, q) || IContains(p.description, q) || IContains(CategoryName(c.categories, p), q))
    && Accounts.MatchesIfGiven(CategoryName(c.categories, p), Given(facets.category))
    && Accounts.MatchesIfGiven(SellerField(c, p, CountryOf), Given(facets.country))
    && Accounts.MatchesIfGiven(SellerField(c, p, RegionOf), Given(facets.region))
    && Accounts.MatchesIfGiven(SellerField(c, p, CityOf), Given(facets.city))
  }

  function BusinessFilter(users: seq<Accounts.User>, q: string, facets: Facets): Businesses.Business -> bool {
    (b: Businesses.Business) => BusinessMatches(users, b, q, facets)
  }

  function ProductFilter(c: Catalog, q: string, facets: Facets): Products.Product -> bool {
    (p: Products.Product) => ProductMatches(c, p, q, facets)
  }

  function ViewCount(views: seq<Products.ProductView>, p: Id): nat {
    Count(views, (v: Products.ProductView) => v.product == p)
  }

  /** The ordering of the business half: `followers`, `rating` or `recent`; any other key
      keeps the filtered order. */
  function SortBusinesses(c: Catalog, bs: seq<Businesses.Business>, sort: Option<string>, nullsFirst: bool): (r: seq<Businesses.Business>)
    requires Ratings.StarsInRange(c.ratings)
    ensures multiset(r) == multiset(bs)
    ensures sort == Some("followers") ==>
              forall i, j :: 0 <= i < j < |r| ==> FollowersOf(c.users, r[i].owner) >= FollowersOf(c.users, r[j].owner)
    ensures sort == Some("rating") ==>
              forall i, j :: 0 <= i < j < |r| ==>
                AvgBefore(AverageOf(c.ratings, r[i].owner), AverageOf(c.ratings, r[j].owner), nullsFirst)
    ensures sort == Some("recent") ==> forall i, j :: 0 <= i < j < |r| ==> r[i].createdAt >= r[j].createdAt
    ensures sort !in {Some("followers"), Some("rating"), Some("recent")} ==> r == bs
  {
    if sort == Some("followers") then
      OrderByKey(bs, (b: Businesses.Business) => RankKey(FollowersOf(c.users, b.owner) as real, 0.0, 0.0, 0.0))
    else if sort == Some("rating") then
      OrderByKey(bs, (b: Businesses.Business) =>
        var a := AverageOf(c.ratings, b.owner);
        RankKey(NullRank(a, nullsFirst), AvgValue(a), 0.0, 0.0))
    else if sort == Some("recent") then
      OrderByKey(bs, (b: Businesses.Business) => RankKey(b.createdAt as real, 0.0, 0.0, 0.0))
    else bs
  }

  /** The ordering of the product half: `views`, `recent`, `price_asc` or `price_desc`;
      any other key keeps the filtered order. */
  function SortProducts(c: Catalog, ps: seq<Products.Product>, sort: Option<string>): (r: seq<Products.Product>)
    ensures multiset(r) == multiset(ps)
    ensures sort == Some("views") ==>
              forall i, j :: 0 <= i < j < |r| ==> ViewCount(c.views, r[i].id) >= ViewCount(c.views, r[j].id)
    ensures sort == Some("recent") ==> forall i, j :: 0 <= i < j < |r| ==> r[i].createdAt >= r[j].createdAt
    ensures sort == Some("price_asc") ==> forall i, j :: 0 <= i < j < |r| ==> r[i].price <= r[j].price
    ensures sort == Some("price_desc") ==> forall i, j :: 0 <= i < j < |r| ==> r[i].price >= r[j].price
    ensures sort !in {Some("views"), Some("recent"), Some("price_asc"), Some("price_desc")} ==> r == ps
  {
    if sort == Some("views") then
      OrderByKey(ps, (p: Products.Product) => RankKey(ViewCount(c.views, p.id) as real, 0.0, 0.0, 0.0))
    else if sort == Some("recent") then
      OrderByKey(ps, (p: Products.Product) => RankKey(p.createdAt as real, 0.0, 0.0, 0.0))
    else if sort == Some("price_asc") then
      OrderByKey(ps, (p: Products.Product) => RankKey(-p.price as real, 0.0, 0.0, 0.0))
    else if sort == Some("price_desc") then
      OrderByKey(ps, (p: Products.Product) => RankKey(p.price as real, 0.0, 0.0, 0.0))
    else ps
  }

  datatype SearchResult = SearchResult(
    businesses: seq<Businesses.Business>,
    products: seq<Products.Product>,
    paginated: bool)

  /** `q` as the view uses it: absent means empty, and surrounding blanks are stripped. */
  function SearchText(query: SearchQuery): string {
    Strip(Given(query.q))
  }

  /** The business half of the search: exactly the matching businesses, in the order the
      sort key asks for. `q` is the stripped text. */
  function SearchBusinesses(c: Catalog, q: string, facets: Facets, sort: Option<string>, nullsFirst: bool)
    : (r: seq<Businesses.Business>)
    requires Ratings.StarsInRange(c.ratings)
    ensures forall b :: b in r <==> b in c.businesses && BusinessMatches(c.users, b, q, facets)
    ensures multiset(r) == multiset(Filter(c.businesses, BusinessFilter(c.users, q, facets)))
  {
    var bs := Filter(c.businesses, BusinessFilter(c.users, q, facets));
    var r := SortBusinesses(c, bs, sort, nullsFirst);
    SameMembers(r, bs);
    r
  }

  /** The product half of the search. */
  function SearchProducts(c: Catalog, q: string, facets: Facets, sort: Option<string>): (r: seq<Products.Product>)
    ensures forall p :: p in r <==> p in c.products && ProductMatches(c, p, q, facets)
    ensures multiset(r) == multiset(Filter(c.products, ProductFilter(c, q, facets)))
  {
    var ps := Filter(c.products, ProductFilter(c, q, facets));
    var r := SortProducts(c, ps, sort);
    SameMembers(r, ps);
    r
  }

  /** `ExploreSearchView.get`: `type` selects the halves; only a response with products is
      paginated. `nullsFirst` is where the database puts a NULL average. */
  function Search(c: Catalog, query: SearchQuery, nullsFirst: bool): (r: SearchResult)
    requires Ratings.StarsInRange(c.ratings)
    ensures !WantsBusinesses(query) ==> r.businesses == []
    ensures !WantsProducts(query) ==> r.products == []
    ensures r.paginated <==> WantsProducts(query)
    ensures forall b :: b in r.businesses <==>
              WantsBusinesses(query) && b in c.businesses && BusinessMatches(c.users, b, SearchText(query), query.facets)
    ensures forall p :: p in r.products <==>
              WantsProducts(query) && p in c.products && ProductMatches(c, p, SearchText(query), query.facets)
  {
    var q := SearchText(query);
    SearchResult(if WantsBusinesses(query) then SearchBusinesses(c, q, query.facets, query.sort, nullsFirst) else [],
                 if WantsProducts(query) then SearchProducts(c, q, query.facets, query.sort) else [],
                 WantsProducts(query))
  }

  /** The search reads the query only through the stripped text, `type`, the facets and
      the sort key. */
  lemma SearchReadsOnlyThese(c: Catalog, a: SearchQuery, b: SearchQuery, nullsFirst: bool)
    requires Ratings.StarsInRange(c.ratings)
    requires SearchText(a) == SearchText(b) && KindOf(a) == KindOf(b) && a.facets == b.facets && a.sort == b.sort
    ensures Search(c, a, nullsFirst) == Search(c, b, nullsFirst)
  {
  }

  /** Stripping `q` before sending it changes nothing: the text searched for is already
      stripped, so with `SearchReadsOnlyThese` the two searches agree. */
  lemma StrippedTextIsStable(query: SearchQuery)
    ensures SearchText(query.(q := Some(SearchText(query)))) == SearchText(query)
  {
    StripIdempotent(Given(query.q));
  }

  // ---------------------------------------------------------------------------
  // SuggestedBusinessView
  // ---------------------------------------------------------------------------

  const SuggestMinFollowers: nat := 20
  const SuggestMinAverage: real := 4.0

  /** Owner of type business or premium, and at least 20 followers, or an average of at
      least 4, or a featured row (active or not); then the location filters. */
  predicate Suggestable(c: Catalog, b: Businesses.Business, country: string, region: string, city: string)
    requires Ratings.StarsInRange(c.ratings)
  {
    var avg := AverageOf(c.ratings, b.owner);
    && BusinessLikeOwner(c.users, b.owner)
    && (FollowersOf(c.users, b.owner) >= SuggestMinFollowers
        || (avg.Some? && avg.value >= SuggestMinAverage)
        || HasFeature(c.featured, b.id))
    && Accounts.MatchesIfGiven(b.country, country)
    && Accounts.MatchesIfGiven(b.region, region)
    && Accounts.MatchesIfGiven(b.city, city)
  }

  function SuggestFilter(c: Catalog, country: string, region: string, city: string): Businesses.Business -> bool
    requires Ratings.StarsInRange(c.ratings)
  {
    (b: Businesses.Business) => Suggestable(c, b, country, region, city)
  }

  /** `annotate(is_featured=Count('featured'))` as the query computes it. The earlier
      `Avg('owner__received_ratings__stars')` joins the ratings the owner received, and
      both aggregates are taken over that one grouped LEFT JOIN, so each featured row is
      counted once per such rating, and once when there is none. */
  function FeaturedJoinCount(c: Catalog, b: Businesses.Business): (n: nat)
    ensures n == 0 <==> !HasFeature(c.featured, b.id)
  {
    var rows := Ratings.RatingCount(c.ratings, b.owner);
    var k := Count(c.featured, FeaturesOf(b.id));
    HasFeatureCounted(c.featured, b.id);
    if k == 0 then 0 else PositiveProduct(k, if rows == 0 then 1 else rows); k * (if rows == 0 then 1 else rows)
  }

  /** A business has a featured row exactly when it has a positive number of them. */
  lemma HasFeatureCounted(fs: seq<FeaturedBusiness>, b: Id)
    ensures HasFeature(fs, b) <==> Count(fs, FeaturesOf(b)) > 0
  {
  }

  lemma PositiveProduct(a: nat, b: nat)
    requires a >= 1 && b >= 1
    ensures a * b >= 1
  {
  }

  /** With one featured row per business (`OneToOneField`), a featured business's
      `is_featured` is the number of ratings its owner received, or 1 when there are none. */
  lemma FeaturedJoinCountIsRatingRows(c: Catalog, b: Businesses.Business)
    requires OneFeaturePerBusiness(c.featured)
    requires HasFeature(c.featured, b.id)
    ensures FeaturedJoinCount(c, b) == if Ratings.RatingCount(c.ratings, b.owner) == 0 then 1
                                        else Ratings.RatingCount(c.ratings, b.owner)
  {
    FeatureCountIsFlag(c.featured, b.id);
  }

  /** `is_featured` as the query returns it. */
  function JoinRank(c: Catalog): Businesses.Business -> nat {
    (b: Businesses.Business) => FeaturedJoinCount(c, b)
  }

  /** `is_featured` as the comment above the ordering describes it: 1 for a featured
      business, 0 otherwise. */
  function FlagRank(c: Catalog): Businesses.Business -> nat {
    (b: Businesses.Business) => if HasFeature(c.featured, b.id) then 1 else 0
  }

  /** `order_by('-is_featured', '-owner__followers_count', '-avg_rating')` for a given
      `is_featured`. */
  function SuggestKey(c: Catalog, nullsFirst: bool, rank: Businesses.Business -> nat): Businesses.Business -> RankKey
    requires Ratings.StarsInRange(c.ratings)
  {
    (b: Businesses.Business) =>
      var avg := AverageOf(c.ratings, b.owner);
      RankKey(rank(b) as real, FollowersOf(c.users, b.owner) as real, NullRank(avg, nullsFirst), AvgValue(avg))
  }

  /** A larger `is_featured` comes first; among equal ones more followers come first, and
      among equal followers the higher average comes first. */
  ghost predicate SuggestOrdered(c: Catalog, nullsFirst: bool, rank: Businesses.Business -> nat, r: seq<Businesses.Business>)
    requires Ratings.StarsInRange(c.ratings)
  {
    && (forall i, j :: 0 <= i < j < |r| ==> rank(r[i]) >= rank(r[j]))
    && (forall i, j :: 0 <= i < j < |r| && rank(r[i]) == rank(r[j]) ==>
          && FollowersOf(c.users, r[i].owner) >= FollowersOf(c.users, r[j].owner)
          && (FollowersOf(c.users, r[i].owner) == FollowersOf(c.users, r[j].owner) ==>
                AvgBefore(AverageOf(c.ratings, r[i].owner), AverageOf(c.ratings, r[j].owner), nullsFirst)))
  }

  /** The suggestable businesses ordered by the given `is_featured`. */
  function SuggestedBy(c: Catalog, country: string, region: string, city: string, nullsFirst: bool,
                       rank: Businesses.Business -> nat): (r: seq<Businesses.Business>)
    requires Ratings.StarsInRange(c.ratings)
    ensures forall b :: b in r <==> b in c.businesses && Suggestable(c, b, country, region, city)
    ensures multiset(r) == multiset(Filter(c.businesses, SuggestFilter(c, country, region, city)))
    ensures SuggestOrdered(c, nullsFirst, rank, r)
  {
    var base := Filter(c.businesses, SuggestFilter(c, country, region, city));
    var r := OrderByKey(base, SuggestKey(c, nullsFirst, rank));
    SameMembers(r, base);
    SuggestedOrdered(c, nullsFirst, rank, r);
    r
  }

  lemma SuggestedOrdered(c: Catalog, nullsFirst: bool, rank: Businesses.Business -> nat, r: seq<Businesses.Business>)
    requires Ratings.StarsInRange(c.ratings)
    requires forall i, j :: 0 <= i < j < |r| ==>
               RanksFirst(SuggestKey(c, nullsFirst, rank)(r[i]), SuggestKey(c, nullsFirst, rank)(r[j]))
    ensures SuggestOrdered(c, nullsFirst, rank, r)
  {
    forall i, j | 0 <= i < j < |r| {
      SuggestOrder(c, nullsFirst, rank, r[i], r[j]);
    }
  }

  /** What one step of the suggested ordering says about two businesses. */
  lemma SuggestOrder(c: Catalog, nullsFirst: bool, rank: Businesses.Business -> nat, x: Businesses.Business, y: Businesses.Business)
    requires Ratings.StarsInRange(c.ratings)
    requires RanksFirst(SuggestKey(c, nullsFirst, rank)(x), SuggestKey(c, nullsFirst, rank)(y))
    ensures rank(x) >= rank(y)
    ensures rank(x) == rank(y) ==>
              && FollowersOf(c.users, x.owner) >= FollowersOf(c.users, y.owner)
              && (FollowersOf(c.users, x.owner) == FollowersOf(c.users, y.owner) ==>
                    AvgBefore(AverageOf(c.ratings, x.owner), AverageOf(c.ratings, y.owner), nullsFirst))
  {
  }

  /** `SuggestedBusinessView.get_queryset` as written: exactly the suggestable businesses;
      featured ones first, and among them the higher join-multiplied count first; among
      equal counts (every unfeatured business has 0) more followers first, then the higher
      average. */
  function Suggested(c: Catalog, country: string, region: string, city: string, nullsFirst: bool): (r: seq<Businesses.Business>)
    requires Ratings.StarsInRange(c.ratings)
    ensures forall b :: b in r <==> b in c.businesses && Suggestable(c, b, country, region, city)
    ensures multiset(r) == multiset(Filter(c.businesses, SuggestFilter(c, country, region, city)))
    ensures forall i, j :: 0 <= i < j < |r| && HasFeature(c.featured, r[j].id) ==> HasFeature(c.featured, r[i].id)
    ensures SuggestOrdered(c, nullsFirst, JoinRank(c), r)
  {
    var r := SuggestedBy(c, country, region, city, nullsFirst, JoinRank(c));
    JoinRankFeaturedFirst(c, nullsFirst, r);
    r
  }

  /** Every featured business has a positive join-multiplied count and every unfeatured
      one 0, so ordering by the count puts featured businesses first. */
  lemma JoinRankFeaturedFirst(c: Catalog, nullsFirst: bool, r: seq<Businesses.Business>)
    requires Ratings.StarsInRange(c.ratings)
    requires SuggestOrdered(c, nullsFirst, JoinRank(c), r)
    ensures forall i, j :: 0 <= i < j < |r| && HasFeature(c.featured, r[j].id) ==> HasFeature(c.featured, r[i].id)
  {
    forall i, j | 0 <= i < j < |r| && HasFeature(c.featured, r[j].id) ensures HasFeature(c.featured, r[i].id) {
      assert JoinRank(c)(r[i]) >= JoinRank(c)(r[j]) > 0;
    }
  }

  /** The order the comment above it describes: featured businesses first, and within
      each group more followers first, then the higher average. */
  function SuggestedByFlag(c: Catalog, country: string, region: string, city: string, nullsFirst: bool): (r: seq<Businesses.Business>)
    requires Ratings.StarsInRange(c.ratings)
    ensures forall b :: b in r <==> b in c.businesses && Suggestable(c, b, country, region, city)
    ensures multiset(r) == multiset(Filter(c.businesses, SuggestFilter(c, country, region, city)))
    ensures forall i, j :: 0 <= i < j < |r| && HasFeature(c.featured, r[j].id) ==> HasFeature(c.featured, r[i].id)
    ensures forall i, j :: 0 <= i < j < |r| && HasFeature(c.featured, r[i].id) == HasFeature(c.featured, r[j].id) ==>
              && FollowersOf(c.users, r[i].owner) >= FollowersOf(c.users, r[j].owner)
              && (FollowersOf(c.users, r[i].owner) == FollowersOf(c.users, r[j].owner) ==>
                    AvgBefore(AverageOf(c.ratings, r[i].owner), AverageOf(c.ratings, r[j].owner), nullsFirst))
  {
    var r := SuggestedBy(c, country, region, city, nullsFirst, FlagRank(c));
    FlagOrdered(c, nullsFirst, r);
    r
  }

  /** Ordering by the flag puts featured businesses first and orders each group by
      followers, then average. */
  lemma FlagOrdered(c: Catalog, nullsFirst: bool, r: seq<Businesses.Business>)
    requires Ratings.StarsInRange(c.ratings)
    requires SuggestOrdered(c, nullsFirst, FlagRank(c), r)
    ensures forall i, j :: 0 <= i < j < |r| && HasFeature(c.featured, r[j].id) ==> HasFeature(c.featured, r[i].id)
    ensures forall i, j :: 0 <= i < j < |r| && HasFeature(c.featured, r[i].id) == HasFeature(c.featured, r[j].id) ==>
              && FollowersOf(c.users, r[i].owner) >= FollowersOf(c.users, r[j].owner)
              && (FollowersOf(c.users, r[i].owner) == FollowersOf(c.users, r[j].owner) ==>
                    AvgBefore(AverageOf(c.ratings, r[i].owner), AverageOf(c.ratings, r[j].owner), nullsFirst))
  {
    forall i, j | 0 <= i < j < |r| && HasFeature(c.featured, r[j].id) ensures HasFeature(c.featured, r[i].id) {
      assert FlagRank(c)(r[i]) >= FlagRank(c)(r[j]);
    }
    forall i, j | 0 <= i < j < |r| && HasFeature(c.featured, r[i].id) == HasFeature(c.featured, r[j].id)
      ensures && FollowersOf(c.users, r[i].owner) >= FollowersOf(c.users, r[j].owner)
              && (FollowersOf(c.users, r[i].owner) == FollowersOf(c.users, r[j].owner) ==>
                    AvgBefore(AverageOf(c.ratings, r[i].owner), AverageOf(c.ratings, r[j].owner), nullsFirst))
    {
      assert FlagRank(c)(r[i]) == FlagRank(c)(r[j]);
    }
  }

  /** Two featured businesses: B1's owner has 100 followers and no ratings, B2's owner no
      followers and two 5-star ratings. */
  function SampleSuggestCatalog(): Catalog {
    var owner1 := Accounts.NewUser(10, "one@example.com").(accountType := Accounts.BusinessAccount, followersCount := 100);
    var owner2 := Accounts.NewUser(20, "two@example.com").(accountType := Accounts.BusinessAccount);
    Catalog([owner1, owner2],
            [Ratings.Rating(1, 30, 20, 5, "", 0), Ratings.Rating(2, 31, 20, 5, "", 0)],
            [SampleBusiness(1, 10), SampleBusiness(2, 20)],
            [], [], [],
            [FeaturedBusiness(1, None, ""), FeaturedBusiness(2, None, "")])
  }

  function SampleBusiness(id: Id, owner: Id): Businesses.Business {
    Businesses.Business(id, owner, "", "", "", "", "", "", false, 0, "")
  }

  /** In a suggested ordering, a business with the larger `is_featured` sits earlier. */
  lemma LargerRankEarlier(c: Catalog, nullsFirst: bool, rank: Businesses.Business -> nat, r: seq<Businesses.Business>, i: int, j: int)
    requires Ratings.StarsInRange(c.ratings)
    requires SuggestOrdered(c, nullsFirst, rank, r)
    requires 0 <= i < |r| && 0 <= j < |r| && rank(r[i]) > rank(r[j])
    ensures i < j
  {
  }

  /** In a suggested ordering, of two businesses with equal `is_featured` the one whose
      owner has more followers sits earlier. */
  lemma MoreFollowersEarlier(c: Catalog, nullsFirst: bool, rank: Businesses.Business -> nat, r: seq<Businesses.Business>, i: int, j: int)
    requires Ratings.StarsInRange(c.ratings)
    requires SuggestOrdered(c, nullsFirst, rank, r)
    requires 0 <= i < |r| && 0 <= j < |r| && rank(r[i]) == rank(r[j])
    requires FollowersOf(c.users, r[i].owner) > FollowersOf(c.users, r[j].owner)
    ensures i < j
  {
  }

  /** The ratings of the sample catalog: none for user 10, two for user 20. */
  lemma SampleRatingCounts()
    ensures Ratings.StarsInRange(SampleSuggestCatalog().ratings)
    ensures Ratings.RatingCount(SampleSuggestCatalog().ratings, 10) == 0
    ensures Ratings.RatingCount(SampleSuggestCatalog().ratings, 20) == 2
  {
    var rs := SampleSuggestCatalog().ratings;
    assert rs[1..][1..] == [];
  }

  /** The owners of the sample catalog: both business accounts, with 100 and 0 followers. */
  lemma SampleOwners()
    ensures BusinessLikeOwner(SampleSuggestCatalog().users, 10) && BusinessLikeOwner(SampleSuggestCatalog().users, 20)
    ensures FollowersOf(SampleSuggestCatalog().users, 10) == 100 && FollowersOf(SampleSuggestCatalog().users, 20) == 0
  {
    var us := SampleSuggestCatalog().users;
    assert Accounts.UserIndex(us, 10) == Some(0);
    assert Accounts.UserIndex(us, 20) == Some(1);
  }

  /** The featured rows of the sample catalog: one each for businesses 1 and 2. */
  lemma SampleFeatures()
    ensures OneFeaturePerBusiness(SampleSuggestCatalog().featured)
    ensures HasFeature(SampleSuggestCatalog().featured, 1) && HasFeature(SampleSuggestCatalog().featured, 2)
  {
    var fs := SampleSuggestCatalog().featured;
    assert FindFirst(fs, FeaturesOf(1)) == Some(0);
    assert FindFirst(fs, FeaturesOf(2)) == Some(1);
  }

  /** What the sample catalog holds: both businesses are suggestable and featured, B1's
      owner has more followers, and B2's join-multiplied count is the larger. */
  lemma SampleSuggestFacts()
    ensures var c := SampleSuggestCatalog();
            && Ratings.StarsInRange(c.ratings)
            && SampleBusiness(1, 10) in c.businesses && SampleBusiness(2, 20) in c.businesses
            && Suggestable(c, SampleBusiness(1, 10), "", "", "") && Suggestable(c, SampleBusiness(2, 20), "", "", "")
            && HasFeature(c.featured, 1) && HasFeature(c.featured, 2)
            && FollowersOf(c.users, 10) == 100 && FollowersOf(c.users, 20) == 0
            && FeaturedJoinCount(c, SampleBusiness(1, 10)) == 1 && FeaturedJoinCount(c, SampleBusiness(2, 20)) == 2
  {
    var c := SampleSuggestCatalog();
    SampleRatingCounts();
    SampleOwners();
    SampleFeatures();
    FeaturedJoinCountIsRatingRows(c, SampleBusiness(1, 10));
    FeaturedJoinCountIsRatingRows(c, SampleBusiness(2, 20));
  }

  /** As written: of two suggested featured businesses, the one with the larger
      join-multiplied count (`y`) comes first, although the other (`x`) has more
      followers. `SampleSuggestFacts` gives such a catalog. */
  lemma JoinCountBeatsFollowers(c: Catalog, nullsFirst: bool, x: Businesses.Business, y: Businesses.Business)
    requires Ratings.StarsInRange(c.ratings)
    requires x in c.businesses && Suggestable(c, x, "", "", "") && HasFeature(c.featured, x.id)
    requires y in c.businesses && Suggestable(c, y, "", "", "") && HasFeature(c.featured, y.id)
    requires FollowersOf(c.users, x.owner) > FollowersOf(c.users, y.owner)
    requires FeaturedJoinCount(c, y) > FeaturedJoinCount(c, x)
    ensures var r := Suggested(c, "", "", "", nullsFirst);
            && x in r && y in r
            && forall i, j :: 0 <= i < |r| && 0 <= j < |r| && r[i] == y && r[j] == x ==> i < j
  {
    var r := Suggested(c, "", "", "", nullsFirst);
    forall i, j | 0 <= i < |r| && 0 <= j < |r| && r[i] == y && r[j] == x ensures i < j {
      LargerRankEarlier(c, nullsFirst, JoinRank(c), r, i, j);
    }
  }

  /** Under the flag ordering the same two businesses come out the other way: the one
      with more followers first. */
  lemma FlagKeepsFollowersOrder(c: Catalog, nullsFirst: bool, x: Businesses.Business, y: Businesses.Business)
    requires Ratings.StarsInRange(c.ratings)
    requires x in c.businesses && Suggestable(c, x, "", "", "") && HasFeature(c.featured, x.id)
    requires y in c.businesses && Suggestable(c, y, "", "", "") && HasFeature(c.featured, y.id)
    requires FollowersOf(c.users, x.owner) > FollowersOf(c.users, y.owner)
    ensures var r := SuggestedByFlag(c, "", "", "", nullsFirst);
            && x in r && y in r
            && forall i, j :: 0 <= i < |r| && 0 <= j < |r| && r[i] == x && r[j] == y ==> i < j
  {
    var r := SuggestedByFlag(c, "", "", "", nullsFirst);
    forall i, j | 0 <= i < |r| && 0 <= j < |r| && r[i] == x && r[j] == y ensures i < j {
      assert FlagRank(c)(r[i]) == FlagRank(c)(r[j]);
      MoreFollowersEarlier(c, nullsFirst, FlagRank(c), r, i, j);
    }
  }

  /** Every suggested business has a business-like owner and meets one of the three
      criteria. */
  lemma SuggestedMeetCriteria(c: Catalog, country: string, region: string, city: string, nullsFirst: bool, b: Businesses.Business)
    requires Ratings.StarsInRange(c.ratings)
    requires b in Suggested(c, country, region, city, nullsFirst)
    ensures UserOf(c.users, b.owner).Some?
    ensures UserOf(c.users, b.owner).value.accountType in {Accounts.BusinessAccount, Accounts.Premium}
    ensures UserOf(c.users, b.owner).value.followersCount >= 20
            || (Ratings.RatingCount(c.ratings, b.owner) > 0 && Ratings.Mean(c.ratings, b.owner) >= 4.0)
            || exists f :: f in c.featured && f.business == b.id
  {
    HasFeatureWitness(c.featured, b.id);
  }

  // ---------------------------------------------------------------------------
  // TrendingProductsView
  // ---------------------------------------------------------------------------

  const DefaultTrendingDays: int := 7
  const FeaturedBonus: nat := 10

  /** The views of `p` at or after `since`. */
  function RecentViews(views: seq<Products.ProductView>, p: Id, since: Time): nat {
    Count(views, (v: Products.ProductView) => v.product == p && v.viewedAt >= since)
  }

  function Score(views: seq<Products.ProductView>, p: Products.Product, since: Time): nat {
    RecentViews(views, p.id, since) + (if p.isFeatured then FeaturedBonus else 0)
  }

  /** `timezone.now() - timedelta(days=days)`, days 7 unless given. */
  function Since(now: Time, days: Option<int>): Time {
    now - (if days.Some? then days.value else DefaultTrendingDays) * SecondsPerDay
  }

  /** Recent views never exceed all views of the product, so the score is at most the
      product's view count plus the bonus. */
  lemma {:induction false} RecentViewsBounded(views: seq<Products.ProductView>, p: Id, since: Time)
    ensures RecentViews(views, p, since) <= ViewCount(views, p)
  {
    if views != [] {
      RecentViewsBounded(views[1..], p, since);
      var a := (v: Products.ProductView) => v.product == p && v.viewedAt >= since;
      var b := (v: Products.ProductView) => v.product == p;
      assert Filter(views, a) == (if a(views[0]) then [views[0]] else []) + Filter(views[1..], a);
      assert Filter(views, b) == (if b(views[0]) then [views[0]] else []) + Filter(views[1..], b);
    }
  }

  function TrendingKey(views: seq<Products.ProductView>, since: Time): Products.Product -> RankKey {
    (p: Products.Product) => RankKey(Score(views, p, since) as real, p.createdAt as real, 0.0, 0.0)
  }

  /** `TrendingProductsView.get_queryset`: every product once, higher score first, then
      newer first. */
  function Trending(c: Catalog, now: Time, days: Option<int>): (r: seq<Products.Product>)
    ensures multiset(r) == multiset(c.products)
    ensures forall i, j :: 0 <= i < j < |r| ==>
              var si, sj := Score(c.views, r[i], Since(now, days)), Score(c.views, r[j], Since(now, days));
              si > sj || (si == sj && r[i].createdAt >= r[j].createdAt)
  {
    OrderByKey(c.products, TrendingKey(c.views, Since(now, days)))
  }

  /** In the trending list an unfeatured product ahead of a featured one has at least ten
      more recent views. */
  lemma FeaturedNeedsFewerViews(c: Catalog, now: Time, days: Option<int>, i: nat, j: nat)
    requires i < j < |Trending(c, now, days)|
    requires !Trending(c, now, days)[i].isFeatured && Trending(c, now, days)[j].isFeatured
    ensures var r, since := Trending(c, now, days), Since(now, days);
            RecentViews(c.views, r[i].id, since) >= RecentViews(c.views, r[j].id, since) + FeaturedBonus
  {
    var r := Trending(c, now, days);
    assert Score(c.views, r[i], Since(now, days)) >= Score(c.views, r[j], Since(now, days));
  }

  // ---------------------------------------------------------------------------
  // TopRatedBusinessesView
  // ---------------------------------------------------------------------------

  function TopRatedKey(c: Catalog, nullsFirst: bool): Businesses.Business -> RankKey
    requires Ratings.StarsInRange(c.ratings)
  {
    (b: Businesses.Business) =>
      var avg := AverageOf(c.ratings, b.owner);
      RankKey(NullRank(avg, nullsFirst), AvgValue(avg), FollowersOf(c.users, b.owner) as real, 0.0)
  }

  /** `TopRatedBusinessesView.get_queryset`: every business once, the higher average first,
      then more followers first. */
  function TopRated(c: Catalog, nullsFirst: bool): (r: seq<Businesses.Business>)
    requires Ratings.StarsInRange(c.ratings)
    ensures multiset(r) == multiset(c.businesses)
    ensures forall i, j :: 0 <= i < j < |r| ==>
              var ai, aj := AverageOf(c.ratings, r[i].owner), AverageOf(c.ratings, r[j].owner);
              && AvgBefore(ai, aj, nullsFirst)
              && (ai == aj ==> FollowersOf(c.users, r[i].owner) >= FollowersOf(c.users, r[j].owner))
  {
    OrderByKey(c.businesses, TopRatedKey(c, nullsFirst))
  }
}
