/** The tour pages: the filtered and sorted tour list, the tour detail page with
    its related tours and public reviews, and the featured tours of the home page. */
module TourViews {
  import opened Common
  import opened Ordering
  import opened Catalogue
  import opened Ratings

  // ---------------------------------------------------------------- the sort parameter

  datatype SortField = CreatedAt | Price | Title

  datatype TourSort = TourSort(field: SortField, descending: bool)

  function FieldName(f: SortField): string
  {
    match f
    case CreatedAt => "created_at"
    case Price => "price"
    case Title => "title"
  }

  /** The `sort` parameter as `order_by` reads it: a column name, `-` for descending. */
  function SortName(t: TourSort): string
  {
    (if t.descending then "-" else "") + FieldName(t.field)
  }

  function ParseSort(s: string): (r: Option<TourSort>)
    ensures r.Some? ==> SortName(r.value) == s
  {
    var desc := |s| > 0 && s[0] == '-';
    var name := if desc then s[1..] else s;
    if name == "created_at" then Some(TourSort(CreatedAt, desc))
    else if name == "price" then Some(TourSort(Price, desc))
    else if name == "title" then Some(TourSort(Title, desc))
    else None
  }

  /** Every supported ordering is reachable through its own parameter value. */
  lemma ParseSortRoundTrip(t: TourSort)
    ensures ParseSort(SortName(t)) == Some(t)
  {
    var s := SortName(t);
    if t.descending {
      assert s[0] == '-' && s[1..] == FieldName(t.field);
    } else {
      assert FieldName(t.field)[0] != '-';
    }
  }

  function SortKey(t: TourSort): Tour -> Key
  {
    match t.field
    case CreatedAt => (x: Tour) => [Num(if t.descending then -x.createdAt else x.createdAt)]
    case Price => (x: Tour) => [Num(if t.descending then -x.price else x.price)]
    case Title => (x: Tour) => [if t.descending then RevText(x.title) else Text(x.title)]
  }

  /** With no `sort` parameter the list is newest first, as the model's own ordering. */
  lemma DefaultSortIsNewestFirst()
    ensures ParseSort("-created_at") == Some(TourSort(CreatedAt, true))
    ensures forall x: Tour :: SortKey(TourSort(CreatedAt, true))(x) == TourDefaultKey(x)
  {
    assert "-created_at"[1..] == "created_at";
  }

  // ---------------------------------------------------------------- the list

  /** The list's GET parameters, each empty when absent. */
  datatype TourQuery = TourQuery(category: string, location: string, minPrice: string,
                                 maxPrice: string, search: string, sort: string)

  function TourQueryOf(params: map<string, string>): TourQuery
  {
    TourQuery(Get(params, "category", ""), Get(params, "location", ""), Get(params, "min_price", ""),
              Get(params, "max_price", ""), Get(params, "search", ""), Get(params, "sort", "-created_at"))
  }

  predicate InCategory(t: Tour, f: TourQuery) { SlugIs(t.category, f.category) }

  predicate AtLocation(t: Tour, f: TourQuery) { t.location.slug == f.location }

  predicate AboveMin(t: Tour, f: TourQuery)
  {
    ParseDecimal(f.minPrice).Some? && CentsAtLeast(t.price, ParseDecimal(f.minPrice).value)
  }

  predicate BelowMax(t: Tour, f: TourQuery)
  {
    ParseDecimal(f.maxPrice).Some? && CentsAtMost(t.price, ParseDecimal(f.maxPrice).value)
  }

  /** `Q(title__icontains=q) | Q(title_en__icontains=q) | Q(description__icontains=q)` */
  predicate MentionsSearch(t: Tour, f: TourQuery)
  {
    IContains(t.title, f.search) || IContains(t.titleEn, f.search) || IContains(t.description, f.search)
  }

  /** The conditions the list's parameters impose, all at once. */
  predicate TourMatches(t: Tour, f: TourQuery)
  {
    t.isActive
    && (f.category == "" || InCategory(t, f))
    && (f.location == "" || AtLocation(t, f))
    && (f.minPrice == "" || AboveMin(t, f))
    && (f.maxPrice == "" || BelowMax(t, f))
    && (f.search == "" || MentionsSearch(t, f))
  }

  /** The parameter the request fails on, if any: a price bound that is not a
      decimal number, or a sort the model does not know. */
  function TourBadParameter(f: TourQuery): Option<string>
  {
    if f.minPrice != "" && ParseDecimal(f.minPrice).None? then Some("min_price")
    else if f.maxPrice != "" && ParseDecimal(f.maxPrice).None? then Some("max_price")
    else if ParseSort(f.sort).None? then Some("sort")
    else None
  }

  /** The first three filters: active tours in the category and at the location. */
  function PlacedTours(tours: seq<Tour>, f: TourQuery): (r: seq<Tour>)
    ensures forall t :: t in r <==> (t in tours && t.isActive
      && (f.category == "" || InCategory(t, f)) && (f.location == "" || AtLocation(t, f)))
  {
    var q0 := Filter(tours, (t: Tour) => t.isActive);
    var q1 := When(q0, f.category != "", (t: Tour) => InCategory(t, f));
    When(q1, f.location != "", (t: Tour) => AtLocation(t, f))
  }

  /** The tours the filters keep: active tours, narrowed by each non-empty filter in turn. */
  function NarrowTours(tours: seq<Tour>, f: TourQuery): (r: seq<Tour>)
    ensures forall t :: t in r <==> t in tours && TourMatches(t, f)
  {
    var q2 := PlacedTours(tours, f);
    var q3 := When(q2, f.minPrice != "", (t: Tour) => AboveMin(t, f));
    var q4 := When(q3, f.maxPrice != "", (t: Tour) => BelowMax(t, f));
    When(q4, f.search != "", (t: Tour) => MentionsSearch(t, f))
  }

  /** `TourListView.get_queryset`: active tours, narrowed by each non-empty filter
      parameter in turn, then ordered by the `sort` parameter. */
  function TourList(tours: seq<Tour>, params: map<string, string>): (r: Listing<Tour>)
    ensures r.BadParameter? <==> TourBadParameter(TourQueryOf(params)).Some?
    ensures r.BadParameter? ==> r.name == TourBadParameter(TourQueryOf(params)).value
    ensures r.Listed? ==> forall t :: t in r.rows <==> t in tours && TourMatches(t, TourQueryOf(params))
    ensures r.Listed? ==> SortedBy(r.rows, SortKey(ParseSort(TourQueryOf(params).sort).value))
    ensures r.Listed? ==> multiset(r.rows) == multiset(NarrowTours(tours, TourQueryOf(params)))
  {
    var f := TourQueryOf(params);
    var bad := TourBadParameter(f);
    if bad.Some? then BadParameter(bad.value)
    else
      var rows := NarrowTours(tours, f);
      var key := SortKey(ParseSort(f.sort).value);
      SortSorted(rows, key);
      SortPermutes(rows, key);
      Listed(Sort(rows, key))
  }

  /** The search never looks at the English description. */
  lemma SearchIgnoresEnglishDescription(t: Tour, f: TourQuery, other: string)
    ensures TourMatches(t, f) <==> TourMatches(t.(descriptionEn := other), f)
  {
  }

  // ---------------------------------------------------------------- detail and home page

  datatype TourDetail = TourDetail(tour: Tour, related: seq<Tour>, reviews: seq<Review>)

  /** Other active tours at the same location, newest first, at most three. */
  function RelatedTours(tours: seq<Tour>, t: Tour): (r: seq<Tour>)
    ensures var n := Count(tours, (x: Tour) => x.isActive && x.location.id == t.location.id && x.id != t.id);
      |r| == if n < 3 then n else 3
    ensures forall x :: x in r ==> x in tours && x.isActive && x.location.id == t.location.id && x.id != t.id
    ensures multiset(r) <= multiset(Filter(tours, (x: Tour) => x.isActive && x.location.id == t.location.id && x.id != t.id))
    ensures SortedBy(r, TourDefaultKey)
  {
    TopN(Filter(tours, (x: Tour) => x.isActive && x.location.id == t.location.id && x.id != t.id), TourDefaultKey, 3)
  }

  /** The tour's approved reviews rated above 3, newest first: as many as its
      `review_count`, but at most ten. */
  function TourReviews(allReviews: seq<Review>, target: Target): (r: seq<Review>)
    ensures var n := PublicCount(ReviewsOf(allReviews, target));
      |r| == if n < 10 then n else 10
    ensures forall x :: x in r ==> x in allReviews && x.target == target && x.isApproved && x.rating > 3
    ensures multiset(r) <= multiset(PublicReviews(ReviewsOf(allReviews, target)))
    ensures SortedBy(r, ReviewKey)
  {
    TopN(PublicReviews(ReviewsOf(allReviews, target)), ReviewKey, 10)
  }

  /** `TourDetailView`: the page resolves only an active tour by its slug. */
  function TourDetailPage(tours: seq<Tour>, slug: string, allReviews: seq<Review>, tourType: nat)
    : (r: Lookup<TourDetail>)
    ensures r.Found? ==> r.row.tour in tours && r.row.tour.isActive && r.row.tour.slug == slug
    ensures r.NotFound? <==> forall x :: x in tours ==> !(x.isActive && x.slug == slug)
    ensures r.Found? ==> r.row.related == RelatedTours(tours, r.row.tour)
    ensures r.Found? ==> r.row.reviews == TourReviews(allReviews, Target(tourType, r.row.tour.id))
  {
    match GetWhere(tours, (x: Tour) => x.isActive && x.slug == slug)
    case Found(t) => Found(TourDetail(t, RelatedTours(tours, t), TourReviews(allReviews, Target(tourType, t.id))))
    case NotFound => NotFound
    case MultipleFound => MultipleFound
  }

  /** `FeaturedToursView`: active featured tours, newest first, at most six. */
  function FeaturedTours(tours: seq<Tour>): (r: seq<Tour>)
    ensures var n := Count(tours, (x: Tour) => x.isActive && x.isFeatured);
      |r| == if n < 6 then n else 6
    ensures forall x :: x in r ==> x in tours && x.isActive && x.isFeatured
    ensures multiset(r) <= multiset(Filter(tours, (x: Tour) => x.isActive && x.isFeatured))
    ensures SortedBy(r, TourDefaultKey)
  {
    TopN(Filter(tours, (x: Tour) => x.isActive && x.isFeatured), TourDefaultKey, 6)
  }
}
