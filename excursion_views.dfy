/** The excursion pages: the filtered and sorted excursion list with the filter
    values echoed back, and the excursion detail page. The detail page reads the
    excursion's rating figures, which the excursion model computes through a
    review relation it never declares; both the page as it stands and the page
    with that relation in place are given here. */
module ExcursionViews {
  import opened Common
  import opened Ordering
  import opened Catalogue
  import opened Ratings

  // ---------------------------------------------------------------- sorting

  datatype ExcursionSort = PriceLow | PriceHigh | MostPopular | FeaturedFirst

  /** The `sort` parameter: unknown values, `rating` and the default `featured`
      all give the featured ordering. */
  function ParseExcursionSort(s: string): (r: ExcursionSort)
    ensures r == PriceLow <==> s == "price_low"
    ensures r == PriceHigh <==> s == "price_high"
    ensures r == MostPopular <==> s == "popular"
  {
    if s == "price_low" then PriceLow
    else if s == "price_high" then PriceHigh
    else if s == "popular" then MostPopular
    else FeaturedFirst
  }

  function ExcursionSortKey(s: ExcursionSort): Excursion -> Key
  {
    match s
    case PriceLow => (e: Excursion) => [Num(e.price)]
    case PriceHigh => (e: Excursion) => [Num(-e.price)]
    case MostPopular =>
      (e: Excursion) => [Num(-Flag(e.isPopular)), Num(-Flag(e.isBestseller)), Num(-Flag(e.isFeatured)), Text(e.title)]
    case FeaturedFirst =>
      (e: Excursion) => [Num(-Flag(e.isBestseller)), Num(-Flag(e.isPopular)), Num(-Flag(e.isFeatured)), Text(e.title)]
  }

  /** Sorting "by rating" is the featured ordering. */
  lemma RatingSortIsFeaturedSort()
    ensures ParseExcursionSort("rating") == ParseExcursionSort("featured") == FeaturedFirst
  {
  }

  /** In the featured ordering every bestseller comes before every other excursion;
      in the popular ordering every popular excursion comes before every other. */
  lemma SortLeaders(a: Excursion, b: Excursion)
    ensures a.isBestseller && !b.isBestseller ==> !KeyLe(ExcursionSortKey(FeaturedFirst)(b), ExcursionSortKey(FeaturedFirst)(a))
    ensures a.isPopular && !b.isPopular ==> !KeyLe(ExcursionSortKey(MostPopular)(b), ExcursionSortKey(MostPopular)(a))
  {
  }

  // ---------------------------------------------------------------- the list

  /** The parameters the list reads; an absent parameter reads as empty. */
  datatype ExcursionQuery = ExcursionQuery(
    category: string, location: string, minPrice: string, maxPrice: string, search: string, sort: string)

  function ReadQuery(params: map<string, string>): ExcursionQuery
  {
    ExcursionQuery(Get(params, "category", ""), Get(params, "location", ""),
                   Get(params, "min_price", ""), Get(params, "max_price", ""),
                   Get(params, "search", ""), Get(params, "sort", "featured"))
  }

  predicate InCategory(e: Excursion, q: ExcursionQuery) { SlugIs(e.category, q.category) }

  predicate AtLocation(e: Excursion, q: ExcursionQuery) { e.location.slug == q.location }

  predicate AboveMin(e: Excursion, q: ExcursionQuery)
  {
    ParseDecimal(q.minPrice).Some? && CentsAtLeast(e.price, ParseDecimal(q.minPrice).value)
  }

  predicate BelowMax(e: Excursion, q: ExcursionQuery)
  {
    ParseDecimal(q.maxPrice).Some? && CentsAtMost(e.price, ParseDecimal(q.maxPrice).value)
  }

  /** The search looks at both languages of the title and the description. */
  predicate MentionsSearch(e: Excursion, q: ExcursionQuery)
  {
    IContains(e.title, q.search) || IContains(e.titleEn, q.search)
    || IContains(e.description, q.search) || IContains(e.descriptionEn, q.search)
  }

  predicate ExcursionMatches(e: Excursion, q: ExcursionQuery)
  {
    e.isActive
    && (q.category == "" || InCategory(e, q))
    && (q.location == "" || AtLocation(e, q))
    && (q.minPrice == "" || AboveMin(e, q))
    && (q.maxPrice == "" || BelowMax(e, q))
    && (q.search == "" || MentionsSearch(e, q))
  }

  /** A price bound that is not a decimal number fails the request. */
  function ExcursionBadParameter(q: ExcursionQuery): Option<string>
  {
    if q.minPrice != "" && ParseDecimal(q.minPrice).None? then Some("min_price")
    else if q.maxPrice != "" && ParseDecimal(q.maxPrice).None? then Some("max_price")
    else None
  }

  /** The first three filters: active excursions in the category and at the location. */
  function PlacedExcursions(excursions: seq<Excursion>, q: ExcursionQuery): (r: seq<Excursion>)
    ensures forall e :: e in r <==> (e in excursions && e.isActive
      && (q.category == "" || InCategory(e, q)) && (q.location == "" || AtLocation(e, q)))
  {
    var q0 := Filter(excursions, (e: Excursion) => e.isActive);
    var q1 := When(q0, q.category != "", (e: Excursion) => InCategory(e, q));
    When(q1, q.location != "", (e: Excursion) => AtLocation(e, q))
  }

  /** The excursions the filters keep, each non-empty filter applied in turn. */
  function NarrowExcursions(excursions: seq<Excursion>, q: ExcursionQuery): (r: seq<Excursion>)
    ensures forall e :: e in r <==> e in excursions && ExcursionMatches(e, q)
  {
    var q2 := PlacedExcursions(excursions, q);
    var q3 := When(q2, q.minPrice != "", (e: Excursion) => AboveMin(e, q));
    var q4 := When(q3, q.maxPrice != "", (e: Excursion) => BelowMax(e, q));
    When(q4, q.search != "", (e: Excursion) => MentionsSearch(e, q))
  }

  /** `ExcursionListView.get_queryset` */
  function ExcursionList(excursions: seq<Excursion>, params: map<string, string>): (r: Listing<Excursion>)
    ensures r.BadParameter? <==> ExcursionBadParameter(ReadQuery(params)).Some?
    ensures r.Listed? ==> forall e :: e in r.rows <==> e in excursions && ExcursionMatches(e, ReadQuery(params))
    ensures r.Listed? ==> SortedBy(r.rows, ExcursionSortKey(ParseExcursionSort(Get(params, "sort", "featured"))))
    ensures r.Listed? ==> multiset(r.rows) == multiset(NarrowExcursions(excursions, ReadQuery(params)))
  {
    var q := ReadQuery(params);
    var bad := ExcursionBadParameter(q);
    if bad.Some? then BadParameter(bad.value)
    else
      var rows := NarrowExcursions(excursions, q);
      var key := ExcursionSortKey(ParseExcursionSort(q.sort));
      SortSorted(rows, key);
      SortPermutes(rows, key);
      Listed(Sort(rows, key))
  }

  /** The `rating` parameter never changes the list. */
  lemma RatingParameterIgnored(excursions: seq<Excursion>, params: map<string, string>, v: string)
    ensures ExcursionList(excursions, params["rating" := v]) == ExcursionList(excursions, params)
  {
    var p2 := params["rating" := v];
    assert ReadQuery(p2) == ReadQuery(params);
  }

  datatype ListFilters = ListFilters(
    category: string, location: string, minPrice: string, maxPrice: string, sort: string)

  /** The filter values echoed to the page, with their display defaults. */
  function CurrentFilters(params: map<string, string>): (r: ListFilters)
    ensures r.category == if "category" in params then params["category"] else ""
    ensures r.location == if "location" in params then params["location"] else ""
    ensures r.minPrice == if "min_price" in params then params["min_price"] else "0"
    ensures r.maxPrice == if "max_price" in params then params["max_price"] else "500"
    ensures r.sort == if "sort" in params then params["sort"] else "featured"
  {
    ListFilters(Get(params, "category", ""), Get(params, "location", ""),
                Get(params, "min_price", "0"), Get(params, "max_price", "500"), Get(params, "sort", "featured"))
  }

  // ---------------------------------------------------------------- detail

  /** Other active excursions at the same location, in the default order, at most four. */
  function RelatedExcursions(excursions: seq<Excursion>, e: Excursion): (r: seq<Excursion>)
    ensures var n := Count(excursions, (x: Excursion) => x.isActive && x.location.id == e.location.id && x.id != e.id);
      |r| == if n < 4 then n else 4
    ensures forall x :: x in r ==> x in excursions && x.isActive && x.location.id == e.location.id && x.id != e.id
    ensures multiset(r) <= multiset(Filter(excursions, (x: Excursion) => x.isActive && x.location.id == e.location.id && x.id != e.id))
    ensures SortedBy(r, ExcursionDefaultKey)
  {
    TopN(Filter(excursions, (x: Excursion) => x.isActive && x.location.id == e.location.id && x.id != e.id),
         ExcursionDefaultKey, 4)
  }

  /** When the excursion has a category: other active excursions of that category,
      in the default order, at most three; absent otherwise. */
  function CategoryExcursions(excursions: seq<Excursion>, e: Excursion): (r: Option<seq<Excursion>>)
    ensures r.Some? <==> e.category.Some?
    ensures r.Some? ==>
      var n := Count(excursions, (x: Excursion) => RefId(x.category) == RefId(e.category) && x.isActive && x.id != e.id);
      |r.value| == if n < 3 then n else 3
    ensures r.Some? ==> forall x :: x in r.value ==>
      x in excursions && x.isActive && RefId(x.category) == RefId(e.category) && x.id != e.id
    ensures r.Some? ==>
      multiset(r.value) <= multiset(Filter(excursions, (x: Excursion) => RefId(x.category) == RefId(e.category) && x.isActive && x.id != e.id))
    ensures r.Some? ==> SortedBy(r.value, ExcursionDefaultKey)
  {
    if e.category.None? then None
    else
      Some(TopN(Filter(excursions, (x: Excursion) => RefId(x.category) == RefId(e.category) && x.isActive && x.id != e.id),
                ExcursionDefaultKey, 3))
  }

  datatype ExcursionDetail = ExcursionDetail(
    excursion: Excursion, related: seq<Excursion>, categoryExcursions: Option<seq<Excursion>>,
    reviews: seq<Review>, averageRating: Mean, reviewCount: nat)

  /** Reading a model's `reviews` attribute: only a model that declares the review
      relation has one. */
  datatype Attr<T> = Value(value: T) | AttributeError(name: string)

  /** Tours and activities declare the review relation; excursions do not. */
  const ExcursionDeclaresReviews: bool := false

  function ReviewsAttr(declared: bool, allReviews: seq<Review>, target: Target): (r: Attr<seq<Review>>)
    ensures r.Value? <==> declared
    ensures r.Value? ==> r.value == ReviewsOf(allReviews, target)
  {
    if declared then Value(ReviewsOf(allReviews, target)) else AttributeError("reviews")
  }

  /** `Excursion.average_rating` as written: it reads `self.reviews`. */
  function ExcursionAverageAsWritten(e: Excursion, allReviews: seq<Review>, excursionType: nat): (r: Attr<Mean>)
    ensures r == AttributeError("reviews")
  {
    match ReviewsAttr(ExcursionDeclaresReviews, allReviews, Target(excursionType, e.id))
    case Value(rs) => Value(ApprovedAverage(rs))
    case AttributeError(n) => AttributeError(n)
  }

  /** `ExcursionDetailView` as written: resolving the excursion works, but building
      the page's context reads the average rating and so fails. */
  function ExcursionDetailAsWritten(excursions: seq<Excursion>, slug: string, allReviews: seq<Review>, excursionType: nat)
    : (r: Lookup<Attr<ExcursionDetail>>)
    ensures r.NotFound? <==> forall x :: x in excursions ==> !(x.isActive && x.slug == slug)
    ensures r.Found? ==> r.row == AttributeError("reviews")
  {
    match GetWhere(excursions, (x: Excursion) => x.isActive && x.slug == slug)
    case Found(e) =>
      (match ExcursionAverageAsWritten(e, allReviews, excursionType)
       case AttributeError(n) => Found(AttributeError(n))
       case Value(avg) =>
         var rs := ReviewsOf(allReviews, Target(excursionType, e.id));
         Found(Value(ExcursionDetail(e, RelatedExcursions(excursions, e), CategoryExcursions(excursions, e), [], avg, ApprovedCount(rs)))))
    case NotFound => NotFound
    case MultipleFound => MultipleFound
  }

  /** `ExcursionDetailView` with the review relation declared: the rating figures
      cover every approved review of the excursion (0 when there is none), and the
      listed reviews stay empty. */
  function ExcursionDetailPage(excursions: seq<Excursion>, slug: string, allReviews: seq<Review>, excursionType: nat)
    : (r: Lookup<ExcursionDetail>)
    ensures r.NotFound? <==> forall x :: x in excursions ==> !(x.isActive && x.slug == slug)
    ensures r.Found? ==> r.row.excursion in excursions && r.row.excursion.isActive && r.row.excursion.slug == slug
    ensures r.Found? ==> r.row.reviews == []
    ensures r.Found? ==>
      var rs := ReviewsOf(allReviews, Target(excursionType, r.row.excursion.id));
      r.row.reviewCount == ApprovedCount(rs) && r.row.averageRating == ApprovedAverage(rs)
      && r.row.averageRating.count == r.row.reviewCount
    ensures r.Found? ==> r.row.related == RelatedExcursions(excursions, r.row.excursion)
    ensures r.Found? ==> r.row.categoryExcursions == CategoryExcursions(excursions, r.row.excursion)
  {
    match GetWhere(excursions, (x: Excursion) => x.isActive && x.slug == slug)
    case Found(e) =>
      var rs := ReviewsOf(allReviews, Target(excursionType, e.id));
      Found(ExcursionDetail(e, RelatedExcursions(excursions, e), CategoryExcursions(excursions, e),
                            [], ApprovedAverage(rs), ApprovedCount(rs)))
    case NotFound => NotFound
    case MultipleFound => MultipleFound
  }

  /** Every page the corrected view renders is an error page as written. */
  lemma ExcursionDetailFailsAsWritten(excursions: seq<Excursion>, slug: string, allReviews: seq<Review>, excursionType: nat)
    requires ExcursionDetailPage(excursions, slug, allReviews, excursionType).Found?
    ensures ExcursionDetailAsWritten(excursions, slug, allReviews, excursionType) == Found(AttributeError("reviews"))
  {
  }

  /** The corrected page shows an average of 0 exactly when the excursion has no
      approved review. */
  lemma ExcursionPageAverageZeroIffUnreviewed(excursions: seq<Excursion>, slug: string, allReviews: seq<Review>, excursionType: nat)
    requires RatingsValid(allReviews)
    requires ExcursionDetailPage(excursions, slug, allReviews, excursionType).Found?
    ensures var d := ExcursionDetailPage(excursions, slug, allReviews, excursionType).row;
      d.averageRating.sum == 0 <==> d.reviewCount == 0
  {
    var d := ExcursionDetailPage(excursions, slug, allReviews, excursionType).row;
    var rs := ReviewsOf(allReviews, Target(excursionType, d.excursion.id));
    forall i | 0 <= i < |rs| ensures 1 <= rs[i].rating <= 5 {
      assert rs[i] in allReviews;
    }
    ApprovedAverageZeroIffNone(rs);
  }
}
