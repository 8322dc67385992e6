/** The activity pages: the filtered and sorted activity list with its page
    context, and the activity detail page with its related lists. */
module ActivityViews {
  import opened Common
  import opened Ordering
  import opened Catalogue

  // ---------------------------------------------------------------- sorting

  datatype ActivitySort = PriceLow | PriceHigh | MostPopular | FeaturedFirst

  /** The `ordering` parameter: unknown values and the default `featured` give the
      featured ordering. */
  function ParseActivitySort(s: string): (r: ActivitySort)
    ensures r == PriceLow <==> s == "price_low"
    ensures r == PriceHigh <==> s == "price_high"
    ensures r == MostPopular <==> s == "popular"
  {
    if s == "price_low" then PriceLow
    else if s == "price_high" then PriceHigh
    else if s == "popular" then MostPopular
    else FeaturedFirst
  }

  function ActivitySortKey(s: ActivitySort): Activity -> Key
  {
    match s
    case PriceLow => (a: Activity) => [Num(a.price)]
    case PriceHigh => (a: Activity) => [Num(-a.price)]
    case MostPopular => (a: Activity) => [Num(-Flag(a.isPopular)), Num(-Flag(a.isFeatured)), Text(a.title)]
    case FeaturedFirst => (a: Activity) => [Num(-Flag(a.isFeatured)), Num(-Flag(a.isPopular)), Text(a.title)]
  }

  /** The list's default ordering is the model's own ordering. */
  lemma DefaultOrderingIsModelOrdering(a: Activity)
    ensures ActivitySortKey(ParseActivitySort("featured"))(a) == ActivityDefaultKey(a)
  {
  }

  /** Sorting by price uses the base price, not the displayed (discounted) one. */
  lemma PriceSortIgnoresDiscount(a: Activity, d: Option<int>)
    ensures ActivitySortKey(PriceLow)(a) == ActivitySortKey(PriceLow)(a.(discountPrice := d))
    ensures ActivitySortKey(PriceHigh)(a) == ActivitySortKey(PriceHigh)(a.(discountPrice := d))
  {
  }

  // ---------------------------------------------------------------- the list

  datatype ActivityQuery = ActivityQuery(category: string, location: string, search: string, ordering: string)

  function ReadQuery(params: map<string, string>): ActivityQuery
  {
    ActivityQuery(Get(params, "category", ""), Get(params, "location", ""),
                  Get(params, "search", ""), Get(params, "ordering", "featured"))
  }

  predicate InCategory(a: Activity, q: ActivityQuery) { SlugIs(a.category, q.category) }

  predicate AtLocation(a: Activity, q: ActivityQuery) { SlugIs(a.location, q.location) }

  /** The search looks at both languages of the title and the description. */
  predicate MentionsSearch(a: Activity, q: ActivityQuery)
  {
    IContains(a.title, q.search) || IContains(a.titleEn, q.search)
    || IContains(a.description, q.search) || IContains(a.descriptionEn, q.search)
  }

  predicate ActivityMatches(a: Activity, q: ActivityQuery)
  {
    a.isActive
    && (q.category == "" || InCategory(a, q))
    && (q.location == "" || AtLocation(a, q))
    && (q.search == "" || MentionsSearch(a, q))
  }

  /** The activities the filters keep, each non-empty filter applied in turn. */
  function NarrowActivities(activities: seq<Activity>, q: ActivityQuery): (r: seq<Activity>)
    ensures forall a :: a in r <==> a in activities && ActivityMatches(a, q)
  {
    var q0 := Filter(activities, (a: Activity) => a.isActive);
    var q1 := When(q0, q.category != "", (a: Activity) => InCategory(a, q));
    var q2 := When(q1, q.location != "", (a: Activity) => AtLocation(a, q));
    When(q2, q.search != "", (a: Activity) => MentionsSearch(a, q))
  }

  /** `ActivityListView.get_queryset`: every request succeeds. */
  function ActivityList(activities: seq<Activity>, params: map<string, string>): (r: seq<Activity>)
    ensures forall a :: a in r <==> a in activities && ActivityMatches(a, ReadQuery(params))
    ensures SortedBy(r, ActivitySortKey(ParseActivitySort(ReadQuery(params).ordering)))
    ensures multiset(r) == multiset(NarrowActivities(activities, ReadQuery(params)))
  {
    var q := ReadQuery(params);
    var rows := NarrowActivities(activities, q);
    var key := ActivitySortKey(ParseActivitySort(q.ordering));
    SortSorted(rows, key);
    SortPermutes(rows, key);
    Sort(rows, key)
  }

  // ---------------------------------------------------------------- the list context

  datatype ActivityCategory = ActivityCategory(id: nat, slug: string, name: string, order: int, isActive: bool)

  datatype ListContext = ListContext(
    categories: seq<ActivityCategory>, featuredCategories: seq<ActivityCategory>,
    featuredActivities: seq<Activity>, totalActivities: nat,
    currentCategory: string, currentLocation: string, currentSearch: string, currentOrdering: string)

  function CategoryKey(c: ActivityCategory): Key { [Num(c.order), Text(c.name)] }

  /** `ActivityListView.get_context_data` */
  function ListPageContext(activities: seq<Activity>, categories: seq<ActivityCategory>, params: map<string, string>)
    : (r: ListContext)
    ensures forall c :: c in r.categories <==> c in categories && c.isActive
    ensures SortedBy(r.categories, CategoryKey)
    ensures r.featuredCategories == Take(r.categories, 3)
    ensures var n := Count(activities, (a: Activity) => a.isActive && a.isFeatured);
      |r.featuredActivities| == if n < 6 then n else 6
    ensures forall a :: a in r.featuredActivities ==> a in activities && a.isActive && a.isFeatured
    ensures multiset(r.featuredActivities) <= multiset(Filter(activities, (a: Activity) => a.isActive && a.isFeatured))
    ensures SortedBy(r.featuredActivities, ActivityDefaultKey)
    ensures r.totalActivities == Count(activities, (a: Activity) => a.isActive)
    ensures r.currentCategory == Get(params, "category", "") && r.currentLocation == Get(params, "location", "")
    ensures r.currentSearch == Get(params, "search", "") && r.currentOrdering == Get(params, "ordering", "featured")
  {
    var active := Filter(categories, (c: ActivityCategory) => c.isActive);
    SortSorted(active, CategoryKey);
    SortPermutes(active, CategoryKey);
    var cats := Sort(active, CategoryKey);
    var featured := Filter(activities, (a: Activity) => a.isActive && a.isFeatured);
    ListContext(cats, Take(cats, 3), TopN(featured, ActivityDefaultKey, 6),
                Count(activities, (a: Activity) => a.isActive),
                Get(params, "category", ""), Get(params, "location", ""),
                Get(params, "search", ""), Get(params, "ordering", "featured"))
  }

  // ---------------------------------------------------------------- detail

  /** Other active activities in the same category (including "no category"),
      in the default order, at most four. */
  function RelatedActivities(activities: seq<Activity>, a: Activity): (r: seq<Activity>)
    ensures var n := Count(activities, (x: Activity) => RefId(x.category) == RefId(a.category) && x.isActive && x.id != a.id);
      |r| == if n < 4 then n else 4
    ensures forall x :: x in r ==> x in activities && x.isActive && RefId(x.category) == RefId(a.category) && x.id != a.id
    ensures multiset(r) <= multiset(Filter(activities, (x: Activity) => RefId(x.category) == RefId(a.category) && x.isActive && x.id != a.id))
    ensures SortedBy(r, ActivityDefaultKey)
  {
    TopN(Filter(activities, (x: Activity) => RefId(x.category) == RefId(a.category) && x.isActive && x.id != a.id),
         ActivityDefaultKey, 4)
  }

  /** When the activity has a location: other active activities there, in the
      default order, at most three. */
  function LocationActivities(activities: seq<Activity>, a: Activity): (r: Option<seq<Activity>>)
    ensures r.Some? <==> a.location.Some?
    ensures r.Some? ==>
      var n := Count(activities, (x: Activity) => RefId(x.location) == RefId(a.location) && x.isActive && x.id != a.id);
      |r.value| == if n < 3 then n else 3
    ensures r.Some? ==> forall x :: x in r.value ==>
      x in activities && x.isActive && RefId(x.location) == RefId(a.location) && x.id != a.id
    ensures r.Some? ==>
      multiset(r.value) <= multiset(Filter(activities, (x: Activity) => RefId(x.location) == RefId(a.location) && x.isActive && x.id != a.id))
    ensures r.Some? ==> SortedBy(r.value, ActivityDefaultKey)
  {
    if a.location.None? then None
    else
      Some(TopN(Filter(activities, (x: Activity) => RefId(x.location) == RefId(a.location) && x.isActive && x.id != a.id),
                ActivityDefaultKey, 3))
  }

  /** The rating shown on the page is a constant, in tenths of a star. */
  datatype ActivityDetail = ActivityDetail(
    activity: Activity, related: seq<Activity>, locationActivities: Option<seq<Activity>>,
    averageRatingTenths: int, totalReviews: nat)

  /** `ActivityDetailView`: an active activity by slug; the page shows 5.0 stars and
      no reviews whatever the activity's reviews are. */
  function ActivityDetailPage(activities: seq<Activity>, slug: string): (r: Lookup<ActivityDetail>)
    ensures r.NotFound? <==> forall x :: x in activities ==> !(x.isActive && x.slug == slug)
    ensures r.Found? ==> r.row.activity in activities && r.row.activity.isActive && r.row.activity.slug == slug
    ensures r.Found? ==> r.row.averageRatingTenths == 50 && r.row.totalReviews == 0
    ensures r.Found? ==> r.row.related == RelatedActivities(activities, r.row.activity)
    ensures r.Found? ==> r.row.locationActivities == LocationActivities(activities, r.row.activity)
  {
    match GetWhere(activities, (x: Activity) => x.isActive && x.slug == slug)
    case Found(a) => Found(ActivityDetail(a, RelatedActivities(activities, a), LocationActivities(activities, a), 50, 0))
    case NotFound => NotFound
    case MultipleFound => MultipleFound
  }
}
