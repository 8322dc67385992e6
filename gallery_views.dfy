/** The gallery pages: the filtered and sorted image list with its page context,
    and the image detail page with related images and previous/next navigation
    through all active images. */
module GalleryViews {
  import opened Common
  import opened Ordering
  import opened Catalogue

  datatype GalleryImage = GalleryImage(
    id: nat, title: string, titleEn: string, description: string, descriptionEn: string,
    category: Option<Ref>, location: Option<Ref>,
    isFeatured: bool, isActive: bool, order: int, createdAt: int)

  /** GalleryImage: `ordering = ['order', '-is_featured', '-created_at']` */
  function GalleryDefaultKey(g: GalleryImage): Key
  {
    [Num(g.order), Num(-Flag(g.isFeatured)), Num(-g.createdAt)]
  }

  // ---------------------------------------------------------------- sorting

  datatype GallerySort = Newest | Oldest | FeaturedFirst | ByOrder

  /** The `ordering` parameter: unknown values and the default `order` sort by position. */
  function ParseGallerySort(s: string): (r: GallerySort)
    ensures r == Newest <==> s == "newest"
    ensures r == Oldest <==> s == "oldest"
    ensures r == FeaturedFirst <==> s == "featured"
  {
    if s == "newest" then Newest
    else if s == "oldest" then Oldest
    else if s == "featured" then FeaturedFirst
    else ByOrder
  }

  function GallerySortKey(s: GallerySort): GalleryImage -> Key
  {
    match s
    case Newest => (g: GalleryImage) => [Num(-g.createdAt)]
    case Oldest => (g: GalleryImage) => [Num(g.createdAt)]
    case FeaturedFirst => (g: GalleryImage) => [Num(-Flag(g.isFeatured)), Num(g.order), Num(-g.createdAt)]
    case ByOrder => GalleryDefaultKey
  }

  /** Newest and oldest are exact reverses whenever creation times differ. */
  lemma NewestOldestOpposite(a: GalleryImage, b: GalleryImage)
    requires a.createdAt != b.createdAt
    ensures KeyLe(GallerySortKey(Newest)(a), GallerySortKey(Newest)(b))
        <==> !KeyLe(GallerySortKey(Oldest)(a), GallerySortKey(Oldest)(b))
  {
  }

  // ---------------------------------------------------------------- the list

  datatype GalleryQuery = GalleryQuery(category: string, location: string, search: string, ordering: string)

  function ReadQuery(params: map<string, string>): GalleryQuery
  {
    GalleryQuery(Get(params, "category", ""), Get(params, "location", ""),
                 Get(params, "search", ""), Get(params, "ordering", "order"))
  }

  predicate InCategory(g: GalleryImage, q: GalleryQuery) { SlugIs(g.category, q.category) }

  predicate AtLocation(g: GalleryImage, q: GalleryQuery) { SlugIs(g.location, q.location) }

  /** The search looks at both languages of the title and the description. */
  predicate MentionsSearch(g: GalleryImage, q: GalleryQuery)
  {
    IContains(g.title, q.search) || IContains(g.titleEn, q.search)
    || IContains(g.description, q.search) || IContains(g.descriptionEn, q.search)
  }

  predicate GalleryMatches(g: GalleryImage, q: GalleryQuery)
  {
    g.isActive
    && (q.category == "" || InCategory(g, q))
    && (q.location == "" || AtLocation(g, q))
    && (q.search == "" || MentionsSearch(g, q))
  }

  /** The images the filters keep, each non-empty filter applied in turn. */
  function NarrowImages(images: seq<GalleryImage>, q: GalleryQuery): (r: seq<GalleryImage>)
    ensures forall g :: g in r <==> g in images && GalleryMatches(g, q)
  {
    var q0 := Filter(images, (g: GalleryImage) => g.isActive);
    var q1 := When(q0, q.category != "", (g: GalleryImage) => InCategory(g, q));
    var q2 := When(q1, q.location != "", (g: GalleryImage) => AtLocation(g, q));
    When(q2, q.search != "", (g: GalleryImage) => MentionsSearch(g, q))
  }

  /** `GalleryListView.get_queryset` */
  function GalleryList(images: seq<GalleryImage>, params: map<string, string>): (r: seq<GalleryImage>)
    ensures forall g :: g in r <==> g in images && GalleryMatches(g, ReadQuery(params))
    ensures SortedBy(r, GallerySortKey(ParseGallerySort(ReadQuery(params).ordering)))
    ensures multiset(r) == multiset(NarrowImages(images, ReadQuery(params)))
  {
    var q := ReadQuery(params);
    var rows := NarrowImages(images, q);
    var key := GallerySortKey(ParseGallerySort(q.ordering));
    SortSorted(rows, key);
    SortPermutes(rows, key);
    Sort(rows, key)
  }

  datatype GalleryCategory = GalleryCategory(id: nat, slug: string, name: string, order: int, isActive: bool)

  function CategoryKey(c: GalleryCategory): Key { [Num(c.order), Text(c.name)] }

  datatype ListContext = ListContext(
    categories: seq<GalleryCategory>, featuredImages: seq<GalleryImage>, totalImages: nat, current: GalleryQuery)

  /** `GalleryListView.get_context_data` */
  function ListPageContext(images: seq<GalleryImage>, categories: seq<GalleryCategory>, params: map<string, string>)
    : (r: ListContext)
    ensures forall c :: c in r.categories <==> c in categories && c.isActive
    ensures SortedBy(r.categories, CategoryKey)
    ensures var n := Count(images, (g: GalleryImage) => g.isActive && g.isFeatured);
      |r.featuredImages| == if n < 6 then n else 6
    ensures forall g :: g in r.featuredImages ==> g in images && g.isActive && g.isFeatured
    ensures multiset(r.featuredImages) <= multiset(Filter(images, (g: GalleryImage) => g.isActive && g.isFeatured))
    ensures SortedBy(r.featuredImages, GalleryDefaultKey)
    ensures r.totalImages == Count(images, (g: GalleryImage) => g.isActive)
    ensures r.current == ReadQuery(params)
  {
    var cats := Filter(categories, (c: GalleryCategory) => c.isActive);
    SortSorted(cats, CategoryKey);
    SortPermutes(cats, CategoryKey);
    var featured := Filter(images, (g: GalleryImage) => g.isActive && g.isFeatured);
    ListContext(Sort(cats, CategoryKey), TopN(featured, GalleryDefaultKey, 6),
                Count(images, (g: GalleryImage) => g.isActive), ReadQuery(params))
  }

  // ---------------------------------------------------------------- detail

  /** The position of the first image with this id, or -1 (`list.index` compares by id). */
  function IndexOfId(s: seq<GalleryImage>, id: nat): (r: int)
    ensures -1 <= r < |s|
    ensures r >= 0 ==> s[r].id == id && forall k :: 0 <= k < r ==> s[k].id != id
    ensures r == -1 ==> forall k :: 0 <= k < |s| ==> s[k].id != id
  {
    if s == [] then -1
    else if s[0].id == id then 0
    else
      var r := IndexOfId(s[1..], id);
      if r == -1 then -1 else r + 1
  }

  /** The previous and next image around `image` in `all`; none at either end, and
      neither when `image` is not in `all`. */
  function Neighbours(all: seq<GalleryImage>, image: GalleryImage): (r: (Option<GalleryImage>, Option<GalleryImage>))
    ensures IndexOfId(all, image.id) == -1 ==> r == (None, None)
    ensures var i := IndexOfId(all, image.id);
      i >= 0 ==> r.0 == (if i > 0 then Some(all[i - 1]) else None)
    ensures var i := IndexOfId(all, image.id);
      i >= 0 ==> r.1 == (if i < |all| - 1 then Some(all[i + 1]) else None)
  {
    var i := IndexOfId(all, image.id);
    if i == -1 then (None, None)
    else
      (if i > 0 then Some(all[i - 1]) else None, if i < |all| - 1 then Some(all[i + 1]) else None)
  }

  /** Next and previous are inverse: the image after an image's predecessor is
      that image again, when ids are unique. */
  lemma NeighboursInverse(all: seq<GalleryImage>, image: GalleryImage)
    requires forall i, j :: 0 <= i < j < |all| ==> all[i].id != all[j].id
    requires Neighbours(all, image).0.Some?
    ensures Neighbours(all, Neighbours(all, image).0.value).1 == Some(all[IndexOfId(all, image.id)])
  {
    var i := IndexOfId(all, image.id);
    IndexOfUnique(all, i - 1);
  }

  /** With unique ids, looking up the id at position j finds j. */
  lemma IndexOfUnique(all: seq<GalleryImage>, j: int)
    requires forall i, k :: 0 <= i < k < |all| ==> all[i].id != all[k].id
    requires 0 <= j < |all|
    ensures IndexOfId(all, all[j].id) == j
  {
  }

  datatype GalleryDetail = GalleryDetail(
    image: GalleryImage, related: Option<seq<GalleryImage>>,
    prevImage: Option<GalleryImage>, nextImage: Option<GalleryImage>)

  /** When the image has a category: other active images of it, in the default
      order, at most twelve. */
  function RelatedImages(images: seq<GalleryImage>, g: GalleryImage): (r: Option<seq<GalleryImage>>)
    ensures r.Some? <==> g.category.Some?
    ensures r.Some? ==>
      var n := Count(images, (x: GalleryImage) => RefId(x.category) == RefId(g.category) && x.isActive && x.id != g.id);
      |r.value| == if n < 12 then n else 12
    ensures r.Some? ==> forall x :: x in r.value ==>
      x in images && x.isActive && RefId(x.category) == RefId(g.category) && x.id != g.id
    ensures r.Some? ==>
      multiset(r.value) <= multiset(Filter(images, (x: GalleryImage) => RefId(x.category) == RefId(g.category) && x.isActive && x.id != g.id))
    ensures r.Some? ==> SortedBy(r.value, GalleryDefaultKey)
  {
    if g.category.None? then None
    else
      Some(TopN(Filter(images, (x: GalleryImage) => RefId(x.category) == RefId(g.category) && x.isActive && x.id != g.id),
                GalleryDefaultKey, 12))
  }

  /** All active images in the default order: the sequence navigation walks. */
  function NavigationList(images: seq<GalleryImage>): (r: seq<GalleryImage>)
    ensures forall x :: x in r <==> x in images && x.isActive
    ensures multiset(r) == multiset(Filter(images, (x: GalleryImage) => x.isActive))
    ensures SortedBy(r, GalleryDefaultKey)
  {
    var active := Filter(images, (x: GalleryImage) => x.isActive);
    SortSorted(active, GalleryDefaultKey);
    SortPermutes(active, GalleryDefaultKey);
    Sort(active, GalleryDefaultKey)
  }

  /** `GalleryDetailView`: an active image by id, its related images, and its
      neighbours in the list of all active images. */
  function GalleryDetailPage(images: seq<GalleryImage>, pk: nat): (r: Lookup<GalleryDetail>)
    ensures r.NotFound? <==> forall x :: x in images ==> !(x.isActive && x.id == pk)
    ensures r.Found? ==> r.row.image in images && r.row.image.isActive && r.row.image.id == pk
    ensures r.Found? ==> r.row.related == RelatedImages(images, r.row.image)
    ensures r.Found? ==> (r.row.prevImage, r.row.nextImage) == Neighbours(NavigationList(images), r.row.image)
    ensures r.Found? ==> IndexOfId(NavigationList(images), pk) >= 0
  {
    match GetWhere(images, (x: GalleryImage) => x.isActive && x.id == pk)
    case Found(g) =>
      var all := NavigationList(images);
      assert g in all;
      var n := Neighbours(all, g);
      Found(GalleryDetail(g, RelatedImages(images, g), n.0, n.1))
    case NotFound => NotFound
    case MultipleFound => MultipleFound
  }

  /** On a detail page the first image in navigation order has no predecessor and
      the last has no successor. */
  lemma NavigationEnds(images: seq<GalleryImage>, pk: nat)
    requires GalleryDetailPage(images, pk).Found?
    ensures var d := GalleryDetailPage(images, pk).row;
            var all := NavigationList(images);
            (d.prevImage.None? <==> IndexOfId(all, pk) == 0)
            && (d.nextImage.None? <==> IndexOfId(all, pk) == |all| - 1)
  {
  }
}
