/** The transfer pages: the filtered and sorted transfer list with its page
    context, and the transfer detail page with its related lists. */
module TransferViews {
  import opened Common
  import opened Ordering
  import opened Catalogue

  // ---------------------------------------------------------------- sorting

  datatype TransferSort = PriceLow | PriceHigh | MostPopular | FeaturedFirst

  function ParseTransferSort(s: string): (r: TransferSort)
    ensures r == PriceLow <==> s == "price_low"
    ensures r == PriceHigh <==> s == "price_high"
    ensures r == MostPopular <==> s == "popular"
  {
    if s == "price_low" then PriceLow
    else if s == "price_high" then PriceHigh
    else if s == "popular" then MostPopular
    else FeaturedFirst
  }

  /** Prices sort on the base price column. */
  function TransferSortKey(s: TransferSort): Transfer -> Key
  {
    match s
    case PriceLow => (t: Transfer) => [Num(t.basePrice)]
    case PriceHigh => (t: Transfer) => [Num(-t.basePrice)]
    case MostPopular => (t: Transfer) => [Num(-Flag(t.isPopular)), Num(-Flag(t.isFeatured)), Text(t.title)]
    case FeaturedFirst => (t: Transfer) => [Num(-Flag(t.isFeatured)), Num(-Flag(t.isPopular)), Text(t.title)]
  }

  /** "Cheapest first" can put a transfer whose displayed price is higher before
      one whose displayed price is lower: a discount does not move a transfer. */
  lemma PriceLowIgnoresDisplayedPrice()
    ensures var a := Transfer(1, "a", "A", "", "", "", None, None, None, None, 1000, false, Some(200), true, false, false);
            var b := Transfer(2, "b", "B", "", "", "", None, None, None, None, 500, false, None, true, false, false);
            KeyLe(TransferSortKey(PriceLow)(b), TransferSortKey(PriceLow)(a))
            && !KeyLe(TransferSortKey(PriceLow)(a), TransferSortKey(PriceLow)(b))
            && TransferDisplayPrice(a) < TransferDisplayPrice(b)
  {
  }

  // ---------------------------------------------------------------- the list

  datatype TransferQuery = TransferQuery(
    transferType: string, vehicle: string, from: string, to: string, search: string, ordering: string)

  function ReadQuery(params: map<string, string>): TransferQuery
  {
    TransferQuery(Get(params, "type", ""), Get(params, "vehicle", ""), Get(params, "from", ""),
                  Get(params, "to", ""), Get(params, "search", ""), Get(params, "ordering", "featured"))
  }

  predicate OfType(t: Transfer, q: TransferQuery) { SlugIs(t.transferType, q.transferType) }

  predicate InVehicle(t: Transfer, q: TransferQuery) { SlugIs(t.vehicleType, q.vehicle) }

  predicate StartsAt(t: Transfer, q: TransferQuery) { SlugIs(t.fromLocation, q.from) }

  predicate EndsAt(t: Transfer, q: TransferQuery) { SlugIs(t.toLocation, q.to) }

  /** The search looks at both languages of the title and the description. */
  predicate MentionsSearch(t: Transfer, q: TransferQuery)
  {
    IContains(t.title, q.search) || IContains(t.titleEn, q.search)
    || IContains(t.description, q.search) || IContains(t.descriptionEn, q.search)
  }

  predicate TransferMatches(t: Transfer, q: TransferQuery)
  {
    t.isActive
    && (q.transferType == "" || OfType(t, q))
    && (q.vehicle == "" || InVehicle(t, q))
    && (q.from == "" || StartsAt(t, q))
    && (q.to == "" || EndsAt(t, q))
    && (q.search == "" || MentionsSearch(t, q))
  }

  /** The first three filters: active transfers of the transfer type and vehicle. */
  function TypedTransfers(transfers: seq<Transfer>, q: TransferQuery): (r: seq<Transfer>)
    ensures forall t :: t in r <==> (t in transfers && t.isActive
      && (q.transferType == "" || OfType(t, q)) && (q.vehicle == "" || InVehicle(t, q)))
  {
    var q0 := Filter(transfers, (t: Transfer) => t.isActive);
    var q1 := When(q0, q.transferType != "", (t: Transfer) => OfType(t, q));
    When(q1, q.vehicle != "", (t: Transfer) => InVehicle(t, q))
  }

  /** The transfers the filters keep, each non-empty filter applied in turn. */
  function NarrowTransfers(transfers: seq<Transfer>, q: TransferQuery): (r: seq<Transfer>)
    ensures forall t :: t in r <==> t in transfers && TransferMatches(t, q)
  {
    var q2 := TypedTransfers(transfers, q);
    var q3 := When(q2, q.from != "", (t: Transfer) => StartsAt(t, q));
    var q4 := When(q3, q.to != "", (t: Transfer) => EndsAt(t, q));
    When(q4, q.search != "", (t: Transfer) => MentionsSearch(t, q))
  }

  /** `TransferListView.get_queryset`: every request succeeds. */
  function TransferList(transfers: seq<Transfer>, params: map<string, string>): (r: seq<Transfer>)
    ensures forall t :: t in r <==> t in transfers && TransferMatches(t, ReadQuery(params))
    ensures SortedBy(r, TransferSortKey(ParseTransferSort(ReadQuery(params).ordering)))
    ensures multiset(r) == multiset(NarrowTransfers(transfers, ReadQuery(params)))
  {
    var q := ReadQuery(params);
    var rows := NarrowTransfers(transfers, q);
    var key := TransferSortKey(ParseTransferSort(q.ordering));
    SortSorted(rows, key);
    SortPermutes(rows, key);
    Sort(rows, key)
  }

  // ---------------------------------------------------------------- the list context

  /** A transfer type or a vehicle type row. */
  datatype TypeRow = TypeRow(id: nat, slug: string, name: string, order: int, capacity: int, isActive: bool)

  function TransferTypeKey(r: TypeRow): Key { [Num(r.order), Text(r.name)] }

  function VehicleTypeKey(r: TypeRow): Key { [Num(r.order), Num(r.capacity)] }

  datatype ListContext = ListContext(
    transferTypes: seq<TypeRow>, vehicleTypes: seq<TypeRow>,
    featuredTransfers: seq<Transfer>, totalTransfers: nat, current: TransferQuery)

  /** `TransferListView.get_context_data` */
  function ListPageContext(transfers: seq<Transfer>, transferTypes: seq<TypeRow>, vehicleTypes: seq<TypeRow>,
                           params: map<string, string>): (r: ListContext)
    ensures forall x :: x in r.transferTypes <==> x in transferTypes && x.isActive
    ensures SortedBy(r.transferTypes, TransferTypeKey)
    ensures forall x :: x in r.vehicleTypes <==> x in vehicleTypes && x.isActive
    ensures SortedBy(r.vehicleTypes, VehicleTypeKey)
    ensures var n := Count(transfers, (t: Transfer) => t.isActive && t.isFeatured);
      |r.featuredTransfers| == if n < 6 then n else 6
    ensures forall t :: t in r.featuredTransfers ==> t in transfers && t.isActive && t.isFeatured
    ensures multiset(r.featuredTransfers) <= multiset(Filter(transfers, (t: Transfer) => t.isActive && t.isFeatured))
    ensures SortedBy(r.featuredTransfers, TransferDefaultKey)
    ensures r.totalTransfers == Count(transfers, (t: Transfer) => t.isActive)
    ensures r.current == ReadQuery(params)
  {
    var tt := Filter(transferTypes, (x: TypeRow) => x.isActive);
    var vt := Filter(vehicleTypes, (x: TypeRow) => x.isActive);
    SortSorted(tt, TransferTypeKey);
    SortPermutes(tt, TransferTypeKey);
    SortSorted(vt, VehicleTypeKey);
    SortPermutes(vt, VehicleTypeKey);
    var featured := Filter(transfers, (t: Transfer) => t.isActive && t.isFeatured);
    ListContext(Sort(tt, TransferTypeKey), Sort(vt, VehicleTypeKey),
                TopN(featured, TransferDefaultKey, 6), Count(transfers, (t: Transfer) => t.isActive),
                ReadQuery(params))
  }

  // ---------------------------------------------------------------- detail

  /** Other active transfers of the same transfer type (including "no type"), in
      the default order, at most four. */
  function RelatedTransfers(transfers: seq<Transfer>, t: Transfer): (r: seq<Transfer>)
    ensures var n := Count(transfers, (x: Transfer) => RefId(x.transferType) == RefId(t.transferType) && x.isActive && x.id != t.id);
      |r| == if n < 4 then n else 4
    ensures forall x :: x in r ==> x in transfers && x.isActive && RefId(x.transferType) == RefId(t.transferType) && x.id != t.id
    ensures multiset(r) <= multiset(Filter(transfers, (x: Transfer) => RefId(x.transferType) == RefId(t.transferType) && x.isActive && x.id != t.id))
    ensures SortedBy(r, TransferDefaultKey)
  {
    TopN(Filter(transfers, (x: Transfer) => RefId(x.transferType) == RefId(t.transferType) && x.isActive && x.id != t.id),
         TransferDefaultKey, 4)
  }

  /** When the transfer has a vehicle type: other active transfers with it, in the
      default order, at most three. */
  function SimilarVehicles(transfers: seq<Transfer>, t: Transfer): (r: Option<seq<Transfer>>)
    ensures r.Some? <==> t.vehicleType.Some?
    ensures r.Some? ==>
      var n := Count(transfers, (x: Transfer) => RefId(x.vehicleType) == RefId(t.vehicleType) && x.isActive && x.id != t.id);
      |r.value| == if n < 3 then n else 3
    ensures r.Some? ==> forall x :: x in r.value ==>
      x in transfers && x.isActive && RefId(x.vehicleType) == RefId(t.vehicleType) && x.id != t.id
    ensures r.Some? ==>
      multiset(r.value) <= multiset(Filter(transfers, (x: Transfer) => RefId(x.vehicleType) == RefId(t.vehicleType) && x.isActive && x.id != t.id))
    ensures r.Some? ==> SortedBy(r.value, TransferDefaultKey)
  {
    if t.vehicleType.None? then None
    else
      Some(TopN(Filter(transfers, (x: Transfer) => RefId(x.vehicleType) == RefId(t.vehicleType) && x.isActive && x.id != t.id),
                TransferDefaultKey, 3))
  }

  datatype TransferDetail = TransferDetail(
    transfer: Transfer, related: seq<Transfer>, similarVehicles: Option<seq<Transfer>>,
    averageRatingTenths: int, totalReviews: nat)

  /** `TransferDetailView`: only an active transfer resolves; the rating shown is
      the constant 5.0 with no reviews. */
  function TransferDetailPage(transfers: seq<Transfer>, slug: string): (r: Lookup<TransferDetail>)
    ensures r.NotFound? <==> forall x :: x in transfers ==> !(x.isActive && x.slug == slug)
    ensures r.Found? ==> r.row.transfer in transfers && r.row.transfer.isActive && r.row.transfer.slug == slug
    ensures r.Found? ==> r.row.averageRatingTenths == 50 && r.row.totalReviews == 0
    ensures r.Found? ==> r.row.related == RelatedTransfers(transfers, r.row.transfer)
    ensures r.Found? ==> r.row.similarVehicles == SimilarVehicles(transfers, r.row.transfer)
  {
    match GetWhere(transfers, (x: Transfer) => x.isActive && x.slug == slug)
    case Found(t) => Found(TransferDetail(t, RelatedTransfers(transfers, t), SimilarVehicles(transfers, t), 50, 0))
    case NotFound => NotFound
    case MultipleFound => MultipleFound
  }
}
