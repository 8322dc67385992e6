/** The bookable catalogue: tours, excursions, activities and transfers, their
    price and discount rules, the slug each row derives on save, and the default
    ordering each model declares. Prices are integer cents (the columns are
    two-decimal fixed point). */
module Catalogue {
  import opened Common
  import opened Ordering

  /** A row behind a foreign key (Location, a category, a transfer or vehicle type). */
  datatype Ref = Ref(id: nat, slug: string)

  /** The row id behind a nullable foreign key; comparing two of these is `fk=other.fk`
      (a missing reference matches only missing references, as `IS NULL`). */
  function RefId(r: Option<Ref>): Option<nat>
  {
    if r.Some? then Some(r.value.id) else None
  }

  /** `fk__slug=slug` on a nullable foreign key: a missing reference never matches. */
  predicate SlugIs(r: Option<Ref>, slug: string)
  {
    r.Some? && r.value.slug == slug
  }

  datatype Tour = Tour(
    id: nat, slug: string, title: string, titleEn: string, description: string, descriptionEn: string,
    location: Ref, category: Option<Ref>,
    price: int, originalPrice: Option<int>,
    isFeatured: bool, isActive: bool, createdAt: int)

  datatype Excursion = Excursion(
    id: nat, slug: string, title: string, titleEn: string, description: string, descriptionEn: string,
    location: Ref, category: Option<Ref>,
    price: int, originalPrice: Option<int>,
    isFeatured: bool, isPopular: bool, isBestseller: bool, isActive: bool, createdAt: int)

  datatype Activity = Activity(
    id: nat, slug: string, title: string, titleEn: string, description: string, descriptionEn: string,
    category: Option<Ref>, location: Option<Ref>,
    price: int, pricePerPerson: bool, discountPrice: Option<int>,
    isActive: bool, isFeatured: bool, isPopular: bool, createdAt: int)

  datatype Transfer = Transfer(
    id: nat, slug: string, title: string, titleEn: string, description: string, descriptionEn: string,
    transferType: Option<Ref>, vehicleType: Option<Ref>,
    fromLocation: Option<Ref>, toLocation: Option<Ref>,
    basePrice: int, pricePerPerson: bool, discountPrice: Option<int>,
    isActive: bool, isFeatured: bool, isPopular: bool)

  // ---------------------------------------------------------------- prices

  /** `discount_price if discount_price else price`: a missing or zero discount
      (both falsy) shows the base price. */
  function DisplayPrice(base: int, discount: Option<int>): (r: int)
    ensures r == base || Some(r) == discount
    ensures discount == None || discount == Some(0) ==> r == base
  {
    if discount.Some? && discount.value != 0 then discount.value else base
  }

  /** `discount_price is not None and discount_price < price` */
  predicate DiscountBelow(base: int, discount: Option<int>)
  {
    discount.Some? && discount.value < base
  }

  function ActivityDisplayPrice(a: Activity): int
  {
    DisplayPrice(a.price, a.discountPrice)
  }

  predicate ActivityHasDiscount(a: Activity)
  {
    DiscountBelow(a.price, a.discountPrice)
  }

  function TransferDisplayPrice(t: Transfer): int
  {
    DisplayPrice(t.basePrice, t.discountPrice)
  }

  predicate TransferHasDiscount(t: Transfer)
  {
    DiscountBelow(t.basePrice, t.discountPrice)
  }

  /** An excursion is discounted when its former price lies ABOVE its current one
      (the opposite comparison to activities and transfers, whose discount field
      must lie below the base price). */
  predicate ExcursionHasDiscount(e: Excursion)
  {
    e.originalPrice.Some? && e.originalPrice.value > e.price
  }

  /** A non-zero discount that counts as a discount is what the customer sees,
      and it is cheaper than the base price. */
  lemma DiscountedDisplayIsCheaper(base: int, discount: Option<int>)
    requires DiscountBelow(base, discount) && discount.value != 0
    ensures DisplayPrice(base, discount) == discount.value < base
  {
  }

  /** The two properties can disagree: a zero discount is "a discount" for a
      positive price, yet the base price is displayed; a discount above the base
      price is displayed, yet is not "a discount". */
  lemma DisplayAndDiscountDisagree(base: int, d: int)
    ensures base > 0 ==> DiscountBelow(base, Some(0)) && DisplayPrice(base, Some(0)) == base
    ensures d > base && d != 0 ==> !DiscountBelow(base, Some(d)) && DisplayPrice(base, Some(d)) == d > base
  {
  }

  /** The displayed price only rises above the base price when no discount is flagged. */
  lemma DisplayAboveBaseMeansNoDiscount(base: int, discount: Option<int>)
    ensures DisplayPrice(base, discount) > base ==> !DiscountBelow(base, discount)
  {
  }

  // ---------------------------------------------------------------- slugs

  /** The slug after `save`: an empty slug takes the slugified title (or name);
      a non-empty slug is kept. */
  function SlugAfterSave(current: string, slugified: string): (r: string)
    ensures current != "" ==> r == current
    ensures current == "" ==> r == slugified
  {
    if current == "" then slugified else current
  }

  /** Saving again never changes a slug once it is non-empty. */
  lemma SlugSaveIdempotent(current: string, first: string, second: string)
    requires SlugAfterSave(current, first) != ""
    ensures SlugAfterSave(SlugAfterSave(current, first), second) == SlugAfterSave(current, first)
  {
  }

  /** A catalogue row's title (or name) and slug, as the nine `save` overrides of
      Location, TourCategory, Tour, Excursion, ActivityCategory, Activity,
      TransferType, VehicleType and Transfer treat them. */
  class SluggedRow {
    var title: string
    var slug: string

    constructor (title: string, slug: string)
      ensures this.title == title && this.slug == slug
    {
      this.title := title;
      this.slug := slug;
    }

    /** `save()`: `slugified` is `slugify(self.title)`, computed by the framework;
        `taken` holds the slugs of the table's other rows. The slug is filled in
        before the insert, which the unique slug column refuses (an integrity
        error, `saved` false) when another row already has it. */
    method Save(slugified: string, taken: set<string>) returns (saved: bool)
      modifies this`slug
      ensures slug == SlugAfterSave(old(slug), slugified)
      ensures old(slug) != "" ==> slug == old(slug)
      ensures saved <==> slug !in taken
    {
      if slug == "" {
        slug := slugified;
      }
      saved := slug !in taken;
    }
  }

  // ---------------------------------------------------------------- routes

  datatype TransferRoute = TransferRoute(transfer: nat, fromLocation: nat, toLocation: nat, price: int)

  predicate SameRoute(a: TransferRoute, b: TransferRoute)
  {
    a.transfer == b.transfer && a.fromLocation == b.fromLocation && a.toLocation == b.toLocation
  }

  /** `unique_together = ['transfer', 'from_location', 'to_location']` */
  predicate RoutesUnique(routes: seq<TransferRoute>)
  {
    forall i, j :: 0 <= i < j < |routes| ==> !SameRoute(routes[i], routes[j])
  }

  /** Inserting a route: refused (an integrity error) when the triple is taken. */
  function AddRoute(routes: seq<TransferRoute>, r: TransferRoute): (res: Option<seq<TransferRoute>>)
    ensures res.Some? <==> forall i :: 0 <= i < |routes| ==> !SameRoute(routes[i], r)
    ensures res.Some? ==> res.value == routes + [r]
    ensures RoutesUnique(routes) && res.Some? ==> RoutesUnique(res.value)
  {
    if exists i :: 0 <= i < |routes| && SameRoute(routes[i], r) then None else Some(routes + [r])
  }

  // ---------------------------------------------------------------- default orderings

  function Flag(b: bool): int { if b then 1 else 0 }

  /** Tour: `ordering = ['-created_at']` */
  function TourDefaultKey(t: Tour): Key { [Num(-t.createdAt)] }

  /** Excursion: `ordering = ['-is_bestseller', '-is_popular', '-is_featured', '-created_at']` */
  function ExcursionDefaultKey(e: Excursion): Key
  {
    [Num(-Flag(e.isBestseller)), Num(-Flag(e.isPopular)), Num(-Flag(e.isFeatured)), Num(-e.createdAt)]
  }

  /** Activity: `ordering = ['-is_featured', '-is_popular', 'title']` */
  function ActivityDefaultKey(a: Activity): Key
  {
    [Num(-Flag(a.isFeatured)), Num(-Flag(a.isPopular)), Text(a.title)]
  }

  /** Transfer: `ordering = ['-is_featured', '-is_popular', 'title']` */
  function TransferDefaultKey(t: Transfer): Key
  {
    [Num(-Flag(t.isFeatured)), Num(-Flag(t.isPopular)), Text(t.title)]
  }

  /** Under the excursion ordering a bestseller precedes every non-bestseller,
      whatever their other flags and dates. */
  lemma BestsellerFirst(a: Excursion, b: Excursion)
    requires a.isBestseller && !b.isBestseller
    ensures KeyLe(ExcursionDefaultKey(a), ExcursionDefaultKey(b))
    ensures !KeyLe(ExcursionDefaultKey(b), ExcursionDefaultKey(a))
  {
  }

  /** Under the transfer ordering a featured transfer precedes every non-featured one. */
  lemma FeaturedTransferFirst(a: Transfer, b: Transfer)
    requires a.isFeatured && !b.isFeatured
    ensures !KeyLe(TransferDefaultKey(b), TransferDefaultKey(a))
  {
  }
}
