/** The browser scripts: the hero slider and the wishlist, the accordion, the
    listing filter and the price-range inputs of the site script, and the
    lightbox and category filter of the gallery script. Only the list, index and
    flag state is kept; the class lists of a run of elements become a `bool`
    array, one flag per element. */
module ClientScripts {
  import opened Common

  // ---------------------------------------------------------------- index arithmetic

  /** JavaScript's `a % n` for n > 0: the remainder takes the sign of `a`. */
  function JsRem(a: int, n: int): (r: int)
    requires n > 0
    ensures a >= 0 ==> 0 <= r < n
    ensures a < 0 ==> -n < r <= 0
  {
    if a >= 0 then a % n else -((-a) % n)
  }

  /** `(i + 1) % n`, the next slide or image. */
  function WrapNext(i: int, n: int): int
    requires n > 0
  {
    JsRem(i + 1, n)
  }

  /** `(i - 1 + n) % n`, the previous slide or image. */
  function WrapPrev(i: int, n: int): int
    requires n > 0
  {
    JsRem(i - 1 + n, n)
  }

  /** From a valid index both steps land on a valid index: one further, wrapping
      from the last to the first, and one back, wrapping from the first to the last. */
  lemma WrapInRange(i: int, n: int)
    requires 0 <= i < n
    ensures 0 <= WrapNext(i, n) < n && 0 <= WrapPrev(i, n) < n
    ensures WrapNext(i, n) == if i == n - 1 then 0 else i + 1
    ensures WrapPrev(i, n) == if i == 0 then n - 1 else i - 1
  {
    if i + 1 == n {
      ModSelf(n);
    } else {
      ModSmall(i + 1, n);
    }
    if i == 0 {
      ModSmall(n - 1, n);
    } else {
      ModShift(i - 1, n);
    }
  }

  lemma ModSmall(a: int, n: int)
    requires 0 <= a < n
    ensures a % n == a
  {
  }

  lemma ModSelf(n: int)
    requires n > 0
    ensures n % n == 0
  {
  }

  lemma ModShift(a: int, n: int)
    requires 0 <= a < n
    ensures (a + n) % n == a
  {
  }

  /** Going forward and back, or back and forward, returns to the same index. */
  lemma WrapPrevNext(i: int, n: int)
    requires 0 <= i < n
    ensures WrapPrev(WrapNext(i, n), n) == i
    ensures WrapNext(WrapPrev(i, n), n) == i
  {
    WrapInRange(i, n);
    WrapInRange(WrapNext(i, n), n);
    WrapInRange(WrapPrev(i, n), n);
  }

  /** The number of raised flags. */
  function CountTrue(s: seq<bool>): nat
  {
    if s == [] then 0 else (if s[0] then 1 else 0) + CountTrue(s[1..])
  }

  /** Flags raised exactly at index k count one; flags raised nowhere count zero. */
  lemma {:induction false} CountTrueAtMostOne(s: seq<bool>, k: int)
    requires forall j :: 0 <= j < |s| ==> (s[j] ==> j == k)
    ensures CountTrue(s) <= 1
    ensures CountTrue(s) == 1 <==> 0 <= k < |s| && s[k]
  {
    if s != [] {
      CountTrueAtMostOne(s[1..], k - 1);
      if 0 < k < |s| {
        assert s[1..][k - 1] == s[k];
      }
    }
  }

  // ---------------------------------------------------------------- hero slider

  /** `HeroSlider`: one `active` flag per slide and the current slide. */
  class HeroSlider {
    const slideCount: nat
    var currentSlide: int
    const active: array<bool>

    /** Exactly the current slide carries `active`, once there are slides. */
    predicate Valid()
      reads this, active
    {
      active.Length == slideCount
      && (slideCount == 0 ==> currentSlide == 0)
      && (slideCount > 0 ==>
            0 <= currentSlide < slideCount
            && forall i :: 0 <= i < slideCount ==> (active[i] <==> i == currentSlide))
    }

    /** The constructor, with `init` when there is at least one slide: the first
        slide becomes active. */
    constructor (n: nat)
      ensures Valid() && fresh(active) && slideCount == n && currentSlide == 0
      ensures n > 0 ==> active[0]
    {
      slideCount := n;
      currentSlide := 0;
      active := new bool[n](_ => false);
      new;
      if n > 0 {
        active[0] := true;
      }
    }

    /** `goToSlide(index)` */
    method GoToSlide(index: int)
      requires Valid() && slideCount > 0 && 0 <= index < slideCount
      modifies this, active
      ensures Valid() && currentSlide == index
    {
      active[currentSlide] := false;
      currentSlide := index;
      active[currentSlide] := true;
    }

    /** `nextSlide`, the step the autoplay timer takes every five seconds. */
    method NextSlide()
      requires Valid() && slideCount > 0
      modifies this, active
      ensures Valid() && currentSlide == WrapNext(old(currentSlide), slideCount)
    {
      WrapInRange(currentSlide, slideCount);
      GoToSlide(WrapNext(currentSlide, slideCount));
    }

    /** `prevSlide` */
    method PrevSlide()
      requires Valid() && slideCount > 0
      modifies this, active
      ensures Valid() && currentSlide == WrapPrev(old(currentSlide), slideCount)
    {
      WrapInRange(currentSlide, slideCount);
      GoToSlide(WrapPrev(currentSlide, slideCount));
    }
  }

  /** One step forward and one back show the slide shown before. */
  method SlideForthAndBack(s: HeroSlider)
    requires s.Valid() && s.slideCount > 0
    modifies s, s.active
    ensures s.Valid() && s.currentSlide == old(s.currentSlide)
  {
    var start := s.currentSlide;
    s.NextSlide();
    s.PrevSlide();
    WrapPrevNext(start, s.slideCount);
  }

  // ---------------------------------------------------------------- wishlist

  /** `items.filter(id => id !== x)` */
  function RemoveAll(s: seq<string>, x: string): (r: seq<string>)
    ensures x !in r
    ensures forall y :: y != x ==> (y in r <==> y in s)
    ensures |r| <= |s|
    ensures x !in s ==> r == s
  {
    if s == [] then []
    else (if s[0] == x then [] else [s[0]]) + RemoveAll(s[1..], x)
  }

  /** Filtering a concatenation filters each part in place: the other ids keep
      their relative order. */
  lemma {:induction false} RemoveAllAppend(a: seq<string>, b: seq<string>, x: string)
    ensures RemoveAll(a + b, x) == RemoveAll(a, x) + RemoveAll(b, x)
  {
    if a != [] {
      assert (a + b)[1..] == a[1..] + b;
      RemoveAllAppend(a[1..], b, x);
    } else {
      assert a + b == b;
    }
  }

  /** The wishlist after `toggle(id)`: removed everywhere when present, else
      appended. */
  function Toggled(items: seq<string>, id: string): (r: seq<string>)
    ensures id in r <==> id !in items
    ensures forall y :: y != id ==> (y in r <==> y in items)
  {
    if id in items then RemoveAll(items, id) else items + [id]
  }

  /** Two toggles of an absent id restore the list; two toggles of a present id
      leave one copy of it, moved to the end. */
  lemma ToggleTwice(items: seq<string>, id: string)
    ensures id !in items ==> Toggled(Toggled(items, id), id) == items
    ensures id in items ==> Toggled(Toggled(items, id), id) == RemoveAll(items, id) + [id]
  {
    if id !in items {
      RemoveAllAppend(items, [id], id);
      assert RemoveAll([id], id) == [];
    }
  }

  /** `Wishlist`: the ids kept in local storage. */
  class Wishlist {
    var items: seq<string>

    /** The constructor's `load`: the stored list, or an empty one when nothing
        is stored. */
    constructor (saved: Option<seq<string>>)
      ensures items == if saved.Some? then saved.value else []
    {
      items := if saved.Some? then saved.value else [];
    }

    /** `init`: a button starts active exactly when its id is in the list. */
    method InitButtons(ids: seq<string>) returns (active: array<bool>)
      ensures active.Length == |ids|
      ensures forall i :: 0 <= i < |ids| ==> (active[i] <==> ids[i] in items)
    {
      active := new bool[|ids|];
      var i := 0;
      while i < |ids|
        invariant 0 <= i <= |ids|
        invariant forall j :: 0 <= j < i ==> (active[j] <==> ids[j] in items)
      {
        active[i] := ids[i] in items;
        i := i + 1;
      }
    }

    /** `add` */
    method Add(id: string)
      modifies this
      ensures items == old(items) + [id]
    {
      items := items + [id];
    }

    /** `remove` */
    method Remove(id: string)
      modifies this
      ensures items == RemoveAll(old(items), id)
    {
      items := RemoveAll(items, id);
    }

    /** `toggle`: the button is left active exactly when the id is now listed. */
    method Toggle(id: string) returns (buttonActive: bool)
      modifies this
      ensures items == Toggled(old(items), id)
      ensures buttonActive <==> id in items
    {
      if id in items {
        Remove(id);
        buttonActive := false;
      } else {
        Add(id);
        buttonActive := true;
      }
    }
  }

  // ---------------------------------------------------------------- accordion

  /** The flags after a click on item k: every item closed, then k opened unless
      it was open. */
  function AccordionAfter(flags: seq<bool>, k: nat): (r: seq<bool>)
    requires k < |flags|
    ensures |r| == |flags|
    ensures forall j :: 0 <= j < |r| ==> (r[j] <==> j == k && !flags[k])
  {
    seq(|flags|, j requires 0 <= j < |flags| => j == k && !flags[k])
  }

  /** After any click at most one item is open; a click on the open item leaves
      none open; a click on a closed item leaves exactly that one open. */
  lemma AccordionAtMostOne(flags: seq<bool>, k: nat)
    requires k < |flags|
    ensures CountTrue(AccordionAfter(flags, k)) <= 1
    ensures flags[k] ==> CountTrue(AccordionAfter(flags, k)) == 0
    ensures !flags[k] ==> CountTrue(AccordionAfter(flags, k)) == 1
  {
    CountTrueAtMostOne(AccordionAfter(flags, k), k);
  }

  /** Two clicks on an item that was closed close everything. */
  lemma AccordionClickTwice(flags: seq<bool>, k: nat)
    requires k < |flags| && !flags[k]
    ensures forall j :: 0 <= j < |flags| ==> !AccordionAfter(AccordionAfter(flags, k), k)[j]
  {
  }

  /** The click handler of an accordion header whose item is `k`. */
  method AccordionClick(items: array<bool>, k: nat)
    requires k < items.Length
    modifies items
    ensures items[..] == AccordionAfter(old(items[..]), k)
  {
    var isActive := items[k];
    var j := 0;
    while j < items.Length
      invariant 0 <= j <= items.Length
      invariant forall i :: 0 <= i < j ==> !items[i]
      invariant forall i :: j <= i < items.Length ==> items[i] == old(items[i])
    {
      items[j] := false;
      j := j + 1;
    }
    if !isActive {
      items[k] := true;
    }
  }

  // ---------------------------------------------------------------- listing filter

  /** A tour card's data attributes; the category attribute may be absent. */
  datatype Card = Card(price: int, rating: int, category: Option<string>)

  /** `applyFilters`: with categories selected, a card stays visible only when
      its category is one of them. */
  predicate CardVisible(selected: seq<string>, c: Card)
  {
    !(|selected| > 0 && !(c.category.Some? && c.category.value in selected))
  }

  /** Price and rating never affect visibility; with nothing selected every card
      shows. */
  lemma VisibilityIgnoresPriceAndRating(selected: seq<string>, c: Card, price: int, rating: int)
    ensures CardVisible(selected, c) <==> CardVisible(selected, c.(price := price, rating := rating))
    ensures selected == [] ==> CardVisible(selected, c)
    ensures CardVisible(selected, c) <==> selected == [] || (c.category.Some? && c.category.value in selected)
  {
  }

  /** Selecting a further category never hides a card shown under a non-empty
      selection. */
  lemma SelectingMoreShowsMore(selected: seq<string>, more: string, c: Card)
    requires selected != [] && CardVisible(selected, c)
    ensures CardVisible(selected + [more], c)
  {
  }

  /** `FilterSystem`: the selected categories and one display flag per card. */
  class FilterSystem {
    var category: seq<string>

    constructor ()
      ensures category == []
    {
      category := [];
    }

    /** `updateFilters`: the values of the checked category boxes. */
    method UpdateFilters(checked: seq<string>)
      modifies this
      ensures category == checked
    {
      category := checked;
    }

    /** `applyFilters` */
    method ApplyFilters(cards: seq<Card>, display: array<bool>)
      requires display.Length == |cards|
      modifies display
      ensures forall i :: 0 <= i < |cards| ==>
        (display[i] <==> category == [] || (cards[i].category.Some? && cards[i].category.value in category))
    {
      var i := 0;
      while i < |cards|
        invariant 0 <= i <= |cards|
        invariant forall j :: 0 <= j < i ==> (display[j] <==> CardVisible(category, cards[j]))
      {
        var visible := true;
        if |category| > 0 && !(cards[i].category.Some? && cards[i].category.value in category) {
          visible := false;
        }
        display[i] := visible;
        i := i + 1;
      }
    }
  }

  // ---------------------------------------------------------------- price range

  /** The other bound after a minimum input of v: raised to v when below it. */
  function RaiseTo(bound: int, v: int): (r: int)
    ensures r >= v && (r == bound || r == v)
    ensures bound >= v ==> r == bound
  {
    if bound < v then v else bound
  }

  /** The other bound after a maximum input of v: lowered to v when above it. */
  function LowerTo(bound: int, v: int): (r: int)
    ensures r <= v && (r == bound || r == v)
    ensures bound <= v ==> r == bound
  {
    if bound > v then v else bound
  }

  /** The two range inputs and the labels that echo them. */
  class PriceRange {
    var minValue: int
    var maxValue: int
    var minDisplay: int
    var maxDisplay: int

    constructor (lo: int, hi: int)
      ensures minValue == lo && maxValue == hi && minDisplay == lo && maxDisplay == hi
    {
      minValue, maxValue, minDisplay, maxDisplay := lo, hi, lo, hi;
    }

    /** The `input` handler of the minimum slider, now showing v. */
    method MinInput(v: int)
      modifies this
      ensures minValue == v && minDisplay == v && maxValue >= minValue
      ensures maxValue == RaiseTo(old(maxValue), v)
      ensures maxDisplay == if old(maxValue) < v then v else old(maxDisplay)
    {
      minValue := v;
      minDisplay := v;
      if maxValue < v {
        maxValue := v;
        maxDisplay := v;
      }
    }

    /** The `input` handler of the maximum slider, now showing v. */
    method MaxInput(v: int)
      modifies this
      ensures maxValue == v && maxDisplay == v && minValue <= maxValue
      ensures minValue == LowerTo(old(minValue), v)
      ensures minDisplay == if old(minValue) > v then v else old(minDisplay)
    {
      maxValue := v;
      maxDisplay := v;
      if minValue > v {
        minValue := v;
        minDisplay := v;
      }
    }
  }

  // ---------------------------------------------------------------- gallery lightbox

  /** A `.gallery-item`: its image and the optional title and caption elements. */
  datatype GalleryItem = GalleryItem(src: string, alt: string, title: Option<string>, description: Option<string>)

  /** An entry of `images`. */
  datatype LightboxImage = LightboxImage(src: string, alt: string, title: string, description: string)

  /** `el?.textContent || ''` */
  function TextOrEmpty(t: Option<string>): (r: string)
    ensures t.None? ==> r == ""
    ensures t.Some? ==> r == t.value
  {
    if t.Some? then t.value else ""
  }

  /** The entry `init` pushes for one item. */
  function EntryFor(item: GalleryItem): LightboxImage
  {
    LightboxImage(item.src, item.alt, TextOrEmpty(item.title), TextOrEmpty(item.description))
  }

  /** `GalleryLightbox`: the collected images, the shown index and whether the
      modal is open. */
  class GalleryLightbox {
    var images: seq<LightboxImage>
    var currentIndex: int
    var isOpen: bool

    /** The state every handler keeps: the index is 0 while there are no images
        and names an image otherwise, and an open modal shows an image. */
    predicate Valid()
      reads this
    {
      (|images| == 0 ==> currentIndex == 0)
      && (|images| > 0 ==> 0 <= currentIndex < |images|)
      && (isOpen ==> ShowsValidImage())
    }

    predicate ShowsValidImage()
      reads this
    {
      0 <= currentIndex < |images|
    }

    /** The constructor with `init`: one entry per gallery item, in document order. */
    constructor (items: seq<GalleryItem>)
      ensures |images| == |items|
      ensures forall i :: 0 <= i < |items| ==> images[i] == EntryFor(items[i])
      ensures currentIndex == 0 && !isOpen
      ensures Valid()
    {
      images := [];
      currentIndex := 0;
      isOpen := false;
      new;
      Init(items);
    }

    /** `init`: the collecting loop. */
    method Init(items: seq<GalleryItem>)
      requires Valid()
      modifies this`images
      ensures Valid()
      ensures |images| == |old(images)| + |items|
      ensures images[..|old(images)|] == old(images)
      ensures forall i :: 0 <= i < |items| ==> images[|old(images)| + i] == EntryFor(items[i])
    {
      var k := 0;
      ghost var start := images;
      while k < |items|
        invariant 0 <= k <= |items|
        invariant |images| == |start| + k && images[..|start|] == start
        invariant forall i :: 0 <= i < k ==> images[|start| + i] == EntryFor(items[i])
      {
        images := images + [EntryFor(items[k])];
        k := k + 1;
      }
    }

    /** `openLightbox(index)`, reached by a click on item `index`. */
    method OpenLightbox(index: int)
      requires Valid() && 0 <= index < |images|
      modifies this`currentIndex, this`isOpen
      ensures currentIndex == index && isOpen && ShowsValidImage() && Valid()
    {
      currentIndex := index;
      isOpen := true;
    }

    /** `closeLightbox` */
    method CloseLightbox()
      requires Valid()
      modifies this`isOpen
      ensures !isOpen && currentIndex == old(currentIndex) && Valid()
    {
      isOpen := false;
    }

    /** `nextImage`, reachable once an image has been opened. */
    method NextImage()
      requires Valid() && ShowsValidImage()
      modifies this`currentIndex
      ensures currentIndex == WrapNext(old(currentIndex), |images|) && ShowsValidImage() && Valid()
    {
      WrapInRange(currentIndex, |images|);
      currentIndex := WrapNext(currentIndex, |images|);
    }

    /** `prevImage`, reachable once an image has been opened. */
    method PrevImage()
      requires Valid() && ShowsValidImage()
      modifies this`currentIndex
      ensures currentIndex == WrapPrev(old(currentIndex), |images|) && ShowsValidImage() && Valid()
    {
      WrapInRange(currentIndex, |images|);
      currentIndex := WrapPrev(currentIndex, |images|);
    }
  }

  // ---------------------------------------------------------------- gallery filter

  /** `filterImages`: an item ends up shown exactly when the filter is `all` or
      names its category. */
  predicate ItemShown(filter: string, category: Option<string>)
  {
    filter == "all" || category == Some(filter)
  }

  /** The `all` button shows every item; any other filter shows exactly the
      items of that category, and hides the items without one. */
  lemma FilterShowsCategory(filter: string, category: Option<string>)
    ensures filter == "all" ==> ItemShown(filter, category)
    ensures filter != "all" ==> (ItemShown(filter, category) <==> category.Some? && category.value == filter)
    ensures category.None? && filter != "all" ==> !ItemShown(filter, category)
  {
  }

  /** `GalleryFilter`: the items' categories, their display flags and the
      buttons' active flags. */
  class GalleryFilter {
    const categories: seq<Option<string>>
    const shown: array<bool>
    const buttonActive: array<bool>

    predicate Valid()
      reads this
    {
      shown.Length == |categories| && shown != buttonActive
    }

    constructor (categories: seq<Option<string>>, buttons: nat)
      ensures Valid() && this.categories == categories && buttonActive.Length == buttons
      ensures fresh(shown) && fresh(buttonActive)
    {
      this.categories := categories;
      shown := new bool[|categories|](_ => true);
      buttonActive := new bool[buttons](_ => false);
    }

    /** `filterImages(filter)`, once its timers have fired. */
    method FilterImages(filter: string)
      requires Valid()
      modifies shown
      ensures forall i :: 0 <= i < |categories| ==> (shown[i] <==> ItemShown(filter, categories[i]))
    {
      var i := 0;
      while i < shown.Length
        invariant 0 <= i <= shown.Length
        invariant forall j :: 0 <= j < i ==> (shown[j] <==> ItemShown(filter, categories[j]))
      {
        shown[i] := filter == "all" || categories[i] == Some(filter);
        i := i + 1;
      }
    }

    /** `updateActiveButton(btn)`: every button loses `active`, then button k gets it. */
    method UpdateActiveButton(k: nat)
      requires Valid() && k < buttonActive.Length
      modifies buttonActive
      ensures forall j :: 0 <= j < buttonActive.Length ==> (buttonActive[j] <==> j == k)
      ensures CountTrue(buttonActive[..]) == 1
    {
      var j := 0;
      while j < buttonActive.Length
        invariant 0 <= j <= buttonActive.Length
        invariant forall i :: 0 <= i < j ==> !buttonActive[i]
      {
        buttonActive[j] := false;
        j := j + 1;
      }
      buttonActive[k] := true;
      CountTrueAtMostOne(buttonActive[..], k);
    }
  }
}
