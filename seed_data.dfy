/** The test-data command: the table precheck that guards it, the unique-slug
    loop used for tours, excursions, activities, transfers and blog posts, the
    fixed locations, and the seeded reviews, bookings and payments. Faker text,
    `random` draws and `uuid4` identifiers enter as inputs. */
module SeedData {
  import opened Common
  import opened Catalogue
  import opened Ratings
  import opened Bookings

  // ---------------------------------------------------------------- the precheck

  const RequiredTables: seq<string> := ["core_pagehero", "tours_location", "tours_tour"]

  /** `[t for t in required_tables if t not in tables]` */
  function MissingTables(tables: set<string>): (r: seq<string>)
    ensures forall t :: t in r <==> t in RequiredTables && t !in tables
  {
    Filter(RequiredTables, (t: string) => t !in tables)
  }

  /** The steps `handle` runs, in order. */
  datatype Step =
    | ClearData | CreateSiteSettings | CreateLocations | CreateTourCategories | CreateActivityCategories
    | CreateTransferTypes | CreateVehicleTypes | CreateGalleryCategories | CreateBlogCategories
    | CreateHeroSlides | CreatePageHeroes | CreateTours | CreateExcursions | CreateActivities
    | CreateTransfers | CreateGalleryImages | CreateUser | CreateBlogPosts | CreateReviews
    | CreateBookings | CreateContactMessages | CreateNewsletterSubscribers

  /** `handle`: nothing at all runs, not even the clearing, when a required table
      is missing; otherwise the optional clearing and then every creation step. */
  function HandleSteps(tables: set<string>, clear: bool): (r: seq<Step>)
    ensures MissingTables(tables) != [] ==> r == []
    ensures MissingTables(tables) == [] ==> |r| >= 21 && (ClearData in r <==> clear)
    ensures MissingTables(tables) == [] ==> r[|r| - 3] == CreateBookings && r[|r| - 4] == CreateReviews
  {
    if MissingTables(tables) != [] then []
    else
      (if clear then [ClearData] else [])
      + [CreateSiteSettings, CreateLocations, CreateTourCategories, CreateActivityCategories,
         CreateTransferTypes, CreateVehicleTypes, CreateGalleryCategories, CreateBlogCategories,
         CreateHeroSlides, CreatePageHeroes, CreateTours, CreateExcursions, CreateActivities,
         CreateTransfers, CreateGalleryImages, CreateUser, CreateBlogPosts, CreateReviews,
         CreateBookings, CreateContactMessages, CreateNewsletterSubscribers]
  }

  /** With every required table present the command runs; with any missing it writes nothing. */
  lemma PrecheckDecides(tables: set<string>, clear: bool)
    ensures HandleSteps(tables, clear) == [] <==> exists t :: t in RequiredTables && t !in tables
  {
    if exists t :: t in RequiredTables && t !in tables {
      var t :| t in RequiredTables && t !in tables;
      assert t in MissingTables(tables);
    }
  }

  // ---------------------------------------------------------------- unique slugs

  function Digit(d: nat): char
    requires d < 10
  {
    ('0' as int + d) as char
  }

  /** `str(n)` for a natural number. */
  function NatToString(n: nat): (r: string)
    ensures r != [] && AllDigits(r) && DigitsValue(r) == n
  {
    if n < 10 then [Digit(n)]
    else
      var r := NatToString(n / 10) + [Digit(n % 10)];
      assert r[..|r| - 1] == NatToString(n / 10);
      r
  }

  /** `f"{base_slug}-{counter}"` */
  function Candidate(base: string, k: nat): (r: string)
    ensures |r| > |base| && r[..|base|] == base
  {
    base + "-" + NatToString(k)
  }

  /** Different counters give different candidates. */
  lemma CandidateInjective(base: string, a: nat, b: nat)
    requires Candidate(base, a) == Candidate(base, b)
    ensures a == b
  {
    var ca, cb := Candidate(base, a), Candidate(base, b);
    assert NatToString(a) == ca[|base| + 1..];
    assert NatToString(b) == cb[|base| + 1..];
  }

  /** The candidates tried with counters 1 to c - 1. */
  function CandidatesBelow(base: string, c: nat): set<string>
  {
    if c <= 1 then {} else CandidatesBelow(base, c - 1) + {Candidate(base, c - 1)}
  }

  lemma {:induction false} CandidatesBelowMembers(base: string, c: nat)
    ensures forall x :: x in CandidatesBelow(base, c) ==> exists j :: 1 <= j < c && x == Candidate(base, j)
  {
    if c > 1 {
      CandidatesBelowMembers(base, c - 1);
    }
  }

  /** The candidates are pairwise different, so c - 1 counters give c - 1 slugs. */
  lemma {:induction false} CandidatesBelowSize(base: string, c: nat)
    ensures |CandidatesBelow(base, c)| == if c == 0 then 0 else c - 1
  {
    if c > 1 {
      CandidatesBelowSize(base, c - 1);
      CandidatesBelowMembers(base, c - 1);
      assert Candidate(base, c - 1) !in CandidatesBelow(base, c - 1) by {
        if Candidate(base, c - 1) in CandidatesBelow(base, c - 1) {
          var j :| 1 <= j < c - 1 && Candidate(base, c - 1) == Candidate(base, j);
          CandidateInjective(base, c - 1, j);
        }
      }
    }
  }

  /** A set holding all of another has at least as many members. */
  lemma SubsetSize(a: set<string>, b: set<string>)
    requires a <= b
    ensures |a| <= |b|
  {
    assert b == a + (b - a);
  }

  /** When the base slug and its first c - 1 candidates are all taken, at least c
      slugs are taken: the loop cannot run past the number of taken slugs. */
  lemma TriedAllTaken(base: string, taken: set<string>, c: nat)
    requires c >= 1 && base in taken
    requires forall j :: 1 <= j < c ==> Candidate(base, j) in taken
    ensures c <= |taken|
  {
    var tried := CandidatesBelow(base, c);
    CandidatesBelowMembers(base, c);
    CandidatesBelowSize(base, c);
    assert forall x :: x in tried ==> |x| > |base|;
    SubsetSize(tried + {base}, taken);
  }

  /** The slug loop: `base` when it is free, else `base-k` for the smallest k >= 1
      whose candidate is free. */
  method UniqueSlug(base: string, taken: set<string>) returns (slug: string)
    ensures slug !in taken
    ensures base !in taken ==> slug == base
    ensures base in taken ==> exists k :: k >= 1 && slug == Candidate(base, k)
                                      && forall j :: 1 <= j < k ==> Candidate(base, j) in taken
  {
    slug := base;
    var counter: nat := 1;
    while slug in taken
      invariant counter >= 1
      invariant slug == if counter == 1 then base else Candidate(base, counter - 1)
      invariant counter > 1 ==> base in taken
      invariant forall j :: 1 <= j < counter - 1 ==> Candidate(base, j) in taken
      decreases |taken| + 1 - counter
    {
      TriedAllTaken(base, taken, counter);
      slug := Candidate(base, counter);
      counter := counter + 1;
    }
    if base in taken {
      assert counter > 1;
    }
  }

  // ---------------------------------------------------------------- locations

  datatype LocationRow = LocationRow(name: string, nameEn: string, slug: string, order: nat, isActive: bool)

  const LocationsData: seq<(string, string)> := [
    ("Hurghada", "Hurghada"), ("Luxor", "Luxor"), ("Kairo", "Cairo"), ("Sharm El Sheikh", "Sharm El Sheikh"),
    ("Marsa Alam", "Marsa Alam"), ("Aswan", "Aswan"), ("Alexandria", "Alexandria"), ("Dahab", "Dahab")]

  /** `s.replace(' ', '-')` */
  function Hyphenate(s: string): (r: string)
    ensures |r| == |s|
    ensures forall i :: 0 <= i < |s| ==> r[i] == (if s[i] == ' ' then '-' else s[i])
  {
    if s == [] then [] else [if s[0] == ' ' then '-' else s[0]] + Hyphenate(s[1..])
  }

  /** The end of the slice `xs[:count]` over `n` items, negative counts counting from the end. */
  function SliceEnd(n: nat, count: int): (r: nat)
    ensures r <= n
    ensures count >= 0 ==> r == if count < n then count else n
    ensures count < 0 ==> r == if n + count > 0 then n + count else 0
  {
    if count >= 0 then (if count < n then count else n)
    else if n + count > 0 then n + count else 0
  }

  /** `name_de.lower().replace(' ', '-')` */
  function LocationSlug(name: string): string
  {
    Hyphenate(Lower(name))
  }

  /** The row created for entry `i` of a (German name, English name) list. */
  function LocationFor(data: seq<(string, string)>, i: nat): LocationRow
    requires i < |data|
  {
    LocationRow(data[i].0, data[i].1, LocationSlug(data[i].0), i, true)
  }

  /** The table after `get_or_create` by slug on the first `k` entries of `data`:
      an existing slug keeps its row, a new one gets the entry's names, order and
      the active flag. */
  function LocationsAfter(rows: map<string, LocationRow>, data: seq<(string, string)>, k: nat)
    : map<string, LocationRow>
    requires k <= |data|
  {
    if k == 0 then rows
    else
      var m := LocationsAfter(rows, data, k - 1);
      var slug := LocationSlug(data[k - 1].0);
      if slug in m then m else m[slug := LocationFor(data, k - 1)]
  }

  /** Rows already present are untouched, every slug of the slice is present
      afterwards, and each added row is an active entry of the slice under its slug. */
  lemma {:induction false} LocationsAfterProps(rows: map<string, LocationRow>, data: seq<(string, string)>, k: nat)
    requires k <= |data|
    ensures forall s :: s in rows ==> s in LocationsAfter(rows, data, k) && LocationsAfter(rows, data, k)[s] == rows[s]
    ensures forall i :: 0 <= i < k ==> LocationSlug(data[i].0) in LocationsAfter(rows, data, k)
    ensures forall s :: s in LocationsAfter(rows, data, k) && s !in rows ==>
      exists i :: 0 <= i < k && s == LocationSlug(data[i].0) && LocationsAfter(rows, data, k)[s] == LocationFor(data, i)
  {
    if k > 0 {
      LocationsAfterProps(rows, data, k - 1);
    }
  }

  /** Once every slug of the slice is present, running the command again changes nothing. */
  lemma {:induction false} LocationsRerunNoOp(rows: map<string, LocationRow>, data: seq<(string, string)>, k: nat)
    requires k <= |data|
    requires forall i :: 0 <= i < k ==> LocationSlug(data[i].0) in rows
    ensures LocationsAfter(rows, data, k) == rows
  {
    if k > 0 {
      LocationsRerunNoOp(rows, data, k - 1);
    }
  }

  /** `get_or_create` makes the location step repeatable. */
  lemma LocationsIdempotent(rows: map<string, LocationRow>, data: seq<(string, string)>, k: nat)
    requires k <= |data|
    ensures LocationsAfter(LocationsAfter(rows, data, k), data, k) == LocationsAfter(rows, data, k)
  {
    LocationsAfterProps(rows, data, k);
    LocationsRerunNoOp(LocationsAfter(rows, data, k), data, k);
  }

  /** The location table, keyed by slug. */
  class LocationTable {
    var rows: map<string, LocationRow>

    constructor ()
      ensures rows == map[]
    {
      rows := map[];
    }

    /** `create_locations(count)` over `locations_data[:count]`. */
    method CreateLocations(count: int)
      modifies this
      ensures rows == LocationsAfter(old(rows), LocationsData, SliceEnd(|LocationsData|, count))
    {
      var data := LocationsData;
      var end := SliceEnd(|data|, count);
      var i := 0;
      while i < end
        invariant 0 <= i <= end
        invariant rows == LocationsAfter(old(rows), data, i)
      {
        var slug := LocationSlug(data[i].0);
        if slug !in rows {
          rows := rows[slug := LocationFor(data, i)];
        }
        i := i + 1;
      }
    }
  }

  // ---------------------------------------------------------------- reviews

  /** The random draws for one review: the reviewed item, the rating
      (`randint(3, 5)`), approval, and the Faker texts. */
  datatype ReviewDraw = ReviewDraw(item: nat, rating: int, approved: bool, name: string, email: string,
                                   title: string, comment: string)

  predicate ReviewDrawsValid(items: seq<Target>, draws: seq<ReviewDraw>)
  {
    forall i :: 0 <= i < |draws| ==> draws[i].item < |items| && 3 <= draws[i].rating <= 5
  }

  /** `create_reviews`: one review per draw on the drawn item, none when there is
      no item at all. */
  function SeedReviews(items: seq<Target>, draws: seq<ReviewDraw>, firstId: nat, now: int): (r: seq<Review>)
    requires ReviewDrawsValid(items, draws)
    ensures |r| == if items == [] then 0 else |draws|
    ensures forall i :: 0 <= i < |r| ==> 3 <= r[i].rating <= 5 && r[i].target in items
  {
    if items == [] || draws == [] then []
    else
      var d := draws[0];
      [Review(firstId, items[d.item], d.name, d.email, d.rating, d.title, d.comment, d.approved, now)]
      + SeedReviews(items, draws[1..], firstId + 1, now)
  }

  /** The seeded ratings pass the review validators, and the reviews rated 3 never
      reach a tour's or activity's public average. */
  lemma SeededReviewsValid(items: seq<Target>, draws: seq<ReviewDraw>, firstId: nat, now: int)
    requires ReviewDrawsValid(items, draws)
    ensures RatingsValid(SeedReviews(items, draws, firstId, now))
    ensures forall x :: x in SeedReviews(items, draws, firstId, now) && x.rating == 3 ==> !IsPublic(x)
  {
  }

  // ---------------------------------------------------------------- bookings

  const Day := 86400

  /** The random draws for one booking: the tour, participants (`randint(1, 8)`),
      status, the two `uuid4` hex strings, the payment's age in days, and the
      Faker fields. */
  datatype BookingDraw = BookingDraw(
    tour: nat, participants: int, status: Status, codeHex: string, intentHex: string, paidDaysAgo: int,
    name: string, email: string, phone: string, date: int, requests: string)

  predicate BookingDrawsValid(tours: seq<Tour>, draws: seq<BookingDraw>)
  {
    forall i :: 0 <= i < |draws| ==>
      draws[i].tour < |tours| && 1 <= draws[i].participants <= 8 && IsUuidHex(draws[i].codeHex)
      && IsUuidHex(draws[i].intentHex) && 1 <= draws[i].paidDaysAgo <= 30
  }

  /** The row `Booking.objects.create` writes for one draw on tour `t`. */
  function SeedRecord(t: Tour, d: BookingDraw, now: int): (r: BookingRecord)
    requires IsUuidHex(d.codeHex)
  {
    BookingRecord(d.name, d.email, d.phone, d.date, d.participants, d.requests, TourItem(t),
                  t.price * d.participants, d.status, ConfirmationCode(d.codeHex), None, now)
  }

  predicate Paid(s: Status) { s == Confirmed || s == Completed }

  /** The payment created for a confirmed or completed seeded booking. */
  function SeedPayment(rec: BookingRecord, d: BookingDraw, now: int): (p: Payment)
    requires IsUuidHex(d.intentHex)
  {
    Payment(rec.confirmationCode, "pi_" + d.intentHex[..24], "", rec.totalPrice, "EUR", Succeeded,
            Some(now - d.paidDaysAgo * Day))
  }

  /** The payments written alongside one seeded booking: one when it is paid. */
  function PaymentsFor(rec: BookingRecord, d: BookingDraw, now: int): seq<Payment>
    requires IsUuidHex(d.intentHex)
  {
    if Paid(d.status) then [SeedPayment(rec, d, now)] else []
  }

  /** The booking rows the first `k` draws write: none when there is no tour. */
  function SeedRecords(tours: seq<Tour>, draws: seq<BookingDraw>, k: nat, now: int): (r: seq<BookingRecord>)
    requires BookingDrawsValid(tours, draws) && k <= |draws|
    ensures |r| == if tours == [] then 0 else k
  {
    if tours == [] || k == 0 then []
    else SeedRecords(tours, draws, k - 1, now) + [SeedRecord(tours[draws[k - 1].tour], draws[k - 1], now)]
  }

  /** The payments the first `k` draws write. */
  function SeedPayments(tours: seq<Tour>, draws: seq<BookingDraw>, k: nat, now: int): seq<Payment>
    requires BookingDrawsValid(tours, draws) && k <= |draws|
  {
    if tours == [] || k == 0 then []
    else
      SeedPayments(tours, draws, k - 1, now)
      + PaymentsFor(SeedRecord(tours[draws[k - 1].tour], draws[k - 1], now), draws[k - 1], now)
  }

  /** Every seeded booking has 1 to 8 participants and costs the tour's price times
      their number. */
  lemma {:induction false} SeededBookingsPriced(tours: seq<Tour>, draws: seq<BookingDraw>, k: nat, now: int)
    requires BookingDrawsValid(tours, draws) && k <= |draws|
    ensures forall r :: r in SeedRecords(tours, draws, k, now) ==>
      1 <= r.participants <= 8 && r.item.TourItem? && r.item.tour in tours
      && r.totalPrice == r.item.tour.price * r.participants
  {
    if tours != [] && k != 0 {
      SeededBookingsPriced(tours, draws, k - 1, now);
    }
  }

  /** One payment per confirmed or completed seeded booking. */
  lemma {:induction false} SeededPaymentsCount(tours: seq<Tour>, draws: seq<BookingDraw>, k: nat, now: int)
    requires BookingDrawsValid(tours, draws) && k <= |draws|
    ensures |SeedPayments(tours, draws, k, now)|
            == Count(SeedRecords(tours, draws, k, now), (r: BookingRecord) => Paid(r.status))
  {
    if tours != [] && k != 0 {
      SeededPaymentsCount(tours, draws, k - 1, now);
      var d := draws[k - 1];
      var rec := SeedRecord(tours[d.tour], d, now);
      var before := SeedRecords(tours, draws, k - 1, now);
      assert SeedRecords(tours, draws, k, now) == before + [rec];
      assert SeedPayments(tours, draws, k, now) == SeedPayments(tours, draws, k - 1, now) + PaymentsFor(rec, d, now);
      assert |PaymentsFor(rec, d, now)| == if Paid(rec.status) then 1 else 0;
      CountSnoc(before, rec, (r: BookingRecord) => Paid(r.status));
    }
  }

  /** The payment is for the total of one of the paid bookings. */
  predicate PaysFor(p: Payment, recs: seq<BookingRecord>)
  {
    exists r :: r in recs && Paid(r.status) && p.booking == r.confirmationCode && p.amount == r.totalPrice
  }

  /** Every seeded payment succeeded, for the total of a paid seeded booking. */
  lemma {:induction false} SeededPaymentsMatch(tours: seq<Tour>, draws: seq<BookingDraw>, k: nat, now: int)
    requires BookingDrawsValid(tours, draws) && k <= |draws|
    ensures forall p :: p in SeedPayments(tours, draws, k, now) ==>
      p.status == Succeeded && PaysFor(p, SeedRecords(tours, draws, k, now))
  {
    if tours != [] && k != 0 {
      SeededPaymentsMatch(tours, draws, k - 1, now);
      var d := draws[k - 1];
      var rec := SeedRecord(tours[d.tour], d, now);
      var before := SeedRecords(tours, draws, k - 1, now);
      var after := SeedRecords(tours, draws, k, now);
      assert after == before + [rec];
      assert SeedPayments(tours, draws, k, now) == SeedPayments(tours, draws, k - 1, now) + PaymentsFor(rec, d, now);
      forall p | p in SeedPayments(tours, draws, k, now)
        ensures p.status == Succeeded && PaysFor(p, after)
      {
        if p in SeedPayments(tours, draws, k - 1, now) {
          var r :| r in before && Paid(r.status) && p.booking == r.confirmationCode && p.amount == r.totalPrice;
          assert r in after;
        } else {
          assert rec in after;
        }
      }
    }
  }

  lemma {:induction false} CountSnoc<T(!new)>(s: seq<T>, x: T, p: T -> bool)
    ensures Count(s + [x], p) == Count(s, p) + (if p(x) then 1 else 0)
  {
    if s == [] {
      assert [x][1..] == [];
    } else {
      assert (s + [x])[1..] == s[1..] + [x];
      CountSnoc(s[1..], x, p);
    }
  }

  /** `Booking.objects.create` for one draw on tour `t`: the save assigns the
      code; a taken code raises and writes nothing. */
  method SaveSeedBooking(store: BookingStore, t: Tour, d: BookingDraw, now: int) returns (saved: bool)
    requires store.Valid() && IsUuidHex(d.codeHex)
    modifies store
    ensures store.Valid()
    ensures saved ==> store.rows == old(store.rows) + [SeedRecord(t, d, now)]
    ensures !saved ==> store.rows == old(store.rows)
  {
    var b := new Booking(now);
    b.SetColumns(d.name, d.email, d.phone, d.date, d.participants, d.requests,
                 TourItem(t), t.price * d.participants, d.status);
    var outcome := store.Save(b, d.codeHex);
    saved := outcome == Saved;
  }

  /** One more draw appends its record to the rows written and its payments to
      the payments written, after whatever came before. */
  lemma SeedStep(rows0: seq<BookingRecord>, payments0: seq<Payment>, tours: seq<Tour>,
                 draws: seq<BookingDraw>, k: nat, now: int)
    requires BookingDrawsValid(tours, draws) && tours != [] && k < |draws|
    ensures rows0 + SeedRecords(tours, draws, k + 1, now)
            == rows0 + SeedRecords(tours, draws, k, now) + [SeedRecord(tours[draws[k].tour], draws[k], now)]
    ensures payments0 + SeedPayments(tours, draws, k + 1, now)
            == payments0 + SeedPayments(tours, draws, k, now)
               + PaymentsFor(SeedRecord(tours[draws[k].tour], draws[k], now), draws[k], now)
  {
    var rec := SeedRecord(tours[draws[k].tour], draws[k], now);
    var rs := SeedRecords(tours, draws, k, now);
    var ps := SeedPayments(tours, draws, k, now);
    var more := PaymentsFor(rec, draws[k], now);
    assert SeedRecords(tours, draws, k + 1, now) == rs + [rec];
    assert SeedPayments(tours, draws, k + 1, now) == ps + more;
    assert rows0 + (rs + [rec]) == rows0 + rs + [rec];
    assert payments0 + (ps + more) == payments0 + ps + more;
  }

  /** One iteration of `create_bookings`, for draw `k`: create the booking on the
      drawn tour and, when it is confirmed or completed, its succeeded payment. A
      taken code raises before anything is written; a taken intent id raises
      after the booking row is written, which stays (no transaction). Either
      way `ok` is false and no payment is added. */
  method CreateSeedBooking(store: BookingStore, payments: seq<Payment>, tours: seq<Tour>,
                           draws: seq<BookingDraw>, k: nat, now: int)
    returns (ok: bool, newPayments: seq<Payment>)
    requires store.Valid() && PaymentsValid(payments) && BookingDrawsValid(tours, draws)
    requires tours != [] && k < |draws|
    modifies store
    ensures store.Valid() && PaymentsValid(newPayments)
    ensures ok ==> store.rows == old(store.rows) + [SeedRecord(tours[draws[k].tour], draws[k], now)]
    ensures ok ==> newPayments == payments + PaymentsFor(SeedRecord(tours[draws[k].tour], draws[k], now), draws[k], now)
    ensures !ok ==> newPayments == payments
    ensures !ok ==> store.rows == old(store.rows)
                    || (Paid(draws[k].status) && store.rows == old(store.rows) + [SeedRecord(tours[draws[k].tour], draws[k], now)])
  {
    var d := draws[k];
    var t := tours[d.tour];
    newPayments := payments;
    var saved := SaveSeedBooking(store, t, d, now);
    if !saved {
      return false, payments;
    }
    if Paid(d.status) {
      var added := AddPayment(payments, SeedPayment(SeedRecord(t, d, now), d, now));
      if added.None? {
        return false, payments;
      }
      newPayments := added.value;
    }
    ok := true;
  }

  /** `create_bookings`: nothing when there is no tour; otherwise one booking per
      draw, on the drawn tour, with its payment when paid. An integrity error stops
      the command (`ok` false) with the rows written so far kept: the bookings of
      the draws before the failing one, and its own booking when only its payment
      failed. */
  method CreateBookingsSeed(store: BookingStore, payments: seq<Payment>, tours: seq<Tour>,
                            draws: seq<BookingDraw>, now: int)
    returns (ok: bool, newPayments: seq<Payment>)
    requires store.Valid() && PaymentsValid(payments) && BookingDrawsValid(tours, draws)
    modifies store
    ensures store.Valid() && PaymentsValid(newPayments)
    ensures ok ==> store.rows == old(store.rows) + SeedRecords(tours, draws, |draws|, now)
    ensures ok ==> newPayments == payments + SeedPayments(tours, draws, |draws|, now)
    ensures tours == [] ==> ok && store.rows == old(store.rows) && newPayments == payments
    ensures !ok ==>
      exists j :: 0 <= j < |draws| && newPayments == payments + SeedPayments(tours, draws, j, now)
        && (store.rows == old(store.rows) + SeedRecords(tours, draws, j, now)
            || store.rows == old(store.rows) + SeedRecords(tours, draws, j + 1, now))
  {
    newPayments := payments;
    if tours == [] {
      return true, payments;
    }
    ghost var rows0 := store.rows;
    var k := 0;
    while k < |draws|
      invariant k <= |draws|
      invariant store.Valid() && PaymentsValid(newPayments)
      invariant store.rows == rows0 + SeedRecords(tours, draws, k, now)
      invariant newPayments == payments + SeedPayments(tours, draws, k, now)
    {
      SeedStep(rows0, payments, tours, draws, k, now);
      var stepOk;
      stepOk, newPayments := CreateSeedBooking(store, newPayments, tours, draws, k, now);
      if !stepOk {
        return false, newPayments;
      }
      k := k + 1;
    }
    ok := true;
  }
}
