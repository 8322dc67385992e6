/** The statistics and notification counts added to every admin page for staff
    users. Timestamps are seconds since the epoch in UTC; revenue is in cents. */
module AdminDashboard {
  import opened Common
  import opened Catalogue
  import opened Bookings
  import opened Ratings
  import opened SiteCore
  import BlogViews
  import GalleryViews

  const Day := 86400

  /** `now.replace(hour=0, minute=0, second=0, microsecond=0)` */
  function DayStart(now: int): (r: int)
    ensures r <= now < r + Day
    ensures r % Day == 0
  {
    now - now % Day
  }

  datatype Request = Request(path: string, hasUser: bool, isStaff: bool, isAuthenticated: bool)

  /** Only admin pages requested by an authenticated staff user get the context. */
  predicate Admitted(req: Request)
  {
    IsPrefix("/admin/", req.path) && req.hasUser && req.isStaff && req.isAuthenticated
  }

  /** The tables the statistics read. A table whose queries raise leaves its
      section out, as the `try`/`except` around each section does. */
  datatype Tables = Tables(
    bookings: Option<seq<BookingRecord>>, contacts: Option<seq<ContactMessage>>, reviews: Option<seq<Review>>,
    tours: seq<Tour>, excursions: seq<Excursion>, activities: seq<Activity>, transfers: seq<Transfer>,
    posts: seq<BlogViews.BlogPost>, images: seq<GalleryViews.GalleryImage>, activeUsers: seq<bool>)

  datatype BookingStats = BookingStats(
    total: nat, pending: nat, confirmed: nat, today: nat, last7Days: nat, last30Days: nat, revenue: int)

  datatype ContactStats = ContactStats(total: nat, newCount: nat, readCount: nat, today: nat, last7Days: nat)

  datatype ReviewStats = ReviewStats(total: nat, pending: nat, approved: nat, today: nat, last7Days: nat)

  datatype ContentStats = ContentStats(
    tours: nat, excursions: nat, activities: nat, transfers: nat, blogPosts: nat, galleryImages: nat, users: nat)

  datatype Stats = Stats(
    bookings: Option<BookingStats>, contacts: Option<ContactStats>, reviews: Option<ReviewStats>, content: ContentStats)

  /** The `notifications` dict: a key is present when its section ran. */
  datatype Notifications = Notifications(bookings: Option<nat>, contacts: Option<nat>, reviews: Option<nat>)

  datatype AdminContext =
    | NoContext
    | Context(dashboardStats: Stats, notifications: Option<Notifications>, totalNotifications: nat)

  /** `notifications.get(key, 0)` */
  function OrZero(n: Option<nat>): nat { if n.Some? then n.value else 0 }

  /** The sum of `total_price` over the given bookings (`Sum(...) or 0`). */
  function SumPrices(bs: seq<BookingRecord>): int
  {
    if bs == [] then 0 else bs[0].totalPrice + SumPrices(bs[1..])
  }

  predicate Earning(b: BookingRecord)
  {
    b.status == Confirmed || b.status == Completed
  }

  predicate IsConfirmed(b: BookingRecord) { b.status == Confirmed }

  predicate IsCompleted(b: BookingRecord) { b.status == Completed }

  lemma SumPricesCons(x: BookingRecord, rest: seq<BookingRecord>)
    ensures SumPrices([x] + rest) == x.totalPrice + SumPrices(rest)
  {
    assert ([x] + rest)[1..] == rest;
  }

  /** Revenue splits into the confirmed and the completed bookings' totals. */
  lemma {:induction false} RevenueSplit(bs: seq<BookingRecord>)
    ensures SumPrices(Filter(bs, Earning)) == SumPrices(Filter(bs, IsConfirmed)) + SumPrices(Filter(bs, IsCompleted))
  {
    if bs != [] {
      var x, rest := bs[0], bs[1..];
      RevenueSplit(rest);
      if IsConfirmed(x) {
        assert Filter(bs, Earning) == [x] + Filter(rest, Earning);
        assert Filter(bs, IsConfirmed) == [x] + Filter(rest, IsConfirmed);
        assert Filter(bs, IsCompleted) == Filter(rest, IsCompleted);
        SumPricesCons(x, Filter(rest, Earning));
        SumPricesCons(x, Filter(rest, IsConfirmed));
      } else if IsCompleted(x) {
        assert Filter(bs, Earning) == [x] + Filter(rest, Earning);
        assert Filter(bs, IsConfirmed) == Filter(rest, IsConfirmed);
        assert Filter(bs, IsCompleted) == [x] + Filter(rest, IsCompleted);
        SumPricesCons(x, Filter(rest, Earning));
        SumPricesCons(x, Filter(rest, IsCompleted));
      } else {
        assert Filter(bs, Earning) == Filter(rest, Earning);
        assert Filter(bs, IsConfirmed) == Filter(rest, IsConfirmed);
        assert Filter(bs, IsCompleted) == Filter(rest, IsCompleted);
      }
    }
  }

  /** Bookings with non-negative totals give a non-negative sum. */
  lemma {:induction false} SumPricesNonNegative(bs: seq<BookingRecord>)
    requires forall i :: 0 <= i < |bs| ==> bs[i].totalPrice >= 0
    ensures SumPrices(bs) >= 0
  {
    if bs != [] {
      SumPricesNonNegative(bs[1..]);
    }
  }

  /** The earning bookings of a table with non-negative totals sum to a
      non-negative revenue. */
  lemma EarningPricesNonNegative(bs: seq<BookingRecord>)
    ensures (forall i :: 0 <= i < |bs| ==> bs[i].totalPrice >= 0) ==> SumPrices(Filter(bs, Earning)) >= 0
  {
    if forall i :: 0 <= i < |bs| ==> bs[i].totalPrice >= 0 {
      var es := Filter(bs, Earning);
      forall i | 0 <= i < |es|
        ensures es[i].totalPrice >= 0
      {
        assert es[i] in bs;
      }
      SumPricesNonNegative(es);
    }
  }

  /** A filter that no row passes selects nothing. */
  lemma FilterNone<T(!new)>(s: seq<T>, p: T -> bool)
    requires forall x :: x in s ==> !p(x)
    ensures Filter(s, p) == []
  {
  }

  /** The booking section. The windows are nested, so their counts are ordered;
      the new-booking notification counts the pending bookings of the last week. */
  function BookingSection(bs: seq<BookingRecord>, now: int): (r: (BookingStats, nat))
    ensures r.0.today <= r.0.last7Days <= r.0.last30Days <= r.0.total == |bs|
    ensures r.0.pending == Count(bs, (b: BookingRecord) => b.status == Pending)
    ensures r.0.confirmed == Count(bs, (b: BookingRecord) => b.status == Confirmed)
    ensures r.0.today == Count(bs, (b: BookingRecord) => b.createdAt >= DayStart(now))
    ensures r.0.last7Days == Count(bs, (b: BookingRecord) => b.createdAt >= DayStart(now) - 7 * Day)
    ensures r.0.last30Days == Count(bs, (b: BookingRecord) => b.createdAt >= DayStart(now) - 30 * Day)
    ensures r.0.revenue == SumPrices(Filter(bs, Earning))
    ensures (forall i :: 0 <= i < |bs| ==> bs[i].totalPrice >= 0) ==> r.0.revenue >= 0
    ensures r.1 == Count(bs, (b: BookingRecord) => b.status == Pending && b.createdAt >= DayStart(now) - 7 * Day)
    ensures r.1 <= r.0.pending && r.1 <= r.0.last7Days
  {
    var today := DayStart(now);
    var last7 := today - 7 * Day;
    var last30 := today - 30 * Day;
    var inToday := (b: BookingRecord) => b.createdAt >= today;
    var in7 := (b: BookingRecord) => b.createdAt >= last7;
    var in30 := (b: BookingRecord) => b.createdAt >= last30;
    var recent := (b: BookingRecord) => b.status == Pending && b.createdAt >= last7;
    CountMonotone(bs, inToday, in7);
    CountMonotone(bs, in7, in30);
    CountMonotone(bs, recent, (b: BookingRecord) => b.status == Pending);
    CountMonotone(bs, recent, in7);
    EarningPricesNonNegative(bs);
    (BookingStats(|bs|, Count(bs, (b: BookingRecord) => b.status == Pending),
                  Count(bs, (b: BookingRecord) => b.status == Confirmed),
                  Count(bs, inToday), Count(bs, in7), Count(bs, in30), SumPrices(Filter(bs, Earning))),
     Count(bs, recent))
  }

  /** The contact section; the notification counts new messages not yet read. */
  function ContactSection(ms: seq<ContactMessage>, now: int): (r: (ContactStats, nat))
    ensures r.0.total == |ms| && r.0.today <= r.0.last7Days <= r.0.total
    ensures r.0.today == Count(ms, (m: ContactMessage) => m.createdAt >= DayStart(now))
    ensures r.0.last7Days == Count(ms, (m: ContactMessage) => m.createdAt >= DayStart(now) - 7 * Day)
    ensures r.0.newCount == Count(ms, (m: ContactMessage) => m.status == New && !m.isRead)
    ensures r.0.readCount == Count(ms, (m: ContactMessage) => m.isRead)
    ensures r.0.newCount + r.0.readCount <= r.0.total
    ensures r.1 == r.0.newCount
  {
    var today := DayStart(now);
    var inToday := (m: ContactMessage) => m.createdAt >= today;
    var in7 := (m: ContactMessage) => m.createdAt >= today - 7 * Day;
    var isNew := (m: ContactMessage) => m.status == New && !m.isRead;
    var isRead := (m: ContactMessage) => m.isRead;
    CountMonotone(ms, inToday, in7);
    CountDisjoint3(ms, isNew, isRead, (m: ContactMessage) => false);
    (ContactStats(|ms|, Count(ms, isNew), Count(ms, isRead), Count(ms, inToday), Count(ms, in7)), Count(ms, isNew))
  }

  /** The review section; the notification counts the reviews awaiting approval. */
  function ReviewSection(rs: seq<Review>, now: int): (r: (ReviewStats, nat))
    ensures r.0.total == |rs| && r.0.today <= r.0.last7Days <= r.0.total
    ensures r.0.today == Count(rs, (x: Review) => x.createdAt >= DayStart(now))
    ensures r.0.last7Days == Count(rs, (x: Review) => x.createdAt >= DayStart(now) - 7 * Day)
    ensures r.0.pending == Count(rs, (x: Review) => !x.isApproved)
    ensures r.0.approved == |ApprovedReviews(rs)|
    ensures r.0.pending + r.0.approved == r.0.total
    ensures r.1 == r.0.pending
  {
    var today := DayStart(now);
    var inToday := (x: Review) => x.createdAt >= today;
    var in7 := (x: Review) => x.createdAt >= today - 7 * Day;
    var pending := (x: Review) => !x.isApproved;
    var approved := (x: Review) => x.isApproved;
    CountMonotone(rs, inToday, in7);
    CountSplit(rs, pending, approved);
    (ReviewStats(|rs|, Count(rs, pending), Count(rs, approved), Count(rs, inToday), Count(rs, in7)), Count(rs, pending))
  }

  /** The content counts: active catalogue rows, published posts, active images and users. */
  function ContentSection(t: Tables): (r: ContentStats)
    ensures r.tours <= |t.tours| && r.excursions <= |t.excursions| && r.activities <= |t.activities|
    ensures r.transfers <= |t.transfers| && r.blogPosts <= |t.posts| && r.galleryImages <= |t.images|
    ensures r.users <= |t.activeUsers|
    ensures r.tours == Count(t.tours, (x: Tour) => x.isActive)
    ensures r.excursions == Count(t.excursions, (x: Excursion) => x.isActive)
    ensures r.activities == Count(t.activities, (x: Activity) => x.isActive)
    ensures r.transfers == Count(t.transfers, (x: Transfer) => x.isActive)
    ensures r.blogPosts == Count(t.posts, (p: BlogViews.BlogPost) => p.isPublished)
    ensures r.galleryImages == Count(t.images, (g: GalleryViews.GalleryImage) => g.isActive)
    ensures r.users == Count(t.activeUsers, (a: bool) => a)
  {
    ContentStats(Count(t.tours, (x: Tour) => x.isActive), Count(t.excursions, (x: Excursion) => x.isActive),
                 Count(t.activities, (x: Activity) => x.isActive), Count(t.transfers, (x: Transfer) => x.isActive),
                 Count(t.posts, (p: BlogViews.BlogPost) => p.isPublished),
                 Count(t.images, (g: GalleryViews.GalleryImage) => g.isActive),
                 Count(t.activeUsers, (a: bool) => a))
  }

  /** `admin_dashboard_stats`: nothing outside the admin or for anyone but an
      authenticated staff user; otherwise the statistics, the notification
      counts of the sections that ran, their total, and no notifications at all
      when that total is zero. */
  function AdminDashboardStats(req: Request, t: Tables, now: int): (r: AdminContext)
    ensures r.NoContext? <==> !Admitted(req)
    ensures r.Context? ==>
      (r.dashboardStats.bookings.Some? == t.bookings.Some? && r.dashboardStats.contacts.Some? == t.contacts.Some?
       && r.dashboardStats.reviews.Some? == t.reviews.Some?)
    ensures r.Context? ==>
      r.dashboardStats
        == Stats(if t.bookings.Some? then Some(BookingSection(t.bookings.value, now).0) else None,
                 if t.contacts.Some? then Some(ContactSection(t.contacts.value, now).0) else None,
                 if t.reviews.Some? then Some(ReviewSection(t.reviews.value, now).0) else None,
                 ContentSection(t))
    ensures r.Context? && r.notifications.Some? ==>
      r.notifications.value.bookings == (if t.bookings.Some? then Some(BookingSection(t.bookings.value, now).1) else None)
      && r.notifications.value.contacts == (if t.contacts.Some? then Some(ContactSection(t.contacts.value, now).1) else None)
      && r.notifications.value.reviews == (if t.reviews.Some? then Some(ReviewSection(t.reviews.value, now).1) else None)
    ensures r.Context? ==> (r.notifications.None? <==> r.totalNotifications == 0)
    ensures r.Context? ==>
      r.totalNotifications == (if t.bookings.Some? then BookingSection(t.bookings.value, now).1 else 0)
                            + (if t.contacts.Some? then ContactSection(t.contacts.value, now).1 else 0)
                            + (if t.reviews.Some? then ReviewSection(t.reviews.value, now).1 else 0)
    ensures r.Context? && r.notifications.Some? ==>
      r.totalNotifications == OrZero(r.notifications.value.bookings) + OrZero(r.notifications.value.contacts)
                              + OrZero(r.notifications.value.reviews)
  {
    if !Admitted(req) then NoContext
    else
      var b := if t.bookings.Some? then Some(BookingSection(t.bookings.value, now)) else None;
      var c := if t.contacts.Some? then Some(ContactSection(t.contacts.value, now)) else None;
      var v := if t.reviews.Some? then Some(ReviewSection(t.reviews.value, now)) else None;
      var n := Notifications(if b.Some? then Some(b.value.1) else None, if c.Some? then Some(c.value.1) else None,
                             if v.Some? then Some(v.value.1) else None);
      var total := OrZero(n.bookings) + OrZero(n.contacts) + OrZero(n.reviews);
      var stats := Stats(if b.Some? then Some(b.value.0) else None, if c.Some? then Some(c.value.0) else None,
                         if v.Some? then Some(v.value.0) else None, ContentSection(t));
      Context(stats, if total > 0 then Some(n) else None, total)
  }

  /** A quiet admin: with no pending booking of the last week, no unread new
      message and no review awaiting approval there is nothing to notify. */
  lemma NothingToNotify(req: Request, bs: seq<BookingRecord>, ms: seq<ContactMessage>, rs: seq<Review>,
                        t: Tables, now: int)
    requires Admitted(req) && t.bookings == Some(bs) && t.contacts == Some(ms) && t.reviews == Some(rs)
    requires forall b :: b in bs ==> b.status != Pending
    requires forall m :: m in ms ==> m.isRead
    requires forall x :: x in rs ==> x.isApproved
    ensures AdminDashboardStats(req, t, now).notifications.None?
  {
    FilterNone(bs, (b: BookingRecord) => b.status == Pending && b.createdAt >= DayStart(now) - 7 * Day);
    FilterNone(ms, (m: ContactMessage) => m.status == New && !m.isRead);
    FilterNone(rs, (x: Review) => !x.isApproved);
  }
}
