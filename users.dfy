/** The customer account pages (dashboard and booking history) and the user
    profile: its display name, its booking count, and the two signal handlers
    that create and re-save the profile when a user is saved. */
module Users {
  import opened Common
  import opened Ordering
  import opened Bookings

  datatype User = User(id: nat, username: string, firstName: string, lastName: string, email: string)

  /** `Q(user=user) | Q(customer_email=user.email)`: a booking linked to the
      account, or placed under the account's e-mail address. */
  predicate Owns(u: User, b: BookingRecord)
  {
    b.user == Some(u.id) || b.customerEmail == u.email
  }

  /** `order_by('-created_at')` */
  function NewestFirst(b: BookingRecord): Key { [Num(-b.createdAt)] }

  /** Filtering under two conditions that agree on every row gives the same rows. */
  lemma {:induction false} FilterSameCondition<T(!new)>(s: seq<T>, p: T -> bool, q: T -> bool)
    requires forall x :: p(x) == q(x)
    ensures Filter(s, p) == Filter(s, q)
  {
    if s != [] {
      FilterSameCondition(s[1..], p, q);
    }
  }

  // ---------------------------------------------------------------- dashboard

  datatype Dashboard = Dashboard(
    bookings: seq<BookingRecord>, totalBookings: nat,
    pendingBookings: nat, confirmedBookings: nat, completedBookings: nat)

  /** The account's bookings, in table order. */
  function OwnBookings(u: User, rows: seq<BookingRecord>): (r: seq<BookingRecord>)
    ensures forall b :: b in r <==> b in rows && Owns(u, b)
  {
    Filter(rows, (b: BookingRecord) => Owns(u, b))
  }

  function CountStatus(bs: seq<BookingRecord>, s: Status): nat
  {
    Count(bs, (b: BookingRecord) => b.status == s)
  }

  /** `DashboardView.get_context_data`: the account's bookings newest first, their
      number, and how many are pending, confirmed and completed; the three status
      counts never add up to more than the total. */
  function DashboardContext(u: User, rows: seq<BookingRecord>): (r: Dashboard)
    ensures forall b :: b in r.bookings <==> b in rows && Owns(u, b)
    ensures SortedBy(r.bookings, NewestFirst)
    ensures r.totalBookings == |r.bookings| == |OwnBookings(u, rows)|
    ensures r.pendingBookings == CountStatus(OwnBookings(u, rows), Pending)
    ensures r.confirmedBookings == CountStatus(OwnBookings(u, rows), Confirmed)
    ensures r.completedBookings == CountStatus(OwnBookings(u, rows), Completed)
    ensures r.pendingBookings + r.confirmedBookings + r.completedBookings <= r.totalBookings
  {
    var own := OwnBookings(u, rows);
    SortSorted(own, NewestFirst);
    SortPermutes(own, NewestFirst);
    CountDisjoint3(own, (b: BookingRecord) => b.status == Pending, (b: BookingRecord) => b.status == Confirmed,
                   (b: BookingRecord) => b.status == Completed);
    Dashboard(Sort(own, NewestFirst), |own|, CountStatus(own, Pending), CountStatus(own, Confirmed),
              CountStatus(own, Completed))
  }

  // ---------------------------------------------------------------- history

  datatype History = History(bookings: seq<BookingRecord>, currentStatus: string)

  /** `BookingHistoryView.get_context_data`: a non-empty `status` parameter keeps
      the bookings with that status code; an empty or missing one keeps all. The
      parameter is echoed back as given. */
  function HistoryContext(u: User, rows: seq<BookingRecord>, params: map<string, string>): (r: History)
    ensures forall b :: b in r.bookings <==>
      (b in rows && Owns(u, b) && (Get(params, "status", "") == "" || StatusCode(b.status) == Get(params, "status", "")))
    ensures SortedBy(r.bookings, NewestFirst)
    ensures r.currentStatus == Get(params, "status", "")
    ensures |r.bookings| == |When(OwnBookings(u, rows), Get(params, "status", "") != "",
                                  (b: BookingRecord) => StatusCode(b.status) == Get(params, "status", ""))|
  {
    var status := Get(params, "status", "");
    var q := When(OwnBookings(u, rows), status != "", (b: BookingRecord) => StatusCode(b.status) == status);
    SortSorted(q, NewestFirst);
    SortPermutes(q, NewestFirst);
    History(Sort(q, NewestFirst), status)
  }

  /** The history filtered by a status code lists as many bookings as the
      dashboard counts under that status. */
  lemma HistoryMatchesDashboardCount(u: User, rows: seq<BookingRecord>, params: map<string, string>, s: Status)
    requires s != Cancelled && Get(params, "status", "") == StatusCode(s)
    ensures |HistoryContext(u, rows, params).bookings|
         == (match s
             case Pending => DashboardContext(u, rows).pendingBookings
             case Confirmed => DashboardContext(u, rows).confirmedBookings
             case Completed => DashboardContext(u, rows).completedBookings
             case Cancelled => 0)
  {
    var code := StatusCode(s);
    forall b: BookingRecord ensures (StatusCode(b.status) == code) == (b.status == s) {
      StatusCodeRoundTrip(b.status, code);
      StatusCodeRoundTrip(s, code);
    }
    FilterSameCondition(OwnBookings(u, rows), (b: BookingRecord) => StatusCode(b.status) == code,
                        (b: BookingRecord) => b.status == s);
  }

  /** Without a status parameter the history holds exactly the dashboard's bookings. */
  lemma HistoryWithoutStatusIsDashboard(u: User, rows: seq<BookingRecord>, params: map<string, string>)
    requires Get(params, "status", "") == ""
    ensures forall b :: b in HistoryContext(u, rows, params).bookings <==> b in DashboardContext(u, rows).bookings
    ensures |HistoryContext(u, rows, params).bookings| == DashboardContext(u, rows).totalBookings
  {
  }

  // ---------------------------------------------------------------- profile

  /** `UserProfile.full_name`: "first last" when both names are given, else the username. */
  function FullName(u: User): (r: string)
    ensures u.firstName != "" && u.lastName != "" ==> r == u.firstName + " " + u.lastName
    ensures u.firstName == "" || u.lastName == "" ==> r == u.username
  {
    if u.firstName != "" && u.lastName != "" then u.firstName + " " + u.lastName else u.username
  }

  /** The full name is never empty for an account with a username, and when both
      names are given it starts with the first name and ends with the last. */
  lemma FullNameShape(u: User)
    ensures u.username != "" ==> FullName(u) != ""
    ensures u.firstName != "" && u.lastName != "" ==>
      IsPrefix(u.firstName, FullName(u)) && FullName(u)[|FullName(u)| - |u.lastName|..] == u.lastName
  {
    if u.firstName != "" && u.lastName != "" {
      assert FullName(u)[..|u.firstName|] == u.firstName;
    }
  }

  /** `UserProfile.booking_count`: bookings linked to the account (by user only). */
  function BookingCount(u: User, rows: seq<BookingRecord>): nat
  {
    Count(rows, (b: BookingRecord) => b.user == Some(u.id))
  }

  /** The profile's count never exceeds the dashboard total, which also includes
      bookings placed under the account's e-mail address. */
  lemma BookingCountAtMostDashboard(u: User, rows: seq<BookingRecord>)
    ensures BookingCount(u, rows) <= DashboardContext(u, rows).totalBookings
  {
    CountMonotone(rows, (b: BookingRecord) => b.user == Some(u.id), (b: BookingRecord) => Owns(u, b));
  }

  /** A profile row with its defaults: German, no newsletter. */
  datatype Profile = Profile(user: nat, language: string, newsletter: bool, createdAt: int, updatedAt: int)

  /** The profile table, keyed by user id (the one-to-one link is unique). */
  class ProfileTable {
    var profiles: map<nat, Profile>

    predicate Valid()
      reads this
    {
      forall u :: u in profiles ==> profiles[u].user == u
    }

    constructor ()
      ensures profiles == map[] && Valid()
    {
      profiles := map[];
    }

    /** The `post_save` receivers on User: `create_user_profile` creates a
        profile for a newly created user (failing on the unique link if one is
        already there), then `save_user_profile` re-saves an existing profile. */
    method UserSaved(user: nat, created: bool, now: int) returns (ok: bool)
      requires Valid()
      modifies this
      ensures Valid()
      ensures ok <==> !(created && user in old(profiles))
      ensures !ok ==> profiles == old(profiles)
      ensures ok && created ==> profiles == old(profiles)[user := Profile(user, "de", false, now, now)]
      ensures ok && !created && user in old(profiles) ==>
        profiles == old(profiles)[user := old(profiles)[user].(updatedAt := now)]
      ensures !created && user !in old(profiles) ==> profiles == old(profiles)
    {
      if created {
        if user in profiles {
          return false;
        }
        profiles := profiles[user := Profile(user, "de", false, now, now)];
      }
      if user in profiles {
        profiles := profiles[user := profiles[user].(updatedAt := now)];
      }
      ok := true;
    }
  }
}
