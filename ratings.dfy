/** Reviews as the catalogue models see them, and the rating aggregates the
    models expose. An average is kept as the pair (sum of ratings, number of
    ratings) instead of the database's floating-point mean. */
module Ratings {
  import opened Common
  import opened Ordering

  /** The generic foreign key of a review: a content type and an object id. */
  datatype Target = Target(contentType: nat, objectId: nat)

  datatype Review = Review(
    id: nat, target: Target, name: string, email: string,
    rating: int, title: string, comment: string,
    isApproved: bool, createdAt: int)

  /** `Avg('rating')` over `count` ratings summing to `sum`. */
  datatype Mean = Mean(sum: int, count: nat)

  /** The reviews attached to one object (the reverse generic relation). */
  function ReviewsOf(all: seq<Review>, t: Target): (r: seq<Review>)
    ensures forall x :: x in r <==> x in all && x.target == t
  {
    Filter(all, (x: Review) => x.target == t)
  }

  /** Review: `ordering = ['-created_at']` */
  function ReviewKey(r: Review): Key { [Num(-r.createdAt)] }

  function SumRatings(rs: seq<Review>): int
  {
    if rs == [] then 0 else rs[0].rating + SumRatings(rs[1..])
  }

  /** Ratings all within [lo, hi] sum to between lo and hi times their number. */
  lemma {:induction false} SumRatingsBounds(rs: seq<Review>, lo: int, hi: int)
    requires forall i :: 0 <= i < |rs| ==> lo <= rs[i].rating <= hi
    ensures lo * |rs| <= SumRatings(rs) <= hi * |rs|
  {
    if rs != [] {
      SumRatingsBounds(rs[1..], lo, hi);
    }
  }

  /** The rating bound the review's validators impose (1 to 5 stars). */
  predicate RatingsValid(rs: seq<Review>)
  {
    forall i :: 0 <= i < |rs| ==> 1 <= rs[i].rating <= 5
  }

  // ------------------------------------------- tours and activities (rating > 3)

  /** Shown publicly: approved, and rated above 3. */
  predicate IsPublic(r: Review) { r.isApproved && r.rating > 3 }

  function PublicReviews(rs: seq<Review>): (r: seq<Review>)
    ensures forall x :: x in r <==> x in rs && x.isApproved && x.rating > 3
  {
    Filter(rs, IsPublic)
  }

  /** `Tour.review_count` and `Activity.total_reviews` */
  function PublicCount(rs: seq<Review>): nat
  {
    |PublicReviews(rs)|
  }

  /** `Tour.average_rating` and `Activity.average_rating`: the mean of the approved
      ratings above 3, or None when there is none. */
  function PublicAverage(rs: seq<Review>): (r: Option<Mean>)
    ensures r == None <==> PublicCount(rs) == 0
    ensures r.Some? ==> r.value.count == PublicCount(rs) && r.value.sum == SumRatings(PublicReviews(rs))
  {
    var pub := PublicReviews(rs);
    if |pub| > 0 then Some(Mean(SumRatings(pub), |pub|)) else None
  }

  /** With valid ratings a defined public average lies between 4 and 5 stars. */
  lemma PublicAverageInTopBand(rs: seq<Review>)
    requires RatingsValid(rs)
    ensures PublicAverage(rs).Some? ==>
      4 * PublicAverage(rs).value.count <= PublicAverage(rs).value.sum <= 5 * PublicAverage(rs).value.count
  {
    var pub := PublicReviews(rs);
    forall i | 0 <= i < |pub| ensures 4 <= pub[i].rating <= 5 {
      assert pub[i] in rs;
    }
    SumRatingsBounds(pub, 4, 5);
  }

  /** A review rated 3 or lower, or not approved, leaves the public figures unchanged. */
  lemma HiddenReviewDoesNotCount(rs: seq<Review>, x: Review)
    requires !IsPublic(x)
    ensures PublicAverage(rs + [x]) == PublicAverage(rs)
  {
    FilterAppendHidden(rs, x, IsPublic);
  }

  lemma {:induction false} FilterAppendHidden<T(!new)>(s: seq<T>, x: T, p: T -> bool)
    requires !p(x)
    ensures Filter(s + [x], p) == Filter(s, p)
  {
    if s != [] {
      assert (s + [x])[1..] == s[1..] + [x];
      FilterAppendHidden(s[1..], x, p);
    } else {
      assert Filter([x], p) == [] + Filter([], p);
    }
  }

  // ------------------------------------------- excursions (every approved review)

  function ApprovedReviews(rs: seq<Review>): (r: seq<Review>)
    ensures forall x :: x in r <==> x in rs && x.isApproved
  {
    Filter(rs, (x: Review) => x.isApproved)
  }

  /** `Excursion.review_count` as intended: every approved review counts. */
  function ApprovedCount(rs: seq<Review>): nat
  {
    |ApprovedReviews(rs)|
  }

  /** `Excursion.average_rating` as intended: the mean of every approved rating;
      with no approved review the figure is 0, given here as the empty mean (0, 0). */
  function ApprovedAverage(rs: seq<Review>): (r: Mean)
    ensures r.count == ApprovedCount(rs)
    ensures r.count == 0 ==> r.sum == 0
  {
    var ap := ApprovedReviews(rs);
    Mean(SumRatings(ap), |ap|)
  }

  /** Since every rating is at least 1, the excursion average is 0 exactly when
      there is no approved review, and otherwise lies between 1 and 5 stars. */
  lemma ApprovedAverageZeroIffNone(rs: seq<Review>)
    requires RatingsValid(rs)
    ensures ApprovedAverage(rs).sum == 0 <==> ApprovedCount(rs) == 0
    ensures ApprovedAverage(rs).count <= ApprovedAverage(rs).sum <= 5 * ApprovedAverage(rs).count
  {
    var ap := ApprovedReviews(rs);
    forall i | 0 <= i < |ap| ensures 1 <= ap[i].rating <= 5 {
      assert ap[i] in rs;
    }
    SumRatingsBounds(ap, 1, 5);
  }

  /** The public reviews are a subset of the approved ones, so the tour-style count
      never exceeds the excursion-style count. */
  lemma PublicCountAtMostApproved(rs: seq<Review>)
    ensures PublicCount(rs) <= ApprovedCount(rs)
  {
    CountMonotone(rs, IsPublic, (x: Review) => x.isApproved);
  }
}
