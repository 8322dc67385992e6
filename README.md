# Ausflug Ägypten: a Dafny model of the tour and booking site

This project models the core of a Django site that sells tours, excursions,
activities and transfers in Egypt. It also models the site's deployment
environment validator, its seed-data command and its two client scripts.

**Catalogue and reviews**
- The catalogue models: prices in integer cents, `display_price` and `has_discount`,
  the slug each row derives on `save`, and each model's default ordering.
- Reviews attach to an object through a generic foreign key.
- The rating figures the models expose. Tours and activities count approved reviews
  rated above 3; excursions count every approved review.
- The review form, the submit view and the two admin moderation actions.

**Bookings**
- The booking inquiry form, its validation, and which item it books.
- The total price, the confirmation code, and the save that can clash on that code.
- The Stripe payment row.

**Pages**
- The list and detail views of tours, excursions, activities, transfers, the gallery
  and the blog. A queryset is a filter over a sequence; `order_by` is a stable sort on
  a lexicographic key.
- The user dashboard and booking history, and the user-profile signals.
- The site-settings singleton and its admin permissions, contact messages, and the
  admin dashboard's statistics and notifications.

**Tools and scripts**
- `deployment/validate-env.py`: `.env` parsing, the checks, the warnings and the exit code.
- The `create_test_data` command:
  - the table precheck and the step order;
  - the unique-slug loop;
  - the idempotent `get_or_create` of locations;
  - the seeded reviews, bookings and payments.
- `staticfiles/js/main.js`: the hero slider, the wishlist, the accordion, the listing
  filter and the price-range inputs.
- `js/gallery.js`: the lightbox and the category filter. Each of these is a class whose
  fields the methods update.

**How values are modelled**
- Money is integer cents, and timestamps are integers.
- Averages are kept as a (sum, count) pair.
- Database, browser, clock and random inputs are parameters.

Files: `common.dfy` and `ordering.dfy` hold the queryset and ordering helpers. Each other
file is one part of the site: `catalogue`, `ratings`, `bookings`, `reviews`, the six
`*_views`, `users`, `site_core`, `admin_dashboard`, `env_validator`, `seed_data` and
`client_scripts`.

## Model

| member | source | states |
|---|---|---|
| Common.GetWhere | apps/tours/views.py:67-74 | `get_object_or_404` on a filtered queryset: Found only a matching row; NotFound exactly when no row matches; MultipleFound only when two rows match |
| Common.ParseDecimal | apps/tours/views.py:31-37 | a price parameter converts exactly when it is an optional sign followed by digits with at most one point and at least one digit; the number is all its digits, negated after `-`, over ten to the number of digits after the point |
| Common.ParseDecimalPointed | apps/tours/views.py:31-37 | digits, a point and digits convert to all the digits over ten to the number after the point |
| Common.ParseDecimalDigits | apps/tours/views.py:31-37 | plain digits convert to a whole number |
| Common.ContainsIffOccurs | apps/tours/views.py:39-45 | `icontains` holds exactly when the needle occurs at some position of the text |
| Common.CountMonotone | apps/core/admin_context.py:50-97 | a weaker condition never counts fewer rows |
| Ordering.SortSorted | apps/tours/views.py:48-49 | the result of `order_by` is ordered by its key |
| Ordering.SortPermutes | apps/tours/views.py:48-49 | `order_by` keeps every row exactly once (same multiset) |
| Ordering.TopN | apps/tours/views.py:80-83 | `order_by(...)[:n]` keeps as many rows as exist up to n, each from the input and no more often, in key order |
| Ordering.TopNKeepsFirst | apps/tours/views.py:80-83 | every row the slice leaves out comes no earlier in key order than any row it keeps |
| Ordering.KeyLeTransitive | apps/tours/models.py:123 | the lexicographic comparison of ordering keys is transitive |
| Ordering.KeyLeTotal | apps/tours/models.py:123 | any two ordering keys are comparable |
| Catalogue.DisplayPrice | apps/activities/models.py:131-134 | the shown price is the base price or the discount; a missing or zero discount shows the base price |
| Catalogue.DiscountedDisplayIsCheaper | apps/activities/models.py:131-139 | a non-zero discount below the base price is the shown price and is cheaper |
| Catalogue.DisplayAndDiscountDisagree | apps/transfers/models.py:149-157 | a zero discount counts as a discount yet the base price shows; a discount above the base price shows yet is not a discount |
| Catalogue.DisplayAboveBaseMeansNoDiscount | apps/transfers/models.py:149-157 | a shown price above the base price never comes with `has_discount` |
| Catalogue.SlugAfterSave | apps/tours/models.py:134-137 | an empty slug takes the slugified title; a non-empty slug is kept |
| Catalogue.SlugSaveIdempotent | apps/excursions/models.py:83-86 | a second save never changes a non-empty slug |
| Catalogue.SluggedRow.Save | apps/tours/models.py:17-36 | saving fills an empty slug and leaves a set one alone; the insert fails with an integrity error exactly when another row already has the slug |
| Catalogue.AddRoute | apps/transfers/models.py:224 | a route insert succeeds exactly when its (transfer, from, to) triple is new, appends it, and keeps the triples unique |
| Catalogue.BestsellerFirst | apps/excursions/models.py:70 | under the default excursion ordering a bestseller precedes every non-bestseller |
| Catalogue.FeaturedTransferFirst | apps/transfers/models.py:129 | under the default transfer ordering a featured transfer precedes every other |
| Ratings.ReviewsOf | apps/tours/models.py:142-148 | an object's reviews are exactly the reviews whose generic key points to it |
| Ratings.SumRatingsBounds | apps/tours/models.py:142-148 | ratings within [lo, hi] sum to between lo and hi times their number |
| Ratings.PublicReviews | apps/tours/models.py:150-153 | the counted reviews are exactly the approved ones rated above 3 |
| Ratings.PublicAverage | apps/activities/models.py:141-147 | no average exactly when nothing counts; otherwise the mean of the counted ratings |
| Ratings.PublicAverageInTopBand | apps/tours/models.py:142-148 | with valid ratings a tour or activity average lies between 4 and 5 |
| Ratings.HiddenReviewDoesNotCount | apps/activities/models.py:141-152 | adding an unapproved or low-rated review changes neither the average nor the count |
| Ratings.ApprovedReviews | apps/excursions/models.py:99-102 | the excursion figures use exactly the approved reviews |
| Ratings.ApprovedAverage | apps/excursions/models.py:91-97 | the excursion average covers every approved rating and is 0 with none |
| Ratings.ApprovedAverageZeroIffNone | apps/excursions/models.py:91-97 | the excursion average is 0 exactly when there is no approved review, else between 1 and 5 |
| Ratings.PublicCountAtMostApproved | apps/tours/models.py:150-153 | the tour-style count never exceeds the excursion-style count of the same reviews |
| Bookings.ParseStatus | apps/bookings/models.py:13-18 | a parsed status code prints back to the same code |
| Bookings.StatusCodeRoundTrip | apps/bookings/models.py:13-18 | every status round-trips through its code, and exactly the four declared codes parse |
| Bookings.ChooseItem | apps/bookings/forms.py:101-123 | the booked item is the tour, else the excursion, else the activity, else the transfer, and none only when all are missing |
| Bookings.ItemTotal | apps/bookings/forms.py:106-128 | tours, excursions and activities charge price times persons |
| Bookings.ActivityDiscountIgnored | apps/bookings/forms.py:115-118 | an activity's discount never changes its booking total |
| Bookings.ExcursionDiscountLowersTotal | apps/excursions/models.py:104-107 | an excursion shows a discount exactly when booking it for one or more persons costs less than its original price would |
| Bookings.TransferTotal | apps/bookings/forms.py:120-128 | a flat-rate transfer costs the same for any group, a per-person one costs the shown price per person |
| Bookings.TransferChargedAtDiscount | apps/bookings/forms.py:120-128 | a transfer with a non-zero discount is charged at the discount |
| Bookings.InquiryErrors | apps/bookings/forms.py:9-87 | each field is reported exactly when it breaks its rule: date missing or before today, persons missing or outside 1..50, name or phone empty or too long, e-mail empty or rejected by the e-mail validator |
| Bookings.ValidInquiryBounds | apps/bookings/forms.py:21-25 | an accepted inquiry has a date from today on and 1 to 50 persons |
| Bookings.Upper | apps/bookings/models.py:63 | upper-casing keeps the length and maps each character |
| Bookings.ConfirmationCode | apps/bookings/models.py:59-64 | a code is `AE-` and eight upper-case hex digits |
| Bookings.ConfirmationCodeCollision | apps/bookings/models.py:63 | two UUIDs give the same code exactly when their first eight hex digits agree |
| Bookings.Booking.constructor | apps/bookings/models.py:20-45 | a new booking is pending with one participant and no code |
| Bookings.Booking.Record | apps/bookings/models.py:21-41 | a booking can be stored exactly when it has an item and a total |
| Bookings.Booking.AssignCode | apps/bookings/models.py:59-63 | only an empty code is replaced, by the code derived from the UUID |
| Bookings.Booking.TakeInquiry | apps/bookings/forms.py:89-131 | the instance takes the submitted customer fields, the chosen item at its total for the persons, and status pending; the code is untouched |
| Bookings.Booking.SetColumns | apps/core/management/commands/create_test_data.py:856-866 | the row the booking would store is exactly the given columns, with its code, user and creation time unchanged |
| Bookings.BookingStore.constructor | apps/bookings/models.py:41 | the table starts empty with unique codes |
| Bookings.BookingStore.Save | apps/bookings/models.py:41 | save stores the row exactly when it has an item and its code is free; else the table is unchanged; codes stay unique |
| Bookings.SaveInquiry | apps/bookings/forms.py:89-136 | the booking copies the form, books the chosen item at its total, is pending, and is stored only on commit with a free code |
| Bookings.PaymentStatusCodesDistinct | apps/bookings/models.py:70-76 | distinct payment statuses have distinct codes |
| Bookings.NewPayment | apps/bookings/models.py:78-95 | a new payment is pending in EUR, unpaid and without a charge id |
| Bookings.AddPayment | apps/bookings/models.py:78-81 | a payment insert succeeds exactly when its booking and its intent id are both new, and keeps both unique |
| Reviews.ReviewErrors | apps/reviews/forms.py:12-48 | each field is reported exactly when it breaks its rule: rating missing or outside 1..5, name or title empty or too long, e-mail empty or rejected by the e-mail validator, comment empty |
| Reviews.AcceptedRatingInRange | apps/reviews/forms.py:12-15 | an accepted review has a rating from 1 to 5 |
| Reviews.ReviewStore.FormSave | apps/reviews/forms.py:74-81 | the saved review is unapproved and carries the form's fields; it is inserted exactly when committing with a target |
| Reviews.ReviewStore.SetApproval | apps/reviews/admin.py:35-40 | the admin actions set the approval flag of exactly the selected reviews |
| Reviews.WithApproval | apps/reviews/admin.py:35-40 | selected reviews take the new flag; every other review is unchanged |
| Reviews.ApprovalLastWins | apps/reviews/admin.py:35-40 | of two actions on the same selection the later decides; each action is idempotent |
| Reviews.ApproveAllAndWithdrawAll | apps/reviews/admin.py:35-40 | approving all makes every review approved; withdrawing all leaves no public average |
| Reviews.ResolveTarget | apps/reviews/views.py:17-35 | a missing id is an invalid request; an unparsable id, unknown type or missing object is "not found"; a resolved target is exactly what the two ids name |
| Reviews.SubmitReview | apps/reviews/views.py:17-63 | a rejected request stores nothing; a valid form stores one unapproved review of the target, with the submitted rating, name, e-mail, title and comment, and thanks; an invalid form stores nothing and reports one message per bad field; the redirect goes to the object's page when it has one |
| Reviews.FieldMessages | apps/reviews/views.py:55-57 | one error message per invalid field, in the order the form reports them |
| TourViews.ParseSort | apps/tours/views.py:48-49 | a parsed sort prints back to the parameter |
| TourViews.ParseSortRoundTrip | apps/tours/views.py:48-49 | every supported ordering is reached by its own parameter value |
| TourViews.DefaultSortIsNewestFirst | apps/tours/views.py:47-49 | with no `sort` parameter the list is ordered as the model's newest-first ordering |
| TourViews.NarrowTours | apps/tours/views.py:17-45 | the kept tours are exactly the active tours matching every non-empty filter |
| TourViews.TourList | apps/tours/views.py:17-50 | an unparsable price bound or an unknown sort fails the request; otherwise the list holds each matching tour exactly as often as the table does, ordered by the sort |
| TourViews.SearchIgnoresEnglishDescription | apps/tours/views.py:39-45 | the search never looks at the English description |
| TourViews.RelatedTours | apps/tours/views.py:80-83 | other active tours of the same location, as many as exist up to three, newest first, each at most as often as it occurs |
| TourViews.TourReviews | apps/tours/views.py:86-89 | the tour's approved reviews rated above 3, as many as its review count up to ten, newest first, each at most as often as it occurs |
| TourViews.TourDetailPage | apps/tours/views.py:67-89 | the page exists exactly when an active tour has the slug, and shows its related tours and public reviews |
| TourViews.FeaturedTours | apps/tours/views.py:100-104 | active featured tours, as many as exist up to six, newest first, each at most as often as it occurs |
| ExcursionViews.ParseExcursionSort | apps/excursions/views.py:56-67 | each named sort is chosen exactly by its parameter value |
| ExcursionViews.RatingSortIsFeaturedSort | apps/excursions/views.py:56-67 | the `rating` sort orders as the featured sort |
| ExcursionViews.SortLeaders | apps/excursions/views.py:56-67 | the featured sort puts bestsellers first; the popular sort puts popular excursions first |
| ExcursionViews.NarrowExcursions | apps/excursions/views.py:18-53 | the kept excursions are exactly the active ones matching every filter |
| ExcursionViews.ExcursionList | apps/excursions/views.py:18-69 | a bad parameter fails the request; otherwise the list holds each matching excursion exactly as often as the table does, ordered by the sort |
| ExcursionViews.RatingParameterIgnored | apps/excursions/views.py:40-43 | the `rating` parameter never changes the list |
| ExcursionViews.CurrentFilters | apps/excursions/views.py:71-81 | each filter shows its parameter when given and its default otherwise (no category or location, 0 to 500, featured) |
| ExcursionViews.RelatedExcursions | apps/excursions/views.py:107-111 | other active excursions of the same location, as many as exist up to four, in the default order, each at most as often as it occurs |
| ExcursionViews.CategoryExcursions | apps/excursions/views.py:113-118 | present exactly when the excursion has a category: other active excursions of it, as many as exist up to three, in the default order, each at most as often as it occurs |
| ExcursionViews.ReviewsAttr | apps/excursions/models.py:91-97 | a model has a `reviews` attribute exactly when it declares the relation |
| ExcursionViews.ExcursionAverageAsWritten | apps/excursions/models.py:91-97 | as written, the excursion average always fails on the missing `reviews` attribute |
| ExcursionViews.ExcursionDetailAsWritten | apps/excursions/views.py:94-123 | as written, every found excursion page fails with that error |
| ExcursionViews.ExcursionDetailPage | apps/excursions/views.py:94-123 | corrected: the page exists exactly when an active excursion has the slug; its figures cover every approved review |
| ExcursionViews.ExcursionDetailFailsAsWritten | apps/excursions/views.py:121-123 | every page the corrected view renders is an error as written |
| ExcursionViews.ExcursionPageAverageZeroIffUnreviewed | apps/excursions/views.py:121-123 | on the corrected page the average is 0 exactly when the excursion has no approved review |
| ActivityViews.ParseActivitySort | apps/activities/views.py:42-50 | each named sort is chosen exactly by its parameter value |
| ActivityViews.DefaultOrderingIsModelOrdering | apps/activities/views.py:42-50 | the default sort is the model's own ordering |
| ActivityViews.PriceSortIgnoresDiscount | apps/activities/views.py:42-50 | the price sorts order by base price, whatever the discount |
| ActivityViews.NarrowActivities | apps/activities/views.py:18-40 | the kept activities are exactly the active ones matching every non-empty filter |
| ActivityViews.ActivityList | apps/activities/views.py:18-51 | the list holds each matching active activity exactly as often as the table does, ordered by the sort |
| ActivityViews.ListPageContext | apps/activities/views.py:54-78 | active categories in order, the first three featured, the active featured activities as many as exist up to six in the default order and none repeated beyond its occurrences, the active total, and the current parameters |
| ActivityViews.RelatedActivities | apps/activities/views.py:104-108 | other active activities of the same category, as many as exist up to four, in the default order, each at most as often as it occurs |
| ActivityViews.LocationActivities | apps/activities/views.py:110-115 | present exactly when the activity has a location: other active activities there, as many as exist up to three, in the default order, each at most as often as it occurs |
| ActivityViews.ActivityDetailPage | apps/activities/views.py:91-120 | the page exists exactly when an active activity has the slug; it shows the fixed rating 5.0 with no reviews |
| TransferViews.ParseTransferSort | apps/transfers/views.py:53-61 | each named sort is chosen exactly by its parameter value |
| TransferViews.PriceLowIgnoresDisplayedPrice | apps/transfers/views.py:53-61 | the price sort orders by base price, so a discounted transfer can come after a dearer one |
| TransferViews.NarrowTransfers | apps/transfers/views.py:17-52 | the kept transfers are exactly the active ones matching every filter |
| TransferViews.TransferList | apps/transfers/views.py:17-62 | the list holds each matching transfer exactly as often as the table does, ordered by the sort |
| TransferViews.ListPageContext | apps/transfers/views.py:65-89 | active transfer and vehicle types in order, the active featured transfers as many as exist up to six in the default order and none repeated beyond its occurrences, the active total, and the current query |
| TransferViews.RelatedTransfers | apps/transfers/views.py:116-120 | other active transfers of the same type, as many as exist up to four, in the default order, each at most as often as it occurs |
| TransferViews.SimilarVehicles | apps/transfers/views.py:122-127 | present exactly when the transfer has a vehicle type: other active transfers with it, as many as exist up to three, in the default order, each at most as often as it occurs |
| TransferViews.TransferDetailPage | apps/transfers/views.py:102-131 | the page exists exactly when an active transfer has the slug; it shows the fixed rating 5.0 with no reviews |
| GalleryViews.ParseGallerySort | apps/gallery/views.py:43-51 | each named sort is chosen exactly by its parameter value |
| GalleryViews.NewestOldestOpposite | apps/gallery/views.py:43-51 | for images of different dates, newest and oldest order them oppositely |
| GalleryViews.NarrowImages | apps/gallery/views.py:17-41 | the kept images are exactly the active ones matching every non-empty filter |
| GalleryViews.GalleryList | apps/gallery/views.py:17-52 | the list holds each matching active image exactly as often as the table does, ordered by the sort |
| GalleryViews.ListPageContext | apps/gallery/views.py:55-74 | active categories in order, the active featured images as many as exist up to six in the default order and none repeated beyond its occurrences, the active total, and the current query |
| GalleryViews.IndexOfId | apps/gallery/views.py:103-111 | the first position holding the id, or -1 when none does |
| GalleryViews.Neighbours | apps/gallery/views.py:103-111 | previous and next are the images beside the current one, absent at the ends |
| GalleryViews.NeighboursInverse | apps/gallery/views.py:103-111 | with unique ids, the next of the previous image is the image itself |
| GalleryViews.IndexOfUnique | apps/gallery/views.py:103-111 | with unique ids each image is found at its own position |
| GalleryViews.RelatedImages | apps/gallery/views.py:96-100 | present exactly when the image has a category: other active images of it, as many as exist up to twelve, in the default order, each at most as often as it occurs |
| GalleryViews.NavigationList | apps/gallery/views.py:103-105 | every active image exactly once per row, in the default order |
| GalleryViews.GalleryDetailPage | apps/gallery/views.py:86-111 | the page exists exactly when an active image has the id; it is in the navigation list, with its related images and neighbours |
| GalleryViews.NavigationEnds | apps/gallery/views.py:103-111 | the first image has no previous and the last has no next |
| BlogViews.NewerPostFirst | apps/blog/views.py:16-24 | newer posts come first, and an unpublished date sorts before dated posts |
| BlogViews.BlogList | apps/blog/views.py:16-24 | exactly the published posts of the chosen category, newest first |
| BlogViews.ListCategories | apps/blog/views.py:26-29 | the list page's categories are exactly the active ones, in table order since the model declares no ordering |
| BlogViews.RelatedPosts | apps/blog/views.py:42-49 | up to three other published posts of the same category, newest first, each at most as often as it occurs, fewer only when no more exist |
| BlogViews.BlogDetailPage | apps/blog/views.py:39-49 | the page exists exactly when a published post has the slug, and shows its related posts |
| BlogViews.UnpublishedHasNoPage | apps/blog/views.py:39-40 | an unpublished post with a unique slug has no page |
| Users.OwnBookings | apps/users/views.py:86-91 | exactly the bookings linked to the account or placed under its e-mail address |
| Users.DashboardContext | apps/users/views.py:82-99 | the user's bookings newest first, with status counts that add up to at most the total |
| Users.HistoryContext | apps/users/views.py:127-145 | the user's bookings with the chosen status, newest first |
| Users.HistoryMatchesDashboardCount | apps/users/views.py:127-145 | filtering the history by a status shows as many bookings as the dashboard counts for it |
| Users.HistoryWithoutStatusIsDashboard | apps/users/views.py:127-145 | with no status the history shows exactly the dashboard's bookings |
| Users.FullName | apps/users/models.py:44-49 | first and last name when both are set, otherwise the user name |
| Users.FullNameShape | apps/users/models.py:44-49 | a user with a user name always has a non-empty full name |
| Users.BookingCountAtMostDashboard | apps/users/models.py:51-55 | the profile's booking count (bookings linked to the account) never exceeds the dashboard total, which also counts bookings under the account's e-mail address |
| Users.ProfileTable.UserSaved | apps/users/models.py:58-69 | creating a user creates its profile, which fails only if it already exists; saving a user keeps its profile |
| SiteCore.DefaultSettings | apps/core/models.py:13-43 | the singleton's defaults (contact e-mail, WhatsApp number, empty Facebook link) |
| SiteCore.SettingsTable.Save | apps/core/models.py:55-58 | every save writes row 1, so the table holds exactly that row |
| SiteCore.SettingsTable.Load | apps/core/models.py:60-64 | load returns row 1, creating it with defaults only when missing |
| SiteCore.SettingsTable.AtMostOneRow | apps/core/admin.py:13-15 | the table never holds more than one row |
| SiteCore.HasDeletePermission | apps/core/admin.py:17-19 | the settings can never be deleted |
| SiteCore.LoadTwice | apps/core/models.py:60-64 | loading twice gives the same settings, and adding is then refused |
| SiteCore.ParseSubject | apps/core/models.py:70-76 | a subject code parses exactly to the subject it names |
| SiteCore.ParseContactStatus | apps/core/models.py:77-82 | a status code parses exactly to the status it names |
| SiteCore.NewContactMessage | apps/core/models.py:67-105 | a new message is new, unread, without notes, and keeps its subject and text |
| SiteCore.ContactAdminList | apps/core/admin.py:68-69 | the admin list holds every message once, newest first |
| AdminDashboard.DayStart | apps/core/admin_context.py:40-44 | the start of today is the latest midnight not after now |
| AdminDashboard.RevenueSplit | apps/core/admin_context.py:61-63 | the revenue is the confirmed total plus the completed total |
| AdminDashboard.SumPricesNonNegative | apps/core/admin_context.py:61-63 | revenue is never negative when prices are not |
| AdminDashboard.BookingSection | apps/core/admin_context.py:50-67 | the counts per status and window, which nest (today ≤ 7 days ≤ 30 days ≤ all); revenue is the sum of the confirmed and completed totals and is never negative when no total is; the notification counts the week's pending bookings |
| AdminDashboard.ContactSection | apps/core/admin_context.py:69-82 | the message counts per status and window (today within the last 7 days within all); new unread and read messages add up to at most the total; the notification counts the new unread ones |
| AdminDashboard.ReviewSection | apps/core/admin_context.py:84-97 | the review counts per window (today within the last 7 days within all); pending and approved reviews add up to exactly the total; the notification counts the pending ones |
| AdminDashboard.ContentSection | apps/core/admin_context.py:99-116 | each content count is the number of active tours, excursions, activities, transfers and images, published posts and active users |
| AdminDashboard.AdminDashboardStats | apps/core/admin_context.py:15-129 | only staff on admin pages get a context; the stats are exactly the booking, contact and review sections of the tables that exist plus the content counts; each notification key is its own section's count; their total is the sum, and the notification list is absent exactly when it is zero |
| AdminDashboard.NothingToNotify | apps/core/admin_context.py:118-129 | with nothing pending, unread or unapproved there are no notifications |
| EnvValidator.LeadCount | deployment/validate-env.py:101 | the number of leading whitespace characters |
| EnvValidator.TrailCount | deployment/validate-env.py:101 | the number of trailing whitespace characters |
| EnvValidator.Strip | deployment/validate-env.py:101 | the stripped line is the inner slice, with no whitespace at either end |
| EnvValidator.StripNoOp | deployment/validate-env.py:101 | a line with no whitespace at either end strips to itself |
| EnvValidator.ParseLine | deployment/validate-env.py:101-103 | a non-empty, non-comment line holding `=` splits at its first `=` |
| EnvValidator.ParseLineRoundTrip | deployment/validate-env.py:101-103 | a `key=value` line parses back to its key and value |
| EnvValidator.ApplyLine | deployment/validate-env.py:94-107 | other lines leave the environment alone; an empty key stops the load; otherwise the key takes the value |
| EnvValidator.StopIsFinal | deployment/validate-env.py:94-107 | once a line stops the load, later lines cannot resume it |
| EnvValidator.LoadEnv | deployment/validate-env.py:94-107 | the loop's result is the lines applied in turn |
| EnvValidator.LastLineWins | deployment/validate-env.py:94-107 | a key takes the value of the last line that sets it |
| EnvValidator.UnsetKeyKept | deployment/validate-env.py:94-107 | a key no line sets keeps its inherited value |
| EnvValidator.CheckEnvVariableAsWritten | deployment/validate-env.py:40-55 | as written, a set variable passes and an unset one returns its `required` flag |
| EnvValidator.CheckEnvVariable | deployment/validate-env.py:40-55 | corrected: a variable passes exactly when it is set |
| EnvValidator.CheckVersionsDiffer | deployment/validate-env.py:40-55 | the two versions disagree exactly on a required variable that is unset |
| EnvValidator.FlaggedMembers | deployment/validate-env.py:115-140 | exactly one message per failing item, and nothing when no item fails |
| EnvValidator.AppendFlagged | deployment/validate-env.py:77-88 | the loop appends the flagged items' messages in order |
| EnvValidator.SettingWarnings | deployment/validate-env.py:146-165 | a DEBUG warning exactly when DEBUG is not false, and a warning when the allowed hosts include localhost |
| EnvValidator.Run | deployment/validate-env.py:57-216 | the run stops only when the `.env` load stops; a finished run exits 0 exactly when there are no errors |
| EnvValidator.Validate | deployment/validate-env.py:57-216 | the imperative `main` computes `Run` |
| EnvValidator.CheckVariables | deployment/validate-env.py:115-126 | the errors are the earlier errors followed by one per missing required variable |
| EnvValidator.CollectWarnings | deployment/validate-env.py:129-165 | the warnings in the script's order |
| EnvValidator.MissingRequiredUnreported | deployment/validate-env.py:115-126 | as written, removing a required variable other than SECRET_KEY adds no error |
| EnvValidator.MissingRequiredReported | deployment/validate-env.py:115-126 | corrected: a missing required variable is reported and fails the run |
| EnvValidator.MissingOptionalWarned | deployment/validate-env.py:129-140 | a missing optional variable is warned about |
| EnvValidator.WarningsDoNotFail | deployment/validate-env.py:198-216 | only errors decide the exit code |
| EnvValidator.DebugWarning | deployment/validate-env.py:146-151 | an unset DEBUG warns; `FALSE` in any case does not |
| EnvValidator.WeakSecretKeyFails | deployment/validate-env.py:154-159 | a SECRET_KEY under 50 characters is an error and fails the run |
| EnvValidator.MissingDbNamePasses | deployment/validate-env.py:40-55 | a `.env` lacking DB_NAME exits 0 as written and 1 when corrected |
| SeedData.MissingTables | apps/core/management/commands/create_test_data.py:73-83 | exactly the required tables the database lacks |
| SeedData.HandleSteps | apps/core/management/commands/create_test_data.py:64-136 | no step runs when a table is missing; otherwise every step runs, clearing exactly when asked, with reviews just before bookings |
| SeedData.PrecheckDecides | apps/core/management/commands/create_test_data.py:73-83 | the command does nothing exactly when a required table is missing |
| SeedData.NatToString | apps/core/management/commands/create_test_data.py:515 | the decimal text of a counter is digits and reads back as the counter |
| SeedData.Candidate | apps/core/management/commands/create_test_data.py:515 | a candidate slug extends the base slug |
| SeedData.CandidateInjective | apps/core/management/commands/create_test_data.py:510-516 | different counters give different candidates |
| SeedData.CandidatesBelowSize | apps/core/management/commands/create_test_data.py:510-516 | the candidates tried before counter c are c - 1 distinct slugs |
| SeedData.TriedAllTaken | apps/core/management/commands/create_test_data.py:510-516 | the counter never exceeds the number of taken slugs, so the loop ends |
| SeedData.UniqueSlug | apps/core/management/commands/create_test_data.py:510-516 | the slug is free; it is the base when that is free, else the base with a counter |
| SeedData.Hyphenate | apps/core/management/commands/create_test_data.py:222 | spaces become hyphens and nothing else changes |
| SeedData.SliceEnd | apps/core/management/commands/create_test_data.py:220 | the end of `data[:count]`, counting negative counts from the end |
| SeedData.LocationsAfterProps | apps/core/management/commands/create_test_data.py:207-232 | existing locations are kept, every processed slug exists, and new rows come from the data |
| SeedData.LocationsRerunNoOp | apps/core/management/commands/create_test_data.py:207-232 | when every slug exists, nothing is created |
| SeedData.LocationsIdempotent | apps/core/management/commands/create_test_data.py:207-232 | running the location step twice is running it once |
| SeedData.LocationTable.CreateLocations | apps/core/management/commands/create_test_data.py:207-232 | the loop's result is the `get_or_create` fold over the first `count` locations |
| SeedData.SeedReviews | apps/core/management/commands/create_test_data.py:820-842 | one review per draw when there is an item to review, rated 3 to 5, about a listed item |
| SeedData.SeededBookingsPriced | apps/core/management/commands/create_test_data.py:844-878 | each seeded booking is priced as the tour price times its participants |
| SeedData.SeededPaymentsCount | apps/core/management/commands/create_test_data.py:844-878 | there are exactly as many seeded payments as confirmed or completed seeded bookings |
| SeedData.SeededPaymentsMatch | apps/core/management/commands/create_test_data.py:868-876 | every seeded payment succeeded and is for the total of a confirmed or completed seeded booking |
| SeedData.SaveSeedBooking | apps/core/management/commands/create_test_data.py:856-866 | the create stores exactly the seeded record, or nothing when its code is taken |
| SeedData.CreateSeedBooking | apps/core/management/commands/create_test_data.py:844-878 | a stored booking is the seeded record, with its payment when paid; on failure no payment is added, and the table is unchanged or, when only the payment failed, holds the new booking |
| SeedData.CreateBookingsSeed | apps/core/management/commands/create_test_data.py:844-878 | the loop stores the seeded records and payments in order; with no tours it changes nothing; a failure keeps the bookings and payments of the earlier draws, plus the failing draw's booking when only its payment failed |
| ClientScripts.JsRem | staticfiles/js/main.js:153 | JavaScript `%`: a remainder with the dividend's sign, below the divisor in size |
| ClientScripts.WrapInRange | staticfiles/js/main.js:152-160 | next and previous stay in range and wrap around at the ends |
| ClientScripts.WrapPrevNext | staticfiles/js/main.js:152-160 | previous undoes next and next undoes previous |
| ClientScripts.HeroSlider.GoToSlide | staticfiles/js/main.js:146-150 | exactly the chosen slide is active afterwards |
| ClientScripts.HeroSlider.NextSlide | staticfiles/js/main.js:152-155 | moves to the next slide, wrapping, with exactly that slide active |
| ClientScripts.HeroSlider.PrevSlide | staticfiles/js/main.js:157-160 | moves to the previous slide, wrapping, with exactly that slide active |
| ClientScripts.SlideForthAndBack | staticfiles/js/main.js:152-160 | next then previous returns to the same slide |
| ClientScripts.RemoveAll | staticfiles/js/main.js:219-222 | removes every copy of the id and keeps every other id |
| ClientScripts.RemoveAllAppend | staticfiles/js/main.js:219-222 | removal distributes over concatenation |
| ClientScripts.Toggled | staticfiles/js/main.js:204-212 | the id is saved afterwards exactly when it was not saved before; other ids are kept |
| ClientScripts.ToggleTwice | staticfiles/js/main.js:204-212 | toggling twice restores an unsaved id's list, and moves a saved id to the end |
| ClientScripts.Wishlist.constructor | staticfiles/js/main.js:184-187 | starts from the stored list, or empty when nothing is stored |
| ClientScripts.Wishlist.InitButtons | staticfiles/js/main.js:189-202 | a button is active exactly when its id is saved |
| ClientScripts.Wishlist.Add | staticfiles/js/main.js:214-217 | appends the id |
| ClientScripts.Wishlist.Remove | staticfiles/js/main.js:219-222 | removes every copy of the id |
| ClientScripts.Wishlist.Toggle | staticfiles/js/main.js:204-212 | the list is toggled and the button shows whether the id is now saved |
| ClientScripts.AccordionAfter | staticfiles/js/main.js:276-290 | after a click only the clicked item may be open, and only if it was closed |
| ClientScripts.AccordionAtMostOne | staticfiles/js/main.js:276-290 | at most one item is open; exactly one when a closed item was clicked |
| ClientScripts.AccordionClick | staticfiles/js/main.js:276-290 | the click handler updates the items as `AccordionAfter` says |
| ClientScripts.VisibilityIgnoresPriceAndRating | staticfiles/js/main.js:377-394 | a card shows exactly when no category is selected or its category is selected; price and rating do not matter |
| ClientScripts.SelectingMoreShowsMore | staticfiles/js/main.js:389-391 | selecting another category never hides a shown card |
| ClientScripts.FilterSystem.UpdateFilters | staticfiles/js/main.js:371-375 | the selected categories are the checked boxes |
| ClientScripts.FilterSystem.ApplyFilters | staticfiles/js/main.js:377-394 | each card is displayed exactly when it is visible under the selection |
| ClientScripts.RaiseTo | staticfiles/js/main.js:412-415 | the maximum is raised to the new minimum when below it |
| ClientScripts.LowerTo | staticfiles/js/main.js:422-425 | the minimum is lowered to the new maximum when above it |
| ClientScripts.PriceRange.MinInput | staticfiles/js/main.js:409-417 | the minimum takes the input, and the maximum never ends below it |
| ClientScripts.PriceRange.MaxInput | staticfiles/js/main.js:419-427 | the maximum takes the input, and the minimum never ends above it |
| ClientScripts.TextOrEmpty | js/gallery.js:16-17 | missing text becomes the empty string |
| ClientScripts.GalleryLightbox.constructor | js/gallery.js:4-9 | one lightbox entry per gallery item, in order, closed at index 0; the state is valid: index 0 with no images, an image's index otherwise, and an open lightbox shows an image |
| ClientScripts.GalleryLightbox.Init | js/gallery.js:11-30 | appends one entry per item, in order; the state stays valid |
| ClientScripts.GalleryLightbox.OpenLightbox | js/gallery.js:61-66 | opens at the chosen image; the state stays valid |
| ClientScripts.GalleryLightbox.CloseLightbox | js/gallery.js:68-71 | closes the lightbox and keeps the index; the state stays valid |
| ClientScripts.GalleryLightbox.NextImage | js/gallery.js:78-81 | moves to the next image, wrapping; the state stays valid |
| ClientScripts.GalleryLightbox.PrevImage | js/gallery.js:73-76 | moves to the previous image, wrapping; the state stays valid |
| ClientScripts.FilterShowsCategory | js/gallery.js:116-132 | `all` shows every image; another filter shows exactly the images of that category |
| ClientScripts.GalleryFilter.FilterImages | js/gallery.js:116-132 | each image is shown exactly when the filter admits its category |
| ClientScripts.GalleryFilter.UpdateActiveButton | js/gallery.js:134-139 | exactly the clicked button is active |

## Left out

- Pagination (`paginate_by`) is not modelled. The lists are the full querysets.
- Floating-point values are not modelled. Ratings averages are (sum, count) pairs, and admin revenue is integer cents.
- Prices are integer cents.
- `Common.ParseInt`, and through it `Reviews.ResolveTarget`: only an optional sign followed by ASCII digits converts. Python's `int()` also accepts surrounding whitespace (`" 5"`), underscores between digits (`"1_0"`) and non-ASCII decimal digits. The model rejects these, so `ResolveTarget` answers "not found" where the site would find the object.
- `Common.ParseDecimal`: a price parameter converts when it is an optional sign, digits and at most one point. The exponent, whitespace, underscore and special-value forms that Python's `Decimal` also accepts are treated as bad parameters.
- Text sort keys compare by code point (`Ordering.StrLt`), not by the database collation.
- A descending sort on a date that can be missing puts the rows without a date first, as PostgreSQL does. SQLite, which the settings select when DEBUG is set, puts them last.
- Ties in `order_by` keep input order. The database leaves that order unspecified.
- Case-insensitive search lower-cases ASCII letters only. `Strip` treats only ASCII and Latin-1 whitespace as space.
- `TourViews.TourList`: only `created_at`, `price` and `title` (optionally with `-`) are valid `sort` values; any other field name is an error parameter, rather than each column of the model.
- `Bookings.InquiryErrors` and `Reviews.ReviewErrors`: the e-mail validator's verdict is an input (`emailValid`), and the text fields are the values after the form strips surrounding whitespace. Neither the validator nor the stripping is modelled.
- `Bookings.InquiryErrors`: `clean_date` rejects only dates before today, so today is accepted. That follows the code, not the form's "future date" message.
- Bookings: the `Booking` model has a non-null `tour` foreign key and no `user` field, while the form assigns an excursion, activity or transfer and the views filter by user. The model follows the form, with the booked item as a sum type and an optional user.
- Payments are keyed by the booking's confirmation code.
- `SiteCore.DefaultSettings`: the site settings keep the name, phone, e-mail, WhatsApp and Facebook fields. The other fields are not modelled: title, description, keywords, logo, address, the other social links, opening hours, footer, copyright and SEO. They hold only display text and images.
- The Stripe checkout and webhook views are not modelled. They call a network API.
- `deployment/validate-env.py`: printing and colours are not modelled. The interpreter's version is not read: whether it is at least 3.11 is the input flag `Host.pythonAtLeast311`, which decides the "Python version" error. The file and directory checks read sets of existing paths.
- `create_test_data`:
  - Faker, `random`, `uuid` and the clock are inputs (draws).
  - Image files and the steps that only insert fixed rows (categories, hero slides, page heroes, gallery, blog, tours and the other catalogue items) are not modelled beyond the slug loop they share.
  - `slugify` of the title is an input to `UniqueSlug`.
- `SeedData.SeedReviews`: the model states rating bounds and targets but not the Faker-drawn names and texts.
- Client scripts:
  - the DOM, CSS classes, timers (autoplay, fade delays), scrolling and animations are not modelled;
  - `localStorage` is an input to the wishlist, and a malformed stored JSON value is not modelled.
- `ClientScripts.GalleryLightbox.NextImage`: with no images, JavaScript computes NaN. The model requires an open, valid image instead.
- `ClientScripts.PriceRange.MinInput`: input values are integers (`parseInt`), and the displayed text is the same number.
- The Django admin's list and form configuration, templates, the i18n middleware and settings are not modelled. They are configuration only.

## Findings

| source | as written | input that shows it | evidently intended | confidence | as-written member | corrected member |
|---|---|---|---|---|---|---|
| deployment/validate-env.py:40-55 | `check_env_variable` returns `required` (True) for an unset required variable, so no error is recorded | a `.env` with every other variable set and no `DB_NAME`: the script exits 0 | an unset required variable is an error and the exit code is 1 | high; not executed | EnvValidator.MissingDbNamePasses | EnvValidator.MissingRequiredReported |
| apps/excursions/models.py:91-102 | `average_rating` and `review_count` read `self.reviews`, but `Excursion` declares no reviews relation, unlike `Tour` and `Activity` | any active excursion's detail page: building the context raises AttributeError | the excursion figures cover its approved reviews, 0 when there is none | high; not executed | ExcursionViews.ExcursionDetailFailsAsWritten | ExcursionViews.ExcursionPageAverageZeroIffUnreviewed |
