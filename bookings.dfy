/** Booking inquiries and the booking records they create.

    A booking refers to exactly one of a tour, an excursion, an activity or a
    transfer; the inquiry form decides which by a fixed precedence and prices the
    booking from the chosen item. Saving a booking gives it an `AE-XXXXXXXX`
    confirmation code when it has none; codes are unique in the table. */
module Bookings {
  import opened Common
  import opened Catalogue

  // ---------------------------------------------------------------- statuses

  datatype Status = Pending | Confirmed | Cancelled | Completed

  /** The stored value of each status choice. */
  function StatusCode(s: Status): string
  {
    match s
    case Pending => "pending"
    case Confirmed => "confirmed"
    case Cancelled => "cancelled"
    case Completed => "completed"
  }

  function ParseStatus(code: string): (r: Option<Status>)
    ensures r.Some? ==> StatusCode(r.value) == code
  {
    if code == "pending" then Some(Pending)
    else if code == "confirmed" then Some(Confirmed)
    else if code == "cancelled" then Some(Cancelled)
    else if code == "completed" then Some(Completed)
    else None
  }

  /** Every status is stored under its own code, and only the four codes parse. */
  lemma StatusCodeRoundTrip(s: Status, code: string)
    ensures ParseStatus(StatusCode(s)) == Some(s)
    ensures ParseStatus(code).None? <==> code !in {"pending", "confirmed", "cancelled", "completed"}
  {
  }

  // ---------------------------------------------------------------- the booked item

  datatype BookedItem =
    | TourItem(tour: Tour)
    | ExcursionItem(excursion: Excursion)
    | ActivityItem(activity: Activity)
    | TransferItem(transfer: Transfer)

  /** The item the form books: a tour if one was supplied, else an excursion, else
      an activity, else a transfer; none when nothing was supplied. */
  function ChooseItem(tour: Option<Tour>, excursion: Option<Excursion>,
                      activity: Option<Activity>, transfer: Option<Transfer>): (r: Option<BookedItem>)
    ensures r.None? <==> tour.None? && excursion.None? && activity.None? && transfer.None?
    ensures tour.Some? ==> r == Some(TourItem(tour.value))
    ensures r.Some? && r.value.ExcursionItem? ==> tour.None? && excursion == Some(r.value.excursion)
    ensures r.Some? && r.value.ActivityItem? ==> tour.None? && excursion.None? && activity == Some(r.value.activity)
    ensures r.Some? && r.value.TransferItem? ==>
      tour.None? && excursion.None? && activity.None? && transfer == Some(r.value.transfer)
  {
    if tour.Some? then Some(TourItem(tour.value))
    else if excursion.Some? then Some(ExcursionItem(excursion.value))
    else if activity.Some? then Some(ActivityItem(activity.value))
    else if transfer.Some? then Some(TransferItem(transfer.value))
    else None
  }

  /** The total the form charges for `persons` people. */
  function ItemTotal(item: BookedItem, persons: int): (r: int)
    ensures item.TourItem? ==> r == item.tour.price * persons
    ensures item.ExcursionItem? ==> r == item.excursion.price * persons
    ensures item.ActivityItem? ==> r == item.activity.price * persons
  {
    match item
    case TourItem(t) => t.price * persons
    case ExcursionItem(e) => e.price * persons
    case ActivityItem(a) => a.price * persons
    case TransferItem(t) =>
      if t.pricePerPerson then TransferDisplayPrice(t) * persons else TransferDisplayPrice(t)
  }

  /** Tours, excursions and activities are charged at their base price: an
      activity's discount price never changes the total. */
  lemma ActivityDiscountIgnored(a: Activity, d: Option<int>, persons: int)
    ensures ItemTotal(ActivityItem(a), persons) == ItemTotal(ActivityItem(a.(discountPrice := d)), persons)
  {
  }

  /** An excursion shown as discounted charges every booking of one or more
      persons less than its original price would; one not shown as discounted
      charges at least that much. */
  lemma ExcursionDiscountLowersTotal(e: Excursion, persons: int)
    requires persons >= 1 && e.originalPrice.Some?
    ensures ExcursionHasDiscount(e) <==> ItemTotal(ExcursionItem(e), persons) < e.originalPrice.value * persons
  {
  }

  /** A transfer is charged its displayed price, once per vehicle or once per person. */
  lemma TransferTotal(t: Transfer, persons: int, more: int)
    ensures !t.pricePerPerson ==> ItemTotal(TransferItem(t), persons) == ItemTotal(TransferItem(t), more)
    ensures t.pricePerPerson ==> ItemTotal(TransferItem(t), persons) == TransferDisplayPrice(t) * persons
    ensures ItemTotal(TransferItem(t), 1) == TransferDisplayPrice(t)
  {
  }

  /** A non-zero transfer discount is what the booking charges. */
  lemma TransferChargedAtDiscount(t: Transfer, persons: int)
    requires t.discountPrice.Some? && t.discountPrice.value != 0
    ensures ItemTotal(TransferItem(t), persons) ==
      (if t.pricePerPerson then t.discountPrice.value * persons else t.discountPrice.value)
  {
  }

  // ---------------------------------------------------------------- the inquiry form

  /** The submitted fields, already converted to their types (a date as a day
      number). The text fields hold the values after the form strips surrounding
      whitespace; `emailValid` is the framework email validator's verdict on a
      non-empty address. */
  datatype Inquiry = Inquiry(
    date: Option<int>, persons: Option<int>,
    name: string, email: string, emailValid: bool, phone: string, specialRequests: string)

  datatype InquiryField = DateField | PersonsField | NameField | EmailField | PhoneField

  /** `clean_date`: only a day before today is refused; today is accepted. */
  predicate DateAccepted(date: int, today: int)
  {
    !(date < today)
  }

  /** The fields the form reports as invalid, in declaration order. */
  function InquiryErrors(inq: Inquiry, today: int): (errs: seq<InquiryField>)
    ensures DateField in errs <==> inq.date.None? || inq.date.value < today
    ensures PersonsField in errs <==> inq.persons.None? || !(1 <= inq.persons.value <= 50)
    ensures NameField in errs <==> inq.name == "" || |inq.name| > 200
    ensures EmailField in errs <==> inq.email == "" || !inq.emailValid
    ensures PhoneField in errs <==> inq.phone == "" || |inq.phone| > 50
    ensures |errs| <= 5
  {
    PrependIf(inq.date.None? || !DateAccepted(inq.date.value, today), DateField,
    PrependIf(inq.persons.None? || !(1 <= inq.persons.value <= 50), PersonsField,
    PrependIf(inq.name == "" || |inq.name| > 200, NameField,
    PrependIf(inq.email == "" || !inq.emailValid, EmailField,
    PrependIf(inq.phone == "" || |inq.phone| > 50, PhoneField, [])))))
  }

  /** A valid inquiry has a date of today or later and between 1 and 50 persons. */
  lemma ValidInquiryBounds(inq: Inquiry, today: int)
    requires InquiryErrors(inq, today) == []
    ensures inq.date.Some? && inq.date.value >= today
    ensures inq.persons.Some? && 1 <= inq.persons.value <= 50
  {
    assert DateField !in InquiryErrors(inq, today);
    assert PersonsField !in InquiryErrors(inq, today);
  }

  // ---------------------------------------------------------------- confirmation codes

  predicate IsLowerHexDigit(c: char) { '0' <= c <= '9' || 'a' <= c <= 'f' }

  predicate IsUpperHexDigit(c: char) { '0' <= c <= '9' || 'A' <= c <= 'F' }

  function UpperChar(c: char): char
  {
    if 'a' <= c <= 'z' then (c as int - 32) as char else c
  }

  function Upper(s: string): (r: string)
    ensures |r| == |s|
    ensures forall i :: 0 <= i < |s| ==> r[i] == UpperChar(s[i])
  {
    if s == [] then [] else [UpperChar(s[0])] + Upper(s[1..])
  }

  /** `uuid4().hex`: 32 lower-case hexadecimal digits. */
  predicate IsUuidHex(hex: string)
  {
    |hex| == 32 && forall i :: 0 <= i < |hex| ==> IsLowerHexDigit(hex[i])
  }

  /** `f"AE-{hex[:8].upper()}"` */
  function ConfirmationCode(hex: string): (r: string)
    requires IsUuidHex(hex)
    ensures |r| == 11 && r[..3] == "AE-"
    ensures forall i :: 3 <= i < 11 ==> IsUpperHexDigit(r[i])
  {
    "AE-" + Upper(hex[..8])
  }

  /** Two identifiers give the same code exactly when their first eight digits agree,
      so the code keeps 32 of the identifier's 128 bits. */
  lemma ConfirmationCodeCollision(h1: string, h2: string)
    requires IsUuidHex(h1) && IsUuidHex(h2)
    ensures ConfirmationCode(h1) == ConfirmationCode(h2) <==> h1[..8] == h2[..8]
  {
    if ConfirmationCode(h1) == ConfirmationCode(h2) {
      forall i | 0 <= i < 8 ensures h1[i] == h2[i] {
        assert ConfirmationCode(h1)[3 + i] == ConfirmationCode(h2)[3 + i];
        assert Upper(h1[..8])[i] == UpperChar(h1[i]);
      }
      assert h1[..8] == h2[..8];
    }
  }

  // ---------------------------------------------------------------- the booking record

  /** The stored columns of a booking row. */
  datatype BookingRecord = BookingRecord(
    customerName: string, customerEmail: string, customerPhone: string,
    bookingDate: int, participants: int, specialRequests: string,
    item: BookedItem, totalPrice: int, status: Status,
    confirmationCode: string, user: Option<nat>, createdAt: int)

  /** A booking instance, before and after it is saved. */
  class Booking {
    var customerName: string
    var customerEmail: string
    var customerPhone: string
    var bookingDate: int
    var participants: int
    var specialRequests: string
    var item: Option<BookedItem>
    var totalPrice: Option<int>
    var status: Status
    var confirmationCode: string
    var user: Option<nat>
    var createdAt: int

    /** A new instance carries the column defaults: one participant, status
        pending, blank notes and no confirmation code. */
    constructor (createdAt: int)
      ensures participants == 1 && status == Pending && confirmationCode == ""
      ensures specialRequests == "" && item == None && totalPrice == None && user == None
      ensures customerName == "" && customerEmail == "" && customerPhone == ""
      ensures this.createdAt == createdAt
    {
      customerName, customerEmail, customerPhone := "", "", "";
      bookingDate := 0;
      participants := 1;
      specialRequests := "";
      item, totalPrice := None, None;
      status := Pending;
      confirmationCode := "";
      user := None;
      this.createdAt := createdAt;
    }

    /** The row `save` writes; the item and the total are NOT NULL columns. */
    function Record(): (r: Option<BookingRecord>)
      reads this
      ensures r.Some? <==> item.Some? && totalPrice.Some?
    {
      if item.Some? && totalPrice.Some? then
        Some(BookingRecord(customerName, customerEmail, customerPhone, bookingDate, participants,
                           specialRequests, item.value, totalPrice.value, status,
                           confirmationCode, user, createdAt))
      else None
    }

    /** The instance `BookingInquiryForm.save` prepares: the customer fields as
        submitted, the chosen item at its total for the persons, status pending. */
    method TakeInquiry(inq: Inquiry, chosen: Option<BookedItem>)
      requires inq.date.Some? && inq.persons.Some?
      modifies this
      ensures customerName == inq.name && customerEmail == inq.email && customerPhone == inq.phone
      ensures bookingDate == inq.date.value && participants == inq.persons.value
      ensures specialRequests == inq.specialRequests && item == chosen && status == Pending
      ensures chosen.Some? ==> totalPrice == Some(ItemTotal(chosen.value, inq.persons.value))
      ensures chosen.None? ==> totalPrice == old(totalPrice)
      ensures confirmationCode == old(confirmationCode)
    {
      specialRequests := inq.specialRequests;
      customerName := inq.name;
      customerEmail := inq.email;
      customerPhone := inq.phone;
      bookingDate := inq.date.value;
      participants := inq.persons.value;
      item := chosen;
      if chosen.Some? {
        totalPrice := Some(ItemTotal(chosen.value, participants));
      }
      status := Pending;
    }

    /** The columns `Booking.objects.create(...)` is given. */
    method SetColumns(name: string, email: string, phone: string, date: int, persons: int,
                      requests: string, booked: BookedItem, total: int, st: Status)
      modifies this
      ensures Record() == Some(BookingRecord(name, email, phone, date, persons, requests, booked, total, st,
                                             old(confirmationCode), old(user), old(createdAt)))
    {
      customerName, customerEmail, customerPhone := name, email, phone;
      bookingDate, participants, specialRequests := date, persons, requests;
      item, totalPrice, status := Some(booked), Some(total), st;
    }

    /** The first half of `save`: a blank confirmation code is replaced by a fresh
        one; a code already present is kept. */
    method AssignCode(hex: string)
      requires IsUuidHex(hex)
      modifies this`confirmationCode
      ensures old(confirmationCode) != "" ==> confirmationCode == old(confirmationCode)
      ensures old(confirmationCode) == "" ==> confirmationCode == ConfirmationCode(hex)
    {
      if confirmationCode == "" {
        confirmationCode := ConfirmationCode(hex);
      }
    }
  }

  predicate CodesUnique(rows: seq<BookingRecord>)
  {
    forall i, j :: 0 <= i < j < |rows| ==> rows[i].confirmationCode != rows[j].confirmationCode
  }

  predicate CodeTaken(rows: seq<BookingRecord>, code: string)
  {
    exists i :: 0 <= i < |rows| && rows[i].confirmationCode == code
  }

  datatype SaveOutcome = Saved | IntegrityError

  /** The booking table. */
  class BookingStore {
    var rows: seq<BookingRecord>

    predicate Valid()
      reads this
    {
      CodesUnique(rows)
    }

    constructor ()
      ensures rows == [] && Valid()
    {
      rows := [];
    }

    /** `Booking.save` for a new booking: assign the code when blank, then insert.
        The insert fails, changing no row, when the code is already taken or the
        booking has no item or no total; nothing retries with another code. */
    method Save(b: Booking, hex: string) returns (outcome: SaveOutcome)
      requires Valid() && IsUuidHex(hex)
      modifies this, b`confirmationCode
      ensures Valid()
      ensures old(b.confirmationCode) != "" ==> b.confirmationCode == old(b.confirmationCode)
      ensures old(b.confirmationCode) == "" ==> b.confirmationCode == ConfirmationCode(hex)
      ensures outcome == Saved <==> b.Record().Some? && !CodeTaken(old(rows), b.confirmationCode)
      ensures outcome == Saved ==> rows == old(rows) + [b.Record().value]
      ensures outcome == IntegrityError ==> rows == old(rows)
    {
      b.AssignCode(hex);
      var rec := b.Record();
      if rec.None? || CodeTaken(rows, b.confirmationCode) {
        outcome := IntegrityError;
      } else {
        rows := rows + [rec.value];
        outcome := Saved;
      }
    }
  }

  /** `BookingInquiryForm.save(commit)`: copy the customer fields, book the item
      chosen by precedence at its price, force the status to pending and, when
      committing, save through the store. Without an item no item and no total
      are set, so a committing save fails. */
  method SaveInquiry(inq: Inquiry, tour: Option<Tour>, excursion: Option<Excursion>,
                     activity: Option<Activity>, transfer: Option<Transfer>,
                     commit: bool, store: BookingStore, hex: string, now: int)
    returns (b: Booking, outcome: Option<SaveOutcome>)
    requires inq.date.Some? && inq.persons.Some?
    requires store.Valid() && IsUuidHex(hex)
    modifies store
    ensures fresh(b) && store.Valid()
    ensures b.customerName == inq.name && b.customerEmail == inq.email && b.customerPhone == inq.phone
    ensures b.bookingDate == inq.date.value && b.participants == inq.persons.value
    ensures b.specialRequests == inq.specialRequests
    ensures b.item == ChooseItem(tour, excursion, activity, transfer)
    ensures b.item.Some? ==> b.totalPrice == Some(ItemTotal(b.item.value, inq.persons.value))
    ensures b.item.None? ==> b.totalPrice == None
    ensures b.status == Pending
    ensures !commit ==> outcome == None && store.rows == old(store.rows) && b.confirmationCode == ""
    ensures commit ==> outcome.Some? && b.confirmationCode == ConfirmationCode(hex)
    ensures commit ==> (outcome == Some(Saved) <==> b.item.Some? && !CodeTaken(old(store.rows), b.confirmationCode))
    ensures commit && outcome == Some(Saved) ==> store.rows == old(store.rows) + [b.Record().value]
    ensures commit && outcome == Some(IntegrityError) ==> store.rows == old(store.rows)
  {
    b := new Booking(now);
    b.TakeInquiry(inq, ChooseItem(tour, excursion, activity, transfer));
    if commit {
      var o := store.Save(b, hex);
      outcome := Some(o);
    } else {
      outcome := None;
    }
  }

  // ---------------------------------------------------------------- payments

  datatype PaymentStatus = PaymentPending | Processing | Succeeded | Failed | Refunded

  function PaymentStatusCode(s: PaymentStatus): string
  {
    match s
    case PaymentPending => "pending"
    case Processing => "processing"
    case Succeeded => "succeeded"
    case Failed => "failed"
    case Refunded => "refunded"
  }

  /** Distinct statuses are stored under distinct codes. */
  lemma PaymentStatusCodesDistinct(a: PaymentStatus, b: PaymentStatus)
    ensures PaymentStatusCode(a) == PaymentStatusCode(b) ==> a == b
  {
  }

  datatype Payment = Payment(
    booking: string, intentId: string, chargeId: string,
    amount: int, currency: string, status: PaymentStatus, paidAt: Option<int>)

  /** A new payment: currency EUR, status pending, no charge id, not yet paid. */
  function NewPayment(booking: string, intentId: string, amount: int): (p: Payment)
    ensures p.currency == "EUR" && p.status == PaymentPending && p.paidAt == None
    ensures p.booking == booking && p.intentId == intentId && p.amount == amount && p.chargeId == ""
  {
    Payment(booking, intentId, "", amount, "EUR", PaymentPending, None)
  }

  /** One payment per booking (keyed by its confirmation code), and unique intent ids. */
  predicate PaymentsValid(ps: seq<Payment>)
  {
    forall i, j :: 0 <= i < j < |ps| ==> ps[i].booking != ps[j].booking && ps[i].intentId != ps[j].intentId
  }

  /** Inserting a payment: refused when its booking already has one or its intent id is taken. */
  function AddPayment(ps: seq<Payment>, p: Payment): (r: Option<seq<Payment>>)
    ensures r.Some? <==> forall i :: 0 <= i < |ps| ==> ps[i].booking != p.booking && ps[i].intentId != p.intentId
    ensures r.Some? ==> r.value == ps + [p]
    ensures PaymentsValid(ps) && r.Some? ==> PaymentsValid(r.value)
  {
    if exists i :: 0 <= i < |ps| && (ps[i].booking == p.booking || ps[i].intentId == p.intentId) then None
    else Some(ps + [p])
  }
}
