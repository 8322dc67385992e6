/** Site-wide records: the single settings row with its admin permissions, and
    the contact messages with their choices, defaults and admin ordering. */
module SiteCore {
  import opened Common
  import opened Ordering

  // ---------------------------------------------------------------- settings

  /** The editable settings that hold contact data; the image fields and the
      free-text fields (title, address, footer) are left out. */
  datatype Settings = Settings(siteName: string, phone: string, email: string, whatsapp: string, facebookUrl: string)

  /** The column defaults a freshly created settings row carries. */
  function DefaultSettings(): (s: Settings)
    ensures s.email == "info@ausflugagypten.com" && s.whatsapp == "+201234567890"
    ensures s.facebookUrl == ""
  {
    Settings("AusflugÄgypten", "+20 123 456 7890", "info@ausflugagypten.com", "+201234567890", "")
  }

  /** The settings table, keyed by primary key. */
  class SettingsTable {
    var rows: map<nat, Settings>

    /** The singleton invariant: no row other than pk 1. */
    predicate Valid()
      reads this
    {
      forall k :: k in rows ==> k == 1
    }

    constructor ()
      ensures rows == map[] && Valid()
    {
      rows := map[];
    }

    /** `SiteSettings.save`: whatever instance is saved is written as row 1. */
    method Save(s: Settings)
      requires Valid()
      modifies this
      ensures Valid()
      ensures rows == map[1 := s]
      ensures !HasAddPermission()
    {
      rows := rows[1 := s];
      assert rows == map[1 := s];
      assert 1 in rows;
    }

    /** `SiteSettings.load`: get-or-create on pk 1. The first load creates the row
        with its defaults; later loads return it and create nothing. */
    method Load() returns (s: Settings)
      requires Valid()
      modifies this
      ensures Valid()
      ensures 1 in rows && s == rows[1]
      ensures 1 in old(rows) ==> rows == old(rows)
      ensures 1 !in old(rows) ==> rows == map[1 := DefaultSettings()]
    {
      if 1 !in rows {
        rows := rows[1 := DefaultSettings()];
        assert rows == map[1 := DefaultSettings()];
      }
      s := rows[1];
    }

    /** `SiteSettingsAdmin.has_add_permission`: only while the table is empty. */
    predicate HasAddPermission()
      reads this
    {
      rows == map[]
    }

    /** At most one settings row ever exists. */
    lemma AtMostOneRow()
      requires Valid()
      ensures |rows| <= 1
    {
      if rows != map[] {
        assert rows.Keys <= {1};
        assert rows.Keys == {1};
      }
    }
  }

  /** `SiteSettingsAdmin.has_delete_permission`: refused for any row or none. */
  function HasDeletePermission(obj: Option<Settings>): (r: bool)
    ensures !r
  {
    false
  }

  /** Two loads in a row: the second one finds the row the first created. */
  method LoadTwice(t: SettingsTable) returns (first: Settings, second: Settings)
    requires t.Valid()
    modifies t
    ensures first == second
    ensures |t.rows| == 1
    ensures !t.HasAddPermission()
  {
    first := t.Load();
    var afterFirst := t.rows;
    second := t.Load();
    assert t.rows == afterFirst;
    t.AtMostOneRow();
  }

  // ---------------------------------------------------------------- contact messages

  datatype Subject = TourBooking | GeneralInquiry | Complaint | OtherSubject
  datatype ContactStatus = New | Read | Replied | Archived

  function SubjectCode(s: Subject): string
  {
    match s
    case TourBooking => "tour_booking"
    case GeneralInquiry => "general_inquiry"
    case Complaint => "complaint"
    case OtherSubject => "other"
  }

  function ContactStatusCode(s: ContactStatus): string
  {
    match s
    case New => "new"
    case Read => "read"
    case Replied => "replied"
    case Archived => "archived"
  }

  /** A submitted subject value is accepted only when it is one of the four choices. */
  function ParseSubject(code: string): (r: Option<Subject>)
    ensures r.Some? ==> SubjectCode(r.value) == code
    ensures forall s :: SubjectCode(s) == code ==> r == Some(s)
  {
    if code == "tour_booking" then Some(TourBooking)
    else if code == "general_inquiry" then Some(GeneralInquiry)
    else if code == "complaint" then Some(Complaint)
    else if code == "other" then Some(OtherSubject)
    else None
  }

  function ParseContactStatus(code: string): (r: Option<ContactStatus>)
    ensures r.Some? ==> ContactStatusCode(r.value) == code
    ensures forall s :: ContactStatusCode(s) == code ==> r == Some(s)
  {
    if code == "new" then Some(New)
    else if code == "read" then Some(Read)
    else if code == "replied" then Some(Replied)
    else if code == "archived" then Some(Archived)
    else None
  }

  datatype ContactMessage = ContactMessage(
    id: nat, name: string, email: string, phone: string, subject: Subject, message: string,
    status: ContactStatus, isRead: bool, createdAt: int, adminNotes: string)

  /** A new message: status "new", unread, no admin notes. */
  function NewContactMessage(id: nat, name: string, email: string, phone: string, subject: Subject,
                             message: string, now: int): (m: ContactMessage)
    ensures m.status == New && !m.isRead && m.adminNotes == ""
    ensures m.createdAt == now && m.subject == subject && m.message == message
  {
    ContactMessage(id, name, email, phone, subject, message, New, false, now, "")
  }

  /** `ordering = ['-created_at']`, which the admin list also applies. */
  function ContactKey(m: ContactMessage): Key { [Num(-m.createdAt)] }

  /** `ContactMessageAdmin.get_queryset`: every message, newest first. */
  function ContactAdminList(msgs: seq<ContactMessage>): (r: seq<ContactMessage>)
    ensures multiset(r) == multiset(msgs)
    ensures forall i, j :: 0 <= i < j < |r| ==> r[i].createdAt >= r[j].createdAt
  {
    SortSorted(msgs, ContactKey);
    SortPermutes(msgs, ContactKey);
    var r := Sort(msgs, ContactKey);
    assert forall i, j :: 0 <= i < j < |r| ==> KeyLe(ContactKey(r[i]), ContactKey(r[j]));
    r
  }
}
