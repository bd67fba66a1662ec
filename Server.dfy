/**
 * The in-memory record store of the Express server: two append-only lists of
 * appointments and contact messages, the two POST handlers that validate,
 * normalise and append a submission, and the read-only views over the lists
 * (the list endpoints, the health counts and the admin dashboard's recent items).
 */
module Server {
  import opened Wrappers
  import Text

  /** A string field of a JSON request body; `None` is an omitted field or `null`. */
  type Field = Option<string>

  /** JavaScript truthiness of a string field: an absent field and "" are falsy. */
  predicate Truthy(f: Field)
  {
    f.Some? && f.value != ""
  }

  /** `f || fallback` */
  function OrElse(f: Field, fallback: string): string
  {
    if Truthy(f) then f.value else fallback
  }

  /** `f || null` */
  function OrNull(f: Field): Option<string>
  {
    if Truthy(f) then f else None
  }

  /** Body of POST /api/appointments. */
  datatype AppointmentBody = AppointmentBody(
    name: Field, email: Field, phone: Field, service: Field,
    date: Field, time: Field, message: Field)

  /** Body of POST /api/contact. */
  datatype ContactBody = ContactBody(
    name: Field, email: Field, phone: Field, service: Field, message: Field)

  /** A stored appointment; `id` comes from the millisecond clock, `createdAt` is an ISO time string. */
  datatype Appointment = Appointment(
    id: int, name: string, email: string, phone: string, service: string,
    preferredDate: Option<string>, preferredTime: Option<string>,
    message: string, status: string, createdAt: string)

  /** A stored contact message. */
  datatype Contact = Contact(
    id: int, name: string, email: string, phone: Option<string>,
    service: Option<string>, message: string, createdAt: string)

  const DefaultService: string := "General Consultation"
  const PendingStatus: string := "pending"

  const AppointmentRequired: string := "Name, email, and phone are required"
  const AppointmentSubmitted: string := "Appointment request submitted successfully! \U{1F389}"
  const ContactRequired: string := "Name, email, and message are required"
  const ContactSaved: string := "Thank you for your message! We'll get back to you within 24 hours. \U{1F4E7}"

  /** What a POST reply carries: HTTP status, `success`, `message`, and for a new appointment its summary. */
  datatype Summary = Summary(id: int, name: string, service: string)
  datatype Reply = Reply(status: int, success: bool, message: string, data: Option<Summary>)

  /** An e-mail address as stored: trimmed, then lower-cased. */
  function NormaliseEmail(e: string): (r: string)
    ensures Text.IsTrimmed(r) && Text.NoUpper(r)
    ensures r == Text.Trim(Text.Lower(e))
  {
    Text.LowerTrimCommute(e);
    Text.TrimIdempotent(Text.Lower(e));
    Text.Lower(Text.Trim(e))
  }

  // ---------------------------------------------------------------- appointments

  /** The handler's required-field check: on the values as sent, before trimming. */
  predicate AcceptsAppointment(b: AppointmentBody)
  {
    Truthy(b.name) && Truthy(b.email) && Truthy(b.phone)
  }

  /** What holds of every appointment the store keeps. */
  predicate WellFormedAppointment(a: Appointment)
  {
    && Text.IsTrimmed(a.name) && Text.IsTrimmed(a.phone)
    && Text.IsTrimmed(a.email) && Text.NoUpper(a.email)
    && a.service != ""
    && (a.preferredDate.Some? ==> a.preferredDate.value != "")
    && (a.preferredTime.Some? ==> a.preferredTime.value != "")
    && a.status == PendingStatus
  }

  /** The record the handler builds from an accepted body. */
  function NewAppointment(b: AppointmentBody, id: int, createdAt: string): (a: Appointment)
    requires AcceptsAppointment(b)
    ensures WellFormedAppointment(a)
    ensures a.id == id && a.createdAt == createdAt
    ensures a.name == Text.Trim(b.name.value) && a.phone == Text.Trim(b.phone.value)
    ensures a.email == Text.Trim(Text.Lower(b.email.value))
  {
    Appointment(
      id, Text.Trim(b.name.value), NormaliseEmail(b.email.value), Text.Trim(b.phone.value),
      OrElse(b.service, DefaultService), OrNull(b.date), OrNull(b.time),
      OrElse(b.message, ""), PendingStatus, createdAt)
  }

  /** The optional fields of a new appointment take the sent value when truthy and their default otherwise. */
  lemma AppointmentDefaults(b: AppointmentBody, id: int, createdAt: string)
    requires AcceptsAppointment(b)
    ensures var a := NewAppointment(b, id, createdAt);
      && (a.service == if Truthy(b.service) then b.service.value else DefaultService)
      && (a.preferredDate.None? <==> !Truthy(b.date))
      && (a.preferredDate.Some? ==> a.preferredDate == b.date)
      && (a.preferredTime.None? <==> !Truthy(b.time))
      && (a.preferredTime.Some? ==> a.preferredTime == b.time)
      && (a.message == if b.message.Some? then b.message.value else "")
      && a.status == "pending"
  {
  }

  /**
   * The required check looks at the untrimmed value, so a name (or phone)
   * made only of whitespace is accepted and stored as the empty string.
   */
  lemma BlankNameStoredEmpty(b: AppointmentBody, id: int, createdAt: string)
    requires AcceptsAppointment(b) && Text.AllSpace(b.name.value)
    ensures NewAppointment(b, id, createdAt).name == ""
  {
    Text.TrimEmptyIff(b.name.value);
  }

  /** A request with an upper-case e-mail and no service is stored lower-cased, with the default service. */
  lemma UpperCaseEmailExample(id: int, createdAt: string)
    ensures var b := AppointmentBody(Some("Jane"), Some("JANE@X.COM"), Some("555-1"), None, None, None, None);
      && AcceptsAppointment(b)
      && NewAppointment(b, id, createdAt).email == "jane@x.com"
      && NewAppointment(b, id, createdAt).service == "General Consultation"
  {
    var e := "JANE@X.COM";
    assert Text.IsTrimmed(e);
    Text.TrimOfTrimmed(e);
    assert Text.Lower(e) == "jane@x.com";
  }

  // ---------------------------------------------------------------- contacts

  /** The contact handler's required-field check; `phone` is optional. */
  predicate AcceptsContact(b: ContactBody)
  {
    Truthy(b.name) && Truthy(b.email) && Truthy(b.message)
  }

  /** `phone?.trim() || null` */
  function ContactPhone(p: Field): (r: Option<string>)
    ensures r.None? <==> p.None? || Text.AllSpace(p.value)
    ensures r.Some? ==> r.value != "" && Text.IsTrimmed(r.value) && r.value == Text.Trim(p.value)
  {
    match p
    case None => None
    case Some(s) =>
      Text.TrimEmptyIff(s);
      var t := Text.Trim(s);
      if t == "" then None else Some(t)
  }

  /** What holds of every contact message the store keeps. */
  predicate WellFormedContact(c: Contact)
  {
    && Text.IsTrimmed(c.name) && Text.IsTrimmed(c.message)
    && Text.IsTrimmed(c.email) && Text.NoUpper(c.email)
    && (c.phone.Some? ==> c.phone.value != "" && Text.IsTrimmed(c.phone.value))
    && (c.service.Some? ==> c.service.value != "")
  }

  /** The record the contact handler builds from an accepted body. */
  function NewContact(b: ContactBody, id: int, createdAt: string): (c: Contact)
    requires AcceptsContact(b)
    ensures WellFormedContact(c)
    ensures c.id == id && c.createdAt == createdAt
    ensures c.name == Text.Trim(b.name.value) && c.message == Text.Trim(b.message.value)
    ensures c.email == Text.Trim(Text.Lower(b.email.value))
    ensures c.phone == ContactPhone(b.phone)
    ensures c.phone.None? <==> b.phone.None? || Text.AllSpace(b.phone.value)
    ensures c.service.None? <==> !Truthy(b.service)
    ensures c.service.Some? ==> c.service == b.service
  {
    Contact(
      id, Text.Trim(b.name.value), NormaliseEmail(b.email.value), ContactPhone(b.phone),
      OrNull(b.service), Text.Trim(b.message.value), createdAt)
  }

  // ---------------------------------------------------------------- read-only views

  /** Body of GET /api/appointments and GET /api/contacts. */
  datatype Listing<T> = Listing(success: bool, count: nat, data: seq<T>)

  /** Body of GET /api/health, without its constant `features` list. */
  datatype Health = Health(message: string, timestamp: string, storage: string,
                           appointments: nat, contacts: nat)

  const HealthMessage: string := "Dr. Anand's Fitness Art is running perfectly! \U{2728}"
  const StorageStatus: string := "In-Memory Storage"

  const RecentCount: nat := 5
  const PreviewLength: nat := 100

  function Min(a: int, b: int): int { if a < b then a else b }

  /** `s.slice(-5)`: the newest five records, oldest first. */
  function Recent<T>(s: seq<T>): (r: seq<T>)
    ensures |r| == Min(RecentCount, |s|)
    ensures r == s[|s| - |r|..]
  {
    var start := |s| - RecentCount;
    s[if start < 0 then 0 else start..]
  }

  /** One more submission shifts the recent window: it is computed from the previous window alone. */
  lemma RecentAfterAppend<T>(s: seq<T>, x: T)
    ensures Recent(s + [x]) == Recent(Recent(s) + [x])
    ensures Recent(s + [x])[|Recent(s + [x])| - 1] == x
  {
    var r, t := Recent(s), s + [x];
    assert (r + [x])[|r + [x]| - |Recent(r + [x])|..] == t[|t| - |Recent(t)|..];
  }

  /** `message.substring(0, 100)`: the first 100 characters, or the whole message when shorter. */
  function Preview(m: string): (r: string)
    ensures |r| == Min(PreviewLength, |m|)
    ensures r <= m
  {
    var end := if |m| < PreviewLength then |m| else PreviewLength;
    m[0..end]
  }

  /** A recent-items panel of the dashboard: the placeholder text when the list is empty. */
  datatype Panel<T> = Placeholder | Items(items: seq<T>)

  /** A contact as the dashboard lists it. */
  datatype ContactCard = ContactCard(name: string, email: string, preview: string, createdAt: string)

  /** The admin page's data: the two totals and the two recent-items panels. */
  datatype Dashboard = Dashboard(
    totalAppointments: nat, totalContacts: nat,
    recentAppointments: Panel<Appointment>, recentContacts: Panel<ContactCard>)

  function Card(c: Contact): ContactCard
  {
    ContactCard(c.name, c.email, Preview(c.message), c.createdAt)
  }

  // ---------------------------------------------------------------- the store

  /** The two module-level arrays and the handlers that push onto them. */
  class Store {
    var appointments: seq<Appointment>
    var contacts: seq<Contact>

    /** Every stored record went through its handler's normalisation. */
    ghost predicate Valid()
      reads this
    {
      && (forall i :: 0 <= i < |appointments| ==> WellFormedAppointment(appointments[i]))
      && (forall i :: 0 <= i < |contacts| ==> WellFormedContact(contacts[i]))
    }

    constructor ()
      ensures Valid()
      ensures appointments == [] && contacts == []
    {
      appointments := [];
      contacts := [];
    }

    /**
     * POST /api/appointments. `now` is the `Date.now()` reading used as id and
     * `isoNow` the `toISOString()` reading used as creation time.
     * A rejected body leaves both lists as they were; an accepted one appends
     * exactly one record and keeps every earlier one.
     */
    method CreateAppointment(body: AppointmentBody, now: int, isoNow: string) returns (reply: Reply)
      requires Valid()
      modifies this
      ensures Valid()
      ensures contacts == old(contacts)
      ensures reply.success <==> AcceptsAppointment(body)
      ensures !AcceptsAppointment(body) ==>
        && appointments == old(appointments)
        && reply == Reply(400, false, AppointmentRequired, None)
      ensures AcceptsAppointment(body) ==>
        var a := NewAppointment(body, now, isoNow);
        && appointments == old(appointments) + [a]
        && reply == Reply(201, true, AppointmentSubmitted, Some(Summary(a.id, a.name, a.service)))
    {
      if !Truthy(body.name) || !Truthy(body.email) || !Truthy(body.phone) {
        return Reply(400, false, AppointmentRequired, None);
      }
      var a := NewAppointment(body, now, isoNow);
      appointments := appointments + [a];
      reply := Reply(201, true, AppointmentSubmitted, Some(Summary(a.id, a.name, a.service)));
    }

    /** POST /api/contact: like `CreateAppointment`, on the contact list, replying 200. */
    method CreateContact(body: ContactBody, now: int, isoNow: string) returns (reply: Reply)
      requires Valid()
      modifies this
      ensures Valid()
      ensures appointments == old(appointments)
      ensures reply.success <==> AcceptsContact(body)
      ensures !AcceptsContact(body) ==>
        && contacts == old(contacts)
        && reply == Reply(400, false, ContactRequired, None)
      ensures AcceptsContact(body) ==>
        && contacts == old(contacts) + [NewContact(body, now, isoNow)]
        && reply == Reply(200, true, ContactSaved, None)
    {
      if !Truthy(body.name) || !Truthy(body.email) || !Truthy(body.message) {
        return Reply(400, false, ContactRequired, None);
      }
      contacts := contacts + [NewContact(body, now, isoNow)];
      reply := Reply(200, true, ContactSaved, None);
    }

    /** GET /api/appointments: every appointment in insertion order, with its count. */
    function ListAppointments(): (r: Listing<Appointment>)
      reads this
      ensures r.success && r.count == |r.data|
      ensures r.data == appointments
      ensures Valid() ==> forall a <- r.data :: WellFormedAppointment(a)
    {
      Listing(true, |appointments|, appointments)
    }

    /** GET /api/contacts: every contact message in insertion order, with its count. */
    function ListContacts(): (r: Listing<Contact>)
      reads this
      ensures r.success && r.count == |r.data|
      ensures r.data == contacts
      ensures Valid() ==> forall c <- r.data :: WellFormedContact(c)
    {
      Listing(true, |contacts|, contacts)
    }

    /** GET /api/health at time `timestamp`: the two counts are the two list lengths. */
    function HealthCheck(timestamp: string): (h: Health)
      reads this
      ensures h.appointments == |ListAppointments().data|
      ensures h.contacts == |ListContacts().data|
      ensures h.timestamp == timestamp
    {
      Health(HealthMessage, timestamp, StorageStatus, |appointments|, |contacts|)
    }

    /** GET /admin: the totals, the newest five appointments and the newest five contact cards. */
    function AdminDashboard(): (d: Dashboard)
      reads this
      ensures d.totalAppointments == |appointments| && d.totalContacts == |contacts|
      ensures d.recentAppointments.Placeholder? <==> appointments == []
      ensures d.recentAppointments.Items? ==> d.recentAppointments.items == Recent(appointments)
      ensures d.recentContacts.Placeholder? <==> contacts == []
      ensures d.recentContacts.Items? ==>
        var cards, recent := d.recentContacts.items, Recent(contacts);
        && |cards| == |recent|
        && forall k :: 0 <= k < |cards| ==>
             && cards[k].name == recent[k].name && cards[k].email == recent[k].email
             && cards[k].createdAt == recent[k].createdAt
             && cards[k].preview <= recent[k].message
             && |cards[k].preview| == Min(PreviewLength, |recent[k].message|)
    {
      var recent := Recent(contacts);
      var cards := seq(|recent|, k requires 0 <= k < |recent| => Card(recent[k]));
      Dashboard(
        |appointments|, |contacts|,
        if |appointments| > 0 then Items(Recent(appointments)) else Placeholder,
        if |contacts| > 0 then Items(cards) else Placeholder)
    }
  }
}
