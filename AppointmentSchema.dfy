/**
 * The Mongoose schema for appointments: which paths are required, the trim
 * and lower-case setters, the defaults, the status enum and the automatic
 * timestamps, as one function from a submitted document to either the
 * document that would be saved or the validation error.
 */
module AppointmentSchema {
  import opened Wrappers
  import Text

  /** The values the `status` enum admits. */
  datatype Status = Pending | Confirmed | Completed | Cancelled

  function StatusName(s: Status): string
  {
    match s
    case Pending => "pending"
    case Confirmed => "confirmed"
    case Completed => "completed"
    case Cancelled => "cancelled"
  }

  /** The enum validator: the status a string names, or `None` when it is not one of the four. */
  function ParseStatus(s: string): (r: Option<Status>)
    ensures r.Some? ==> StatusName(r.value) == s
    ensures r.None? <==> s != "pending" && s != "confirmed" && s != "completed" && s != "cancelled"
  {
    if s == "pending" then Some(Pending)
    else if s == "confirmed" then Some(Confirmed)
    else if s == "completed" then Some(Completed)
    else if s == "cancelled" then Some(Cancelled)
    else None
  }

  /** Every status is accepted under its own name. */
  lemma StatusRoundTrip(s: Status)
    ensures ParseStatus(StatusName(s)) == Some(s)
  {
  }

  /** A document as handed to the model; `None` is a path that was not supplied. */
  datatype Input = Input(
    name: Option<string>, email: Option<string>, phone: Option<string>,
    service: Option<string>, preferredDate: Option<string>, preferredTime: Option<string>,
    message: Option<string>, status: Option<string>)

  /** A validated document; `createdAt` and `updatedAt` are clock readings. */
  datatype Document = Document(
    name: string, email: string, phone: string, service: string,
    preferredDate: Option<string>, preferredTime: Option<string>,
    message: string, status: Status, createdAt: int, updatedAt: int)

  /** The schema paths that carry a validator. */
  datatype Path = NamePath | EmailPath | PhonePath | StatusPath

  /** A validation error names the paths whose validators failed. */
  datatype ValidationError = ValidationError(paths: set<Path>)

  const DefaultService: string := "General Consultation"

  /** A required path that is absent, or whose value is whitespace only. */
  predicate Blank(v: Option<string>)
  {
    v.None? || Text.AllSpace(v.value)
  }

  /** A supplied status outside the enum. */
  predicate OutsideEnum(v: Option<string>)
  {
    v.Some? && v.value != "pending" && v.value != "confirmed"
    && v.value != "completed" && v.value != "cancelled"
  }

  /** A path with `trim: true`: the setter trims a supplied value. */
  function TrimSetter(v: Option<string>): Option<string>
  {
    match v
    case None => None
    case Some(s) => Some(Text.Trim(s))
  }

  /** The e-mail path has `trim: true` and `lowercase: true`. */
  function EmailSetter(v: Option<string>): Option<string>
  {
    match v
    case None => None
    case Some(s) => Some(Text.Lower(Text.Trim(s)))
  }

  /** `required: true` on a string path: the set value is present and non-empty. */
  predicate Satisfied(v: Option<string>)
  {
    v.Some? && v.value != ""
  }

  /** The `enum` validator: an absent status passes, a supplied one must name a `Status`. */
  predicate InEnum(v: Option<string>)
  {
    v.None? || ParseStatus(v.value).Some?
  }

  /** The paths whose validators failed. */
  function Failed(name: Option<string>, email: Option<string>, phone: Option<string>,
                  status: Option<string>): set<Path>
  {
    (if Satisfied(name) then {} else {NamePath})
    + (if Satisfied(email) then {} else {EmailPath})
    + (if Satisfied(phone) then {} else {PhonePath})
    + (if InEnum(status) then {} else {StatusPath})
  }

  /** A path is reported exactly when its own validator failed. */
  lemma FailedExactly(name: Option<string>, email: Option<string>, phone: Option<string>,
                      status: Option<string>)
    ensures var f := Failed(name, email, phone, status);
      && (NamePath in f <==> !Satisfied(name))
      && (EmailPath in f <==> !Satisfied(email))
      && (PhonePath in f <==> !Satisfied(phone))
      && (StatusPath in f <==> !InEnum(status))
  {
  }

  function Default(v: Option<string>, d: string): string
  {
    if v.Some? then v.value else d
  }

  /** After the trim setter, a value is empty exactly when it was blank. */
  lemma SetterBlank(v: Option<string>)
    ensures TrimSetter(v).None? || TrimSetter(v).value == "" <==> Blank(v)
  {
    if v.Some? { Text.TrimEmptyIff(v.value); }
  }

  /** The same for the e-mail setters, whose result is also the lower-cased trim. */
  lemma EmailSetterBlank(v: Option<string>)
    ensures EmailSetter(v).None? || EmailSetter(v).value == "" <==> Blank(v)
    ensures v.Some? ==> EmailSetter(v).value == Text.Trim(Text.Lower(v.value))
  {
    if v.Some? {
      Text.TrimEmptyIff(v.value);
      Text.LowerTrimCommute(v.value);
    }
  }

  /** The input passes every validator: the required paths are not blank and the status is in the enum. */
  predicate Passes(i: Input)
  {
    !Blank(i.name) && !Blank(i.email) && !Blank(i.phone) && !OutsideEnum(i.status)
  }

  /** Predicate shared by every document the schema lets through. */
  predicate WellFormed(d: Document)
  {
    && d.name != "" && Text.IsTrimmed(d.name)
    && d.phone != "" && Text.IsTrimmed(d.phone)
    && d.email != "" && Text.IsTrimmed(d.email) && Text.NoUpper(d.email)
    && d.createdAt == d.updatedAt
  }

  /**
   * Construct and validate a document at clock reading `now`: setters first,
   * then the `required` and `enum` validators, then defaults and timestamps.
   * It fails exactly when a required path is missing or blank or the status is
   * outside the enum, and the error lists exactly those paths.
   */
  function Normalise(i: Input, now: int): (r: Result<Document, ValidationError>)
    ensures r.Success? <==> Passes(i)
    ensures r.Failure? ==>
      && (NamePath in r.error.paths <==> Blank(i.name))
      && (EmailPath in r.error.paths <==> Blank(i.email))
      && (PhonePath in r.error.paths <==> Blank(i.phone))
      && (StatusPath in r.error.paths <==> OutsideEnum(i.status))
    ensures r.Success? ==> WellFormed(r.value)
    ensures r.Success? ==>
      && r.value.name == Text.Trim(i.name.value)
      && r.value.phone == Text.Trim(i.phone.value)
      && r.value.email == Text.Trim(Text.Lower(i.email.value))
  {
    SetterBlank(i.name);
    SetterBlank(i.phone);
    EmailSetterBlank(i.email);
    var name, email, phone := TrimSetter(i.name), EmailSetter(i.email), TrimSetter(i.phone);
    FailedExactly(name, email, phone, i.status);
    if !(Satisfied(name) && Satisfied(email) && Satisfied(phone) && InEnum(i.status)) then
      Failure(ValidationError(Failed(name, email, phone, i.status)))
    else
      var status := if i.status.Some? then ParseStatus(i.status.value).value else Pending;
      Success(Document(
        name.value, email.value, phone.value, Default(i.service, DefaultService),
        i.preferredDate, i.preferredTime, Default(i.message, ""), status, now, now))
  }

  /** Paths left out take their declared defaults; supplied ones are kept as given. */
  lemma Defaults(i: Input, now: int)
    requires Passes(i)
    ensures var d := Normalise(i, now).value;
      && (d.service == if i.service.None? then "General Consultation" else i.service.value)
      && d.preferredDate == i.preferredDate && d.preferredTime == i.preferredTime
      && (d.message == if i.message.None? then "" else i.message.value)
      && (i.status.None? ==> d.status == Pending)
      && (i.status.Some? ==> StatusName(d.status) == i.status.value)
  {
  }

  /** A status outside the four enum values fails validation, whatever the other paths hold. */
  lemma UnknownStatusRejected(i: Input, now: int)
    requires i.status.Some? && ParseStatus(i.status.value).None?
    ensures Normalise(i, now).Failure?
    ensures StatusPath in Normalise(i, now).error.paths
  {
  }

  /** Each of the four enum values is accepted when the required paths are present. */
  lemma KnownStatusAccepted(i: Input, now: int, s: Status)
    requires !Blank(i.name) && !Blank(i.email) && !Blank(i.phone)
    requires i.status == Some(StatusName(s))
    ensures Normalise(i, now).Success? && Normalise(i, now).value.status == s
  {
    StatusRoundTrip(s);
  }

  /** With `timestamps: true` both timestamps are the creation clock reading. */
  lemma Timestamps(i: Input, now: int)
    requires Passes(i)
    ensures Normalise(i, now).value.createdAt == now
    ensures Normalise(i, now).value.updatedAt == now
  {
  }

  /** A document whose required paths already hold clean values is saved with exactly those values. */
  lemma NormaliseClean(i: Input, now: int, s: Status)
    requires i.name.Some? && i.name.value != "" && Text.IsTrimmed(i.name.value)
    requires i.phone.Some? && i.phone.value != "" && Text.IsTrimmed(i.phone.value)
    requires i.email.Some? && i.email.value != "" && Text.IsTrimmed(i.email.value) && Text.NoUpper(i.email.value)
    requires i.status == Some(StatusName(s))
    ensures Normalise(i, now) == Success(Document(
      i.name.value, i.email.value, i.phone.value, Default(i.service, DefaultService),
      i.preferredDate, i.preferredTime, Default(i.message, ""), s, now, now))
  {
    Text.TrimOfTrimmed(i.name.value);
    Text.TrimOfTrimmed(i.phone.value);
    Text.TrimOfTrimmed(i.email.value);
    Text.LowerOfNoUpper(i.email.value);
    SetterBlank(i.name);
    SetterBlank(i.phone);
    EmailSetterBlank(i.email);
    StatusRoundTrip(s);
  }

  /** Validating a saved document again succeeds and changes nothing. */
  lemma NormaliseIdempotent(i: Input, now: int)
    requires Passes(i)
    ensures var d := Normalise(i, now).value;
      Normalise(Input(Some(d.name), Some(d.email), Some(d.phone), Some(d.service),
                      d.preferredDate, d.preferredTime, Some(d.message), Some(StatusName(d.status))), now)
      == Success(d)
  {
    var d := Normalise(i, now).value;
    Timestamps(i, now);
    NormaliseClean(Input(Some(d.name), Some(d.email), Some(d.phone), Some(d.service),
                         d.preferredDate, d.preferredTime, Some(d.message), Some(StatusName(d.status))),
                   now, d.status);
  }
}
