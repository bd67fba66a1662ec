/**
 * How the in-memory POST /api/appointments handler and the Mongoose schema
 * relate: the schema rejects everything the handler rejects, and more (blank
 * values), and where both accept they store the same name, e-mail, phone and
 * status.
 */
module Agreement {
  import opened Wrappers
  import Text
  import Server
  import AppointmentSchema

  /** The schema document built from the handler's request body; the body carries no status. */
  function ToInput(b: Server.AppointmentBody): AppointmentSchema.Input
  {
    AppointmentSchema.Input(b.name, b.email, b.phone, b.service, b.date, b.time, b.message, None)
  }

  /** Every body the schema validates passes the handler's required-field check. */
  lemma SchemaStricter(b: Server.AppointmentBody, now: int)
    requires AppointmentSchema.Passes(ToInput(b))
    ensures Server.AcceptsAppointment(b)
  {
  }

  /** Where both accept a body, the stored fields agree, and so do the defaults for non-empty values. */
  lemma AcceptedRecordsAgree(b: Server.AppointmentBody, now: int, isoNow: string)
    requires AppointmentSchema.Passes(ToInput(b))
    ensures Server.AcceptsAppointment(b)
    ensures var a := Server.NewAppointment(b, now, isoNow);
      var d := AppointmentSchema.Normalise(ToInput(b), now).value;
      && a.name == d.name && a.email == d.email && a.phone == d.phone
      && a.status == AppointmentSchema.StatusName(d.status)
      && a.message == d.message
      && (b.service != Some("") ==> a.service == d.service)
      && (b.date != Some("") ==> a.preferredDate == d.preferredDate)
      && (b.time != Some("") ==> a.preferredTime == d.preferredTime)
  {
    SchemaStricter(b, now);
    var a := Server.NewAppointment(b, now, isoNow);
    var d := AppointmentSchema.Normalise(ToInput(b), now).value;
    assert a.name == Text.Trim(b.name.value) == d.name;
    assert a.phone == Text.Trim(b.phone.value) == d.phone;
    assert a.email == Text.Trim(Text.Lower(b.email.value)) == d.email;
    AppointmentSchema.Defaults(ToInput(b), now);
    Server.AppointmentDefaults(b, now, isoNow);
  }

  /**
   * The handler checks the untrimmed name, so a whitespace-only name is stored
   * (as the empty string) by the handler but refused by the schema.
   */
  lemma BlankNameDisagreement(now: int, isoNow: string)
    ensures var b := Server.AppointmentBody(Some(" "), Some("a@b.c"), Some("1"), None, None, None, None);
      && Server.AcceptsAppointment(b)
      && Server.NewAppointment(b, now, isoNow).name == ""
      && AppointmentSchema.Normalise(ToInput(b), now).Failure?
      && AppointmentSchema.NamePath in AppointmentSchema.Normalise(ToInput(b), now).error.paths
  {
    var b := Server.AppointmentBody(Some(" "), Some("a@b.c"), Some("1"), None, None, None, None);
    assert Text.AllSpace(b.name.value);
    Server.BlankNameStoredEmpty(b, now, isoNow);
  }
}
