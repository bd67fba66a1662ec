# Appointment and contact record store — a Dafny model

The backend of Dr. Anand's Fitness Art keeps two lists in memory: appointment
requests and contact-form messages. `POST /api/appointments` and
`POST /api/contact` check that the required fields are truthy, build a
normalised record (trimmed strings, a lower-cased e-mail address, defaults for
the optional fields) and push it onto the matching list. The read side is a set
of views over the two lists: `GET /api/appointments` and `GET /api/contacts`,
the counts in `GET /api/health`, and the admin page's totals, newest five items
and 100-character message previews. Beside the in-memory server there is a
Mongoose schema for appointments that states the same normalisation
declaratively, with a four-value status enum and automatic timestamps.

The project has five modules:

- `Wrappers` (Wrappers.dfy): `Option` and `Result`.
- `Text` (Text.dfy): JavaScript `trim` and `toLowerCase` on `seq<char>`. Trimming is
  characterised as the unique slice without whitespace at its ends that has only
  whitespace outside it (`TrimUnique`). Lemmas show that trimming is idempotent,
  that it is empty exactly for all-whitespace input, and that it commutes with
  lower-casing.
- `Server` (Server.dfy): the request bodies, the two record types and their
  builders. The class `Store` holds the two `seq` fields, which the POST methods
  append to. Its `Valid()` invariant says every stored record is normalised. The
  list, health and admin views are functions that read the store.
- `AppointmentSchema` (AppointmentSchema.dfy): `Normalise`, from a submitted
  document to either the saved document or a validation error that names the
  failing paths.
- `Agreement` (Agreement.dfy): relates the handler to the schema.

Request fields are `Option<string>`. In the server, `None` stands for `undefined`
or `null`, and JavaScript truthiness counts `None` and `Some("")` as falsy. In the
schema, `None` is a path that was not supplied. The clock readings are inputs of
the methods: `Date.now()` (the record id) and `new Date().toISOString()` (the
creation time). Two requests in the same millisecond get the same id, so nothing
here claims ids are unique.

The in-memory handler and the Mongoose schema treat a whitespace-only required
field differently. The handler tests the raw value for truthiness
(backend/server.js:71) before trimming it (backend/server.js:80), so a name of
only spaces is accepted and stored as `""` (`Server.BlankNameStoredEmpty`). The
schema's trim setter runs when the value is assigned, and its `required`
validator then rejects the empty string (backend/models/Appointment.js:4-8).
`Agreement.BlankNameDisagreement` exhibits one body that the handler stores and
the schema refuses.

## Model

| member | source | states |
|---|---|---|
| Text.SkipSpace | backend/server.js:80 | the forward scan of `trim()` passes only whitespace and stops at the first non-whitespace character or at the end |
| Text.SkipSpaceBack | backend/server.js:80 | the backward scan of `trim()` passes only whitespace and stops after the last non-whitespace character or at the start position |
| Text.Trim | backend/server.js:80-82 | `trim()` gives a slice of the input with no whitespace at either end and only whitespace outside it |
| Text.TrimUnique | backend/server.js:80-82 | any trimmed slice that has only whitespace outside it is the result of `trim()` |
| Text.TrimOfTrimmed | backend/models/Appointment.js:7 | trimming a string with no whitespace at its ends returns it unchanged |
| Text.TrimIdempotent | backend/models/Appointment.js:7 | trimming twice is the same as trimming once |
| Text.TrimEmptyIff | backend/server.js:120 | `trim()` returns `""` exactly when the input is all whitespace |
| Text.Lower | backend/server.js:81 | `toLowerCase()` keeps the length, maps each letter A to Z to its lower-case counterpart and keeps every other character, so no upper-case letter is left |
| Text.LowerIdempotent | backend/models/Appointment.js:13 | lower-casing twice is the same as lower-casing once |
| Text.LowerTrimCommute | backend/models/Appointment.js:12-13 | trimming and lower-casing commute, so the stored e-mail does not depend on the order of the two setters |
| Server.NormaliseEmail | backend/server.js:81 | a stored e-mail has no whitespace at its ends and no upper-case letter, and equals the trimmed lower-cased input |
| Server.NewAppointment | backend/server.js:78-89 | a built appointment is well formed: trimmed name and phone, trimmed lower-case e-mail, non-empty service, no empty date or time, status `pending`; it has the given id and creation time |
| Server.AppointmentDefaults | backend/server.js:83-87 | service falls back to "General Consultation", date and time to null, message to `""`, and status is `pending` |
| Server.BlankNameStoredEmpty | backend/server.js:71-80 | a whitespace-only name passes the required check and is stored as `""` |
| Server.UpperCaseEmailExample | backend/server.js:81-83 | a body with e-mail `JANE@X.COM` and no service is stored with e-mail `jane@x.com` and service "General Consultation" |
| Server.ContactPhone | backend/server.js:120 | the stored phone is null exactly when it is absent or all whitespace; otherwise it is the non-empty trimmed value |
| Server.NewContact | backend/server.js:116-124 | a built contact is well formed: trimmed name and message, trimmed lower-case e-mail, phone equal to `phone?.trim() || null` (null exactly when absent or all whitespace), service null exactly when the given one is falsy and otherwise the given one |
| Server.Recent | backend/server.js:220 | `slice(-5)` returns the last min(5, n) records in insertion order |
| Server.RecentAfterAppend | backend/server.js:240 | after one more record, the recent window is the previous window plus the new record, cut to five; the newest record is last |
| Server.Preview | backend/server.js:244 | `substring(0, 100)` returns a prefix of the message of length min(100, length) |
| Server.Store.constructor | backend/server.js:17-18 | the store starts with two empty lists and satisfies its invariant |
| Server.Store.CreateAppointment | backend/server.js:68-103 | a body without a truthy name, e-mail or phone gets a 400 reply and leaves both lists unchanged; otherwise exactly the normalised record is appended, the contacts list is unchanged, and the reply is 201 with id, name and service; the invariant is kept |
| Server.Store.CreateContact | backend/server.js:106-133 | a body without a truthy name, e-mail or message gets a 400 reply and leaves both lists unchanged; otherwise exactly the normalised contact is appended and the reply is 200; the invariant is kept |
| Server.Store.ListAppointments | backend/server.js:59-65 | the listing is the whole appointment list in insertion order, its count is the number of records, and under the store invariant every listed record is normalised |
| Server.Store.ListContacts | backend/server.js:136-142 | the listing is the whole contact list in insertion order, its count is the number of records, and under the store invariant every listed record is normalised |
| Server.Store.HealthCheck | backend/server.js:31-42 | the health counts equal the lengths of the two listings |
| Server.Store.AdminDashboard | backend/server.js:174-248 | the totals are the list lengths; each panel is the placeholder exactly when its list is empty; it otherwise shows the last five appointments, and for contacts one card per recent contact with its name, e-mail and creation time and a preview that is the first min(100, length) characters of its message |
| AppointmentSchema.ParseStatus | backend/models/Appointment.js:36-39 | a string is accepted exactly when it is one of the four enum names, and is then parsed to the status of that name |
| AppointmentSchema.StatusRoundTrip | backend/models/Appointment.js:38 | every status is accepted under its own name |
| AppointmentSchema.SetterBlank | backend/models/Appointment.js:4-8 | after the trim setter a value is missing or empty exactly when it was missing or all whitespace |
| AppointmentSchema.EmailSetterBlank | backend/models/Appointment.js:9-14 | the same for the e-mail setters, whose result is the lower-cased trimmed input |
| AppointmentSchema.Normalise | backend/models/Appointment.js:3-43 | validation succeeds exactly when every validator passes; it fails exactly when name, e-mail or phone is missing or blank or the status is outside the enum, and the error names exactly those paths; a saved document has non-empty trimmed name and phone, a trimmed lower-case e-mail, and equal timestamps |
| AppointmentSchema.Defaults | backend/models/Appointment.js:20-40 | missing paths take their defaults ("General Consultation", null, null, `""`, `pending`) and supplied ones are kept |
| AppointmentSchema.UnknownStatusRejected | backend/models/Appointment.js:36-39 | a status outside the enum fails validation and is named in the error |
| AppointmentSchema.KnownStatusAccepted | backend/models/Appointment.js:36-39 | with the required paths present, each of the four statuses is accepted and stored |
| AppointmentSchema.Timestamps | backend/models/Appointment.js:42 | `createdAt` and `updatedAt` are both the creation clock reading |
| AppointmentSchema.NormaliseIdempotent | backend/models/Appointment.js:4-40 | validating a saved document again succeeds and gives the same document |
| Agreement.SchemaStricter | backend/server.js:71-76 | every body the schema accepts also passes the handler's required check |
| Agreement.AcceptedRecordsAgree | backend/server.js:78-89 | where both accept a body, the handler and the schema store the same name, e-mail, phone, message and status, and the same service, date and time unless that field was sent as `""` |
| Agreement.BlankNameDisagreement | backend/server.js:71-82 | a whitespace-only name is stored by the handler as `""` and rejected by the schema |

## Left out

- Text.Lower: lower-cases only the ASCII letters A to Z. JavaScript `toLowerCase` also maps other Unicode letters.
- Server.Preview: counts Unicode scalar values. JavaScript `substring` counts UTF-16 code units, so a message with characters outside the Basic Multilingual Plane is cut at a different place.
- Server.Store.AdminDashboard: models the data the admin page shows, not the HTML and Tailwind markup. It leaves out the `...` the page always adds after a preview and the `toLocaleString` formatting of creation times.
- Server.Store.HealthCheck: leaves out the constant `features` list of the health reply.
- `Date.now()` and `toISOString()` are method inputs. Their formats and monotonicity are not modelled, and neither are their two separate clock reads.
- Express wiring is not modelled: routing, `cors`, body parsing, static files, `GET /`, `app.listen` and console logging.
- `GET /api/info` is not modelled. It returns constant business metadata and touches no state.
- The schema does not distinguish an explicit `null` from an omitted path. Mongoose applies defaults only to omitted paths and lets `null` through the enum check.
- Non-string request values are not modelled. In the server they make `.trim()` throw; in the schema Mongoose casts them.
- Mongoose ObjectId generation, persistence and the `save` round trip are not modelled. The order in which Mongoose runs the two e-mail setters is not modelled either; `Text.LowerTrimCommute` shows it does not matter.
- frontend/script.js (DOM, timers, fetch calls, the counter animation) and backend/database.js (SQLite tables and seeding) are not part of this model.
