/** The admin area: the free-form appointment update, barber creation, the detail page's
    selections and the row view (`routes/admin.rs`). */
module Admin {
  import opened Wrappers
  import opened Text
  import opened Models
  import opened State
  import opened Db
  import opened Push
  import opened Auth
  import opened Http
  import opened Forms

  /** The submitted `barber_id`: absent or blank clears the assignment, anything else is
      stored trimmed. */
  function FormBarber(value: Option<string>): (r: Option<string>)
    ensures r.None? <==> value.None? || IsBlank(value.value, Rust)
    ensures r.Some? ==> r.value == Trim(value.value, Rust)
  {
    match value
    case None => None
    case Some(v) => if IsBlank(v, Rust) then None else Some(Trim(v, Rust))
  }

  /** A barber id the admin form stores is never blank and never carries white space at
      either end: trimming it again changes nothing. */
  lemma FormBarberIsTrimmed(value: Option<string>)
    ensures var r := FormBarber(value);
      r.Some? ==> r.value != [] && !IsBlank(r.value, Rust) && Trim(r.value, Rust) == r.value
  {
    if FormBarber(value).Some? {
      var v := value.value;
      BlankIffTrimEmpty(v, Rust);
      TrimIdempotent(v, Rust);
      BlankIffTrimEmpty(Trim(v, Rust), Rust);
    }
  }

  /** The row `update_appointment` writes: the status exactly as submitted, the barber as
      `FormBarber` gives it, and `scheduled_for` trimmed when it is present and not blank;
      every other column is kept. */
  function AdminEdit(a: Appointment, status: string, barber: Option<string>, scheduledFor: Option<string>): (b: Appointment)
    ensures b.status == status && b.barberId == FormBarber(barber)
    ensures scheduledFor.None? || IsBlank(scheduledFor.value, Rust) ==> b.scheduledFor == a.scheduledFor
    ensures scheduledFor.Some? && !IsBlank(scheduledFor.value, Rust) ==> b.scheduledFor == Trim(scheduledFor.value, Rust)
    ensures b == a.(status := b.status, barberId := b.barberId, scheduledFor := b.scheduledFor)
  {
    var edited := a.(status := status, barberId := FormBarber(barber));
    match scheduledFor
    case Some(s) => if !IsBlank(s, Rust) then edited.(scheduledFor := Trim(s, Rust)) else edited
    case None => edited
  }

  /** Unlike the barber path, the admin path moves an appointment to any barber and stores
      any status, including one outside the four known ones. */
  lemma AdminMayReassign(a: Appointment, status: string, other: string)
    requires other != [] && Trim(other, Rust) == other
    ensures AdminEdit(a, status, Some(other), None).barberId == Some(other)
    ensures AdminEdit(a, status, Some(other), None).status == status
  {
    BlankIffTrimEmpty(other, Rust);
  }

  /** `update_appointment`. A failing UPDATE answers 500. An unknown id is not an error: no
      row changes, the notification is still attempted, and since the re-read finds nothing
      no event is published. */
  method UpdateAppointment(st: AppState, appointmentId: string, status: string, barber: Option<string>,
                           scheduledFor: Option<string>) returns (resp: Response)
    requires st.Valid()
    modifies st`appointments, st`pushLog, st`events
    ensures st.Valid()
    ensures !old(st.online) ==> resp == InternalError
    ensures !old(st.online) ==>
      st.appointments == old(st.appointments) && st.pushLog == old(st.pushLog) && st.events == old(st.events)
    ensures old(st.online) ==> resp == SeeOther("/admin/appointments/" + appointmentId)
    ensures old(st.online) && appointmentId in old(st.appointments) ==>
      st.appointments == old(st.appointments)[appointmentId :=
        AdminEdit(old(st.appointments)[appointmentId], status, barber, scheduledFor)]
    ensures appointmentId !in old(st.appointments) ==> st.appointments == old(st.appointments)
    ensures old(st.online) ==>
      Notified(st, old(st.pushLog), st.pushLog, appointmentId, "Appointment updated",
               "Status changed to " + status + ".", Some("/status/" + appointmentId))
    ensures old(st.online) && appointmentId in old(st.appointments) ==>
      st.events == old(st.events) + [FromRow("appointment_updated",
        AppointmentRow(st.appointments[appointmentId], JoinedName(st.users, st.appointments[appointmentId].barberId)))]
    ensures appointmentId !in old(st.appointments) ==> st.events == old(st.events)
    ensures SentBefore(old(st.pushLog), st.pushLog, |old(st.events)|)
  {
    if !st.online {
      return InternalError;
    }
    if appointmentId in st.appointments {
      var current := st.appointments[appointmentId];
      st.appointments := st.appointments[appointmentId := AdminEdit(current, status, barber, scheduledFor)];
    }
    NotifyAppointment(st, appointmentId, "Appointment updated", "Status changed to " + status + ".",
                      Some("/status/" + appointmentId));
    var row := FetchAppointmentEvent(st, appointmentId);
    if row.Some? {
      st.events := st.events + [FromRow("appointment_updated", row.value)];
    }
    resp := SeeOther("/admin/appointments/" + appointmentId);
  }

  /** The number of bytes of the UTF-8 encoding, which is what Rust's `str::len` counts. */
  function Utf8Length(s: string): (n: nat)
    ensures n >= |s|
    ensures n <= 4 * |s|
  {
    if s == [] then 0
    else
      var c := s[0] as int;
      (if c < 0x80 then 1 else if c < 0x800 then 2 else if c < 0x1_0000 then 3 else 4) + Utf8Length(s[1..])
  }

  /** For a password of ASCII characters the byte count is the character count. */
  lemma {:induction false} Utf8LengthAscii(s: string)
    requires forall i :: 0 <= i < |s| ==> s[i] as int < 0x80
    ensures Utf8Length(s) == |s|
  {
    if s != [] {
      Utf8LengthAscii(s[1..]);
    }
  }

  const UsernameRequired: string := "Username is required."
  const DisplayNameRequired: string := "Display name is required."
  const PasswordTooShort: string := "Password must be at least 6 characters."

  /** The three checks of the barber form, in the order `create_barber` runs them. */
  function BarberChecks(username: string, displayName: string, password: string): seq<Check> {
    [Check(IsBlank(username, Rust), UsernameRequired),
     Check(IsBlank(displayName, Rust), DisplayNameRequired),
     Check(Utf8Length(Trim(password, Rust)) < 6, PasswordTooShort)]
  }

  /** Each rule is checked on its own: its message is reported exactly when it is broken, and
      the form is accepted exactly when none is. */
  lemma BarberFormErrorsSpec(username: string, displayName: string, password: string)
    ensures var r := Errors(BarberChecks(username, displayName, password));
      (UsernameRequired in r <==> IsBlank(username, Rust)) &&
      (DisplayNameRequired in r <==> IsBlank(displayName, Rust)) &&
      (PasswordTooShort in r <==> Utf8Length(Trim(password, Rust)) < 6) &&
      (r == [] <==> !IsBlank(username, Rust) && !IsBlank(displayName, Rust) && Utf8Length(Trim(password, Rust)) >= 6)
  {
    BarberRules(IsBlank(username, Rust), IsBlank(displayName, Rust),
                Utf8Length(Trim(password, Rust)) < 6);
  }

  /** The barber form's three messages, each reported exactly when its rule is broken. */
  lemma BarberRules(u: bool, n: bool, p: bool)
    ensures var r := Errors([Check(u, UsernameRequired), Check(n, DisplayNameRequired),
                             Check(p, PasswordTooShort)]);
      (UsernameRequired in r <==> u) && (DisplayNameRequired in r <==> n) &&
      (PasswordTooShort in r <==> p) && (r == [] <==> !u && !n && !p)
  {
    var checks := [Check(u, UsernameRequired), Check(n, DisplayNameRequired),
                   Check(p, PasswordTooShort)];
    assert DistinctMessages(checks);
    ErrorsReportEachCheck(checks, 0);
    ErrorsReportEachCheck(checks, 1);
    ErrorsReportEachCheck(checks, 2);
    ErrorsEmpty(checks);
  }

  /** The checks at the top of `create_barber`, each pushing its message onto `errors`. */
  method CheckBarberForm(username: string, displayName: string, password: string) returns (errors: seq<string>)
    ensures errors == Errors(BarberChecks(username, displayName, password))
  {
    errors := PushFailures(BarberChecks(username, displayName, password));
  }

  /** What `create_barber` answers: the barbers page with the form's errors, with the failed
      insert's message, or with the success line; or 500 when hashing fails. */
  datatype CreateOutcome = FormErrors(errors: seq<string>) | InsertFailed(message: string) | Created | HashFailure

  /** `create_barber`. `hash` is what Argon2 returned (None on failure); `dbError` is the
      text of a failed INSERT. Only the primary key is a constraint of the model's table. */
  method CreateBarber(st: AppState, username: string, displayName: string, password: string,
                      newId: string, hash: Option<string>, now: string, dbError: string)
    returns (outcome: CreateOutcome)
    modifies st`users
    ensures Errors(BarberChecks(username, displayName, password)) != [] ==>
              outcome == FormErrors(Errors(BarberChecks(username, displayName, password)))
    ensures outcome.FormErrors? <==> Errors(BarberChecks(username, displayName, password)) != []
    ensures outcome.HashFailure? <==> Errors(BarberChecks(username, displayName, password)) == [] && hash.None?
    ensures outcome.InsertFailed? <==> (Errors(BarberChecks(username, displayName, password)) == [] && hash.Some? &&
                                        !(old(st.online) && !HasUserId(old(st.users), newId)))
    ensures outcome.InsertFailed? ==> outcome.message == "Failed to create barber: " + dbError
    ensures outcome.Created? <==> (Errors(BarberChecks(username, displayName, password)) == [] && hash.Some? &&
                                   old(st.online) && !HasUserId(old(st.users), newId))
    ensures outcome.Created? ==>
      st.users == old(st.users) + [UserRow(newId, Trim(username, Rust), Trim(displayName, Rust),
                                           RoleBarber, hash.value, 1, now)]
    ensures !outcome.Created? ==> st.users == old(st.users)
  {
    var errors := CheckBarberForm(username, displayName, password);
    if errors != [] {
      return FormErrors(errors);
    }
    if hash.None? {
      return HashFailure;
    }
    if !st.online || HasUserId(st.users, newId) {
      return InsertFailed("Failed to create barber: " + dbError);
    }
    st.users := st.users + [UserRow(newId, Trim(username, Rust), Trim(displayName, Rust), RoleBarber, hash.value, 1, now)];
    outcome := Created;
  }

  /** A user as the admin barber lists show it. */
  datatype BarberView = BarberView(id: string, displayName: string, username: string, role: string,
                                   active: bool, selected: bool)

  predicate UniqueIds(barbers: seq<BarberView>) {
    forall j, k :: 0 <= j < k < |barbers| ==> barbers[j].id != barbers[k].id
  }

  /** The loop of `appointment_detail` over the barbers: a barber is selected exactly when its
      id equals the appointment's (empty when unassigned); with distinct ids at most one is. */
  method SelectBarber(barbers: seq<BarberView>, barberId: string) returns (r: seq<BarberView>)
    ensures |r| == |barbers|
    ensures forall k :: 0 <= k < |r| ==> r[k] == barbers[k].(selected := r[k].selected)
    ensures forall k :: 0 <= k < |r| ==> (r[k].selected <==> barbers[k].id == barberId)
    ensures UniqueIds(barbers) ==> forall j, k :: 0 <= j < k < |r| ==> !(r[j].selected && r[k].selected)
  {
    r := barbers;
    var i := 0;
    while i < |r|
      invariant 0 <= i <= |r| == |barbers|
      invariant forall k :: 0 <= k < |r| ==> r[k] == barbers[k].(selected := r[k].selected)
      invariant forall k :: 0 <= k < i ==> (r[k].selected <==> barbers[k].id == barberId)
      invariant forall k :: i <= k < |r| ==> r[k] == barbers[k]
    {
      r := r[i := r[i].(selected := r[i].id == barberId)];
      i := i + 1;
    }
  }

  /** A user as the admin's `fetch_barbers` lists it. */
  function ViewOf(u: UserRow): BarberView {
    BarberView(u.id, u.displayName, u.username, u.role, u.active == 1, false)
  }

  /** The admin's `fetch_barbers`: every barber and every admin, active or not, in table order;
      a failed query reads as no barbers. */
  function FetchBarbers(online: bool, users: seq<UserRow>): (r: seq<BarberView>)
    ensures |r| <= |users|
    ensures !online ==> r == []
  {
    if !online || users == [] then []
    else (if users[0].role == RoleBarber || users[0].role == RoleAdmin then [ViewOf(users[0])] else []) +
         FetchBarbers(online, users[1..])
  }

  /** The admin's barber list holds exactly the barbers and admins of the users table, none
      of them selected. */
  lemma {:induction false} FetchBarbersMembers(users: seq<UserRow>)
    ensures forall b :: b in FetchBarbers(true, users) <==>
      exists u :: u in users && (u.role == RoleBarber || u.role == RoleAdmin) && b == ViewOf(u)
    ensures forall b :: b in FetchBarbers(true, users) ==> !b.selected
  {
    if users != [] {
      FetchBarbersMembers(users[1..]);
      assert forall u :: u in users <==> u == users[0] || u in users[1..];
    }
  }

  /** One entry of the status drop-down. */
  datatype StatusOption = StatusOption(value: string, selected: bool)

  /** The four status options of the detail page, in `Statuses` order: the current status is
      selected, so exactly one option is for a known status and none for any other. */
  function StatusOptions(status: string): (r: seq<StatusOption>)
    ensures |r| == |Statuses|
    ensures forall k :: 0 <= k < |r| ==> r[k].value == Statuses[k] && (r[k].selected <==> status == Statuses[k])
    ensures forall j, k :: 0 <= j < k < |r| ==> !(r[j].selected && r[k].selected)
    ensures (exists k :: 0 <= k < |r| && r[k].selected) <==> status in Statuses
  {
    seq(|Statuses|, k requires 0 <= k < |Statuses| => StatusOption(Statuses[k], status == Statuses[k]))
  }

  /** The row as the admin pages show it. */
  datatype AppointmentView = AppointmentView(
    id: string,
    clientName: string,
    clientPhone: string,
    clientEmail: string,
    hasEmail: bool,
    address: string,
    service: string,
    notes: string,
    hasNotes: bool,
    scheduledFor: string,
    status: string,
    barberId: string,
    barberName: string,
    latitude: Option<real>,
    longitude: Option<real>)

  /** `to_view`: as the barber view, and an unassigned row shows barber id "" and barber name
      "Unassigned". */
  function ToView(row: AppointmentRow): (v: AppointmentView)
    ensures v.clientEmail == row.record.clientEmail.UnwrapOr("")
    ensures v.notes == row.record.notes.UnwrapOr("")
    ensures v.hasEmail <==> (row.record.clientEmail.Some? && !IsBlank(row.record.clientEmail.value, Rust))
    ensures v.hasNotes <==> (row.record.notes.Some? && !IsBlank(row.record.notes.value, Rust))
    ensures v.barberId == row.record.barberId.UnwrapOr("")
    ensures row.barberName.None? ==> v.barberName == "Unassigned"
    ensures row.barberName.Some? ==> v.barberName == row.barberName.value
    ensures v.id == row.record.id && v.status == row.record.status && v.scheduledFor == row.record.scheduledFor
  {
    var a := row.record;
    var email := a.clientEmail.UnwrapOr("");
    var notes := a.notes.UnwrapOr("");
    AppointmentView(a.id, a.clientName, a.clientPhone, email, !IsBlank(email, Rust), a.address,
      a.service, notes, !IsBlank(notes, Rust), a.scheduledFor, a.status, a.barberId.UnwrapOr(""),
      row.barberName.UnwrapOr("Unassigned"), a.latitude, a.longitude)
  }

  /** What `appointment_detail` renders. */
  datatype DetailOutcome = DetailNotFound | Detail(appointment: AppointmentView, barbers: seq<BarberView>,
                                                   statuses: seq<StatusOption>)

  /** `appointment_detail`. `barbers` is the admin and barber list as fetched (its order is
      the query's). An unknown id, or a failed query, is 404. */
  method AppointmentDetail(st: AppState, appointmentId: string) returns (d: DetailOutcome)
    ensures d.DetailNotFound? <==> FetchAppointmentEvent(st, appointmentId).None?
    ensures d.Detail? ==> d.appointment == ToView(FetchAppointmentEvent(st, appointmentId).value)
    ensures var barbers := FetchBarbers(st.online, st.users);
      d.Detail? ==> (|d.barbers| == |barbers| &&
        forall k :: 0 <= k < |barbers| ==>
          d.barbers[k] == barbers[k].(selected := barbers[k].id == d.appointment.barberId))
    ensures d.Detail? ==> d.statuses == StatusOptions(d.appointment.status)
  {
    var row := FetchAppointmentEvent(st, appointmentId);
    if row.None? {
      return DetailNotFound;
    }
    var appointment := ToView(row.value);
    var selected := SelectBarber(FetchBarbers(st.online, st.users), appointment.barberId);
    d := Detail(appointment, selected, StatusOptions(appointment.status));
  }
}
