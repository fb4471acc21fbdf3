/** The barber area: the status rule, the list of visible appointments and the row view
    (`routes/barber.rs`). */
module Barber {
  import opened Wrappers
  import opened Text
  import opened Models
  import opened State
  import opened Db
  import opened Push
  import opened Auth
  import opened Http

  /** The statuses a barber may set, in the order `update_status` lists them. */
  const AllowedStatuses: seq<string> := [StatusAccepted, StatusDeclined, StatusCompleted, StatusPending]

  /** What `update_status` decides before it writes. */
  datatype Decision =
    | InvalidStatus
    | Missing
    | NotAllowed
    | Write(status: string, barberId: Option<string>)

  /** The rule of `update_status`, given the stored `barber_id` of the row when the lookup
      finds it (`found` is None for an unknown id and for a failed query). */
  function StatusDecision(found: Option<Option<string>>, barber: string, status: string): (d: Decision)
    ensures d == InvalidStatus <==> status !in AllowedStatuses
    ensures d == Missing <==> status in AllowedStatuses && found.None?
    ensures d == NotAllowed <==> (status in AllowedStatuses && found.Some? &&
                                  found.value.Some? && found.value.value != barber)
    ensures d.Write? ==> d.status == status
    ensures d.Write? && status == StatusAccepted ==> d.barberId == Some(barber)
    ensures d.Write? && status != StatusAccepted ==> d.barberId == found.value
  {
    if status !in AllowedStatuses then InvalidStatus
    else match found
      case None => Missing
      case Some(current) =>
        if !(current.None? || current == Some(barber)) then NotAllowed
        else Write(status, if status == StatusAccepted then Some(barber) else current)
  }

  /** The barber path never moves an appointment from one barber to another: a write keeps
      the stored barber when there is one, and otherwise leaves the row unassigned or gives
      it to the acting barber. */
  lemma NeverReassigns(found: Option<Option<string>>, barber: string, status: string)
    ensures var d := StatusDecision(found, barber, status);
      d.Write? ==> (found.value.Some? ==> d.barberId == found.value) &&
                   (d.barberId == None || d.barberId == Some(barber))
  {
  }

  /** Once one barber has accepted an appointment, any other barber's later update of it is
      refused, whatever status is asked for. The claim is a read followed by a write, so
      this holds of updates that run one after the other; two updates that read the row
      before either writes can both succeed. */
  lemma ClaimExcludesOthers(found: Option<Option<string>>, first: string, second: string, status: string)
    requires first != second
    requires StatusDecision(found, first, StatusAccepted).Write?
    requires status in AllowedStatuses
    ensures StatusDecision(Some(StatusDecision(found, first, StatusAccepted).barberId), second, status) == NotAllowed
  {
  }

  /** `WHERE a.barber_id = ? OR (a.barber_id IS NULL AND a.status = 'pending')`. */
  predicate Listed(a: Appointment, barber: string) {
    a.barberId == Some(barber) || (a.barberId.None? && a.status == StatusPending)
  }

  /** The rows `list_appointments` selects, in table order (the `ORDER BY` is not modelled). */
  function ListFor(rows: seq<Appointment>, barber: string): (r: seq<Appointment>)
    ensures |r| <= |rows|
    ensures forall a :: a in r <==> a in rows && Listed(a, barber)
  {
    if rows == [] then []
    else
      var rest := ListFor(rows[1..], barber);
      assert forall a :: a in rows <==> a == rows[0] || a in rows[1..];
      if Listed(rows[0], barber) then [rows[0]] + rest else rest
  }

  /** Every row a barber is shown is one the barber may update; the rows a barber may update
      but is not shown are the unassigned ones that are no longer pending. */
  lemma ListedRowsAreEditable(a: Appointment, barber: string, status: string)
    requires status in AllowedStatuses
    ensures Listed(a, barber) ==> StatusDecision(Some(a.barberId), barber, status).Write?
    ensures StatusDecision(Some(a.barberId), barber, status).Write? && !Listed(a, barber) ==>
              a.barberId.None? && a.status != StatusPending
  {
  }

  /** After an accept, the row is listed for the barber who accepted it and for nobody else. */
  lemma AcceptedRowListedOnlyForClaimer(a: Appointment, barber: string, other: string)
    requires StatusDecision(Some(a.barberId), barber, StatusAccepted).Write?
    requires other != barber
    ensures var b := a.(status := StatusAccepted, barberId := Some(barber));
      Listed(b, barber) && !Listed(b, other)
  {
  }

  /** The row as the barber pages show it. */
  datatype AppointmentView = AppointmentView(
    id: string,
    clientName: string,
    clientPhone: string,
    clientEmail: string,
    hasEmail: bool,
    address: string,
    service: string,
    notes: string,
    hasNotes: bool,
    scheduledFor: string,
    status: string,
    latitude: Option<real>,
    longitude: Option<real>)

  /** `to_view`: a missing email or note shows as the empty string, and is flagged present
      only when it has a non-space character. */
  function ToView(row: AppointmentRow): (v: AppointmentView)
    ensures v.clientEmail == row.record.clientEmail.UnwrapOr("")
    ensures v.notes == row.record.notes.UnwrapOr("")
    ensures v.hasEmail <==> (row.record.clientEmail.Some? &&
                             exists i :: 0 <= i < |row.record.clientEmail.value| &&
                                         !IsSpace(row.record.clientEmail.value[i], Rust))
    ensures v.hasNotes <==> (row.record.notes.Some? &&
                             exists i :: 0 <= i < |row.record.notes.value| &&
                                         !IsSpace(row.record.notes.value[i], Rust))
    ensures v.id == row.record.id && v.status == row.record.status && v.scheduledFor == row.record.scheduledFor
  {
    var a := row.record;
    var email := a.clientEmail.UnwrapOr("");
    var notes := a.notes.UnwrapOr("");
    AppointmentView(a.id, a.clientName, a.clientPhone, email, !IsBlank(email, Rust), a.address,
      a.service, notes, !IsBlank(notes, Rust), a.scheduledFor, a.status, a.latitude, a.longitude)
  }

  /** `update_status`, run by the authenticated barber `auth`. On a write the appointment's
      clients are notified (awaited) and then the re-read row is published as
      "appointment_updated"; every refusal leaves the whole state as it was. */
  method UpdateStatus(st: AppState, auth: AuthUser, appointmentId: string, status: string) returns (resp: Response)
    requires st.Valid()
    modifies st`appointments, st`pushLog, st`events
    ensures st.Valid()
    ensures var found := if old(st.online) && appointmentId in old(st.appointments)
                         then Some(old(st.appointments)[appointmentId].barberId) else None;
      var d := StatusDecision(found, auth.id, status);
      match d
      case InvalidStatus => resp == BadRequest("Invalid status")
      case Missing => resp == NotFound("Appointment not found")
      case NotAllowed => resp == Forbidden("Not allowed")
      case Write(_, barberId) =>
        resp == SeeOther("/barber/appointments") &&
        st.appointments == old(st.appointments)[appointmentId :=
          old(st.appointments)[appointmentId].(status := status, barberId := barberId)]
    ensures !resp.SeeOther? ==>
      st.appointments == old(st.appointments) && st.pushLog == old(st.pushLog) && st.events == old(st.events)
    ensures resp.SeeOther? ==>
      Notified(st, old(st.pushLog), st.pushLog, appointmentId, "Appointment updated",
               "Status changed to " + status + ".", Some("/status/" + appointmentId)) &&
      st.events == old(st.events) + [FromRow("appointment_updated",
        AppointmentRow(st.appointments[appointmentId], JoinedName(st.users, st.appointments[appointmentId].barberId)))]
    ensures SentBefore(old(st.pushLog), st.pushLog, |old(st.events)|)
  {
    if status !in AllowedStatuses {
      return BadRequest("Invalid status");
    }
    var found := if st.online && appointmentId in st.appointments
                 then Some(st.appointments[appointmentId].barberId) else None;
    var d := StatusDecision(found, auth.id, status);
    if d.Missing? {
      return NotFound("Appointment not found");
    }
    if d.NotAllowed? {
      return Forbidden("Not allowed");
    }
    var current := st.appointments[appointmentId];
    st.appointments := st.appointments[appointmentId := current.(status := status, barberId := d.barberId)];
    NotifyAppointment(st, appointmentId, "Appointment updated", "Status changed to " + status + ".",
                      Some("/status/" + appointmentId));
    var row := FetchAppointmentEvent(st, appointmentId);
    if row.Some? {
      st.events := st.events + [FromRow("appointment_updated", row.value)];
    }
    resp := SeeOther("/barber/appointments");
  }
}
