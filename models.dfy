/** Constants and row shapes shared by every handler (the source's `models.rs`). */
module Models {
  import opened Wrappers

  const RoleAdmin: string := "admin"
  const RoleBarber: string := "barber"

  const StatusPending: string := "pending"
  const StatusAccepted: string := "accepted"
  const StatusDeclined: string := "declined"
  const StatusCompleted: string := "completed"

  /** The four statuses, in the order the detail page lists them. */
  const Statuses: seq<string> := [StatusPending, StatusAccepted, StatusDeclined, StatusCompleted]

  /** A row of the `users` table. `active` is SQLite's integer flag. */
  datatype UserRow = UserRow(
    id: string,
    username: string,
    displayName: string,
    role: string,
    passwordHash: string,
    active: int,
    createdAt: string)

  /** A row of the `appointments` table. Coordinates are the parsed `f64` values, kept as reals. */
  datatype Appointment = Appointment(
    id: string,
    clientName: string,
    clientPhone: string,
    clientEmail: Option<string>,
    address: string,
    service: string,
    notes: Option<string>,
    requestedAt: string,
    scheduledFor: string,
    status: string,
    barberId: Option<string>,
    latitude: Option<real>,
    longitude: Option<real>)

  /** `AppointmentRow`: the stored columns plus `barber_name`, which the queries take from a
      join with `users` (or set to NULL). */
  datatype AppointmentRow = AppointmentRow(record: Appointment, barberName: Option<string>)

  /** A row of the `push_subscriptions` table; (appointment_id, endpoint) is unique. */
  datatype SubscriptionRecord = SubscriptionRecord(
    id: string,
    appointmentId: string,
    endpoint: string,
    p256dh: string,
    auth: string,
    createdAt: string)

  /** A row of the `cms_blocks` table. */
  datatype CmsBlock = CmsBlock(key: string, title: string, html: string, updatedAt: string, updatedBy: Option<string>)
}
