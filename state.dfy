/** Shared application state, the push configuration and the change event (`state.rs`). */
module State {
  import opened Wrappers
  import opened Text
  import opened Models

  /** VAPID key material. */
  datatype PushConfig = PushConfig(publicKey: string, privateKey: string, subject: string) {
    /** `PushConfig::enabled`: both keys hold something besides white space. */
    predicate Enabled() {
      !(IsBlank(publicKey, Rust) || IsBlank(privateKey, Rust))
    }
  }

  /** Push is configured exactly when each key is non-empty once trimmed, that is, has a
      non-space character; the subject plays no part. */
  lemma EnabledIffKeysPresent(c: PushConfig, subject: string)
    ensures c.Enabled() <==> Trim(c.publicKey, Rust) != [] && Trim(c.privateKey, Rust) != []
    ensures c.Enabled() <==>
      (exists i :: 0 <= i < |c.publicKey| && !IsSpace(c.publicKey[i], Rust)) &&
      (exists j :: 0 <= j < |c.privateKey| && !IsSpace(c.privateKey[j], Rust))
    ensures c.(subject := subject).Enabled() == c.Enabled()
  {
    BlankIffTrimEmpty(c.publicKey, Rust);
    BlankIffTrimEmpty(c.privateKey, Rust);
  }

  /** `ServerEvent`: what is sent on the broadcast channel after a change. */
  datatype ServerEvent = ServerEvent(
    kind: string,
    appointmentId: Option<string>,
    status: Option<string>,
    clientName: Option<string>,
    clientPhone: Option<string>,
    clientEmail: Option<string>,
    address: Option<string>,
    service: Option<string>,
    notes: Option<string>,
    scheduledFor: Option<string>,
    barberName: Option<string>,
    barberId: Option<string>,
    latitude: Option<real>,
    longitude: Option<real>)

  /** `ServerEvent::from_row`. */
  function FromRow(kind: string, row: AppointmentRow): (e: ServerEvent)
    ensures e.kind == kind && e.appointmentId == Some(row.record.id)
    ensures e.status.Some? && e.clientName.Some? && e.clientPhone.Some? &&
            e.address.Some? && e.service.Some? && e.scheduledFor.Some?
  {
    var a := row.record;
    ServerEvent(kind, Some(a.id), Some(a.status), Some(a.clientName), Some(a.clientPhone),
      a.clientEmail, Some(a.address), Some(a.service), a.notes, Some(a.scheduledFor),
      row.barberName, a.barberId, a.latitude, a.longitude)
  }

  /** Reads a row back out of an event; only `requested_at` is not carried by an event. */
  function RowOf(e: ServerEvent, requestedAt: string): Option<AppointmentRow> {
    if e.appointmentId.Some? && e.status.Some? && e.clientName.Some? && e.clientPhone.Some? &&
       e.address.Some? && e.service.Some? && e.scheduledFor.Some?
    then Some(AppointmentRow(
      Appointment(e.appointmentId.value, e.clientName.value, e.clientPhone.value, e.clientEmail,
        e.address.value, e.service.value, e.notes, requestedAt, e.scheduledFor.value,
        e.status.value, e.barberId, e.latitude, e.longitude),
      e.barberName))
    else None
  }

  /** An event carries the whole row but its `requested_at`: every column is copied unchanged. */
  lemma FromRowLosesOnlyRequestedAt(kind: string, row: AppointmentRow)
    ensures RowOf(FromRow(kind, row), row.record.requestedAt) == Some(row)
  {
  }

  /** One attempted Web Push delivery; `delivered` is the transport's answer and `published`
      the number of events already sent on the broadcast channel when the attempt was made,
      which places the attempt among the events. */
  datatype PushPayload = PushPayload(title: string, body: string, url: string)
  datatype PushAttempt = PushAttempt(endpoint: string, p256dh: string, auth: string, payload: PushPayload,
                                     delivered: bool, published: nat)

  /** No two subscriptions share the pair (appointment_id, endpoint), nor an id. */
  ghost predicate SubscriptionsWellFormed(subs: seq<SubscriptionRecord>) {
    forall i, j :: 0 <= i < j < |subs| ==>
      (subs[i].appointmentId, subs[i].endpoint) != (subs[j].appointmentId, subs[j].endpoint) &&
      subs[i].id != subs[j].id
  }

  /** `AppState`: the SQLite database (its four tables), the broadcast channel and the push
      configuration. The channel is represented by the sequence of every event sent on it, and
      the push transport by the sequence of every delivery attempted. `online` is false when
      the database answers every query with an error. */
  class AppState {
    var appointments: map<string, Appointment>
    var users: seq<UserRow>
    var subscriptions: seq<SubscriptionRecord>
    var cmsBlocks: map<string, CmsBlock>
    var online: bool
    var events: seq<ServerEvent>
    var pushLog: seq<PushAttempt>
    const push: PushConfig

    ghost predicate Valid()
      reads this
    {
      (forall id :: id in appointments ==> appointments[id].id == id) &&
      (forall k :: k in cmsBlocks ==> cmsBlocks[k].key == k) &&
      SubscriptionsWellFormed(subscriptions)
    }

    constructor (push: PushConfig)
      ensures Valid() && online && this.push == push
      ensures appointments == map[] && users == [] && subscriptions == [] && cmsBlocks == map[]
      ensures events == [] && pushLog == []
    {
      appointments := map[];
      users := [];
      subscriptions := [];
      cmsBlocks := map[];
      online := true;
      events := [];
      pushLog := [];
      this.push := push;
    }
  }
}
