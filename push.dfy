/** Web Push subscriptions and notification dispatch (`push.rs`). */
module Push {
  import opened Wrappers
  import opened Models
  import opened State

  /** `PushSubscriptionInput`: the browser's subscription JSON, once parsed. */
  datatype SubscriptionInput = SubscriptionInput(endpoint: string, p256dh: string, auth: string)

  /** Where the pair (appointment, endpoint) is stored, if anywhere. */
  function IndexOfPair(subs: seq<SubscriptionRecord>, appointmentId: string, endpoint: string): (r: Option<nat>)
    ensures r.Some? ==> r.value < |subs| && subs[r.value].appointmentId == appointmentId &&
                        subs[r.value].endpoint == endpoint
    ensures r.None? ==> forall k :: 0 <= k < |subs| ==>
                          !(subs[k].appointmentId == appointmentId && subs[k].endpoint == endpoint)
  {
    if subs == [] then None
    else if subs[0].appointmentId == appointmentId && subs[0].endpoint == endpoint then Some(0)
    else match IndexOfPair(subs[1..], appointmentId, endpoint)
      case None => None
      case Some(i) => Some(i + 1)
  }

  predicate HasId(subs: seq<SubscriptionRecord>, id: string) {
    exists k :: 0 <= k < |subs| && subs[k].id == id
  }

  /** The INSERT ... ON CONFLICT(appointment_id, endpoint) DO UPDATE of `store_subscription`:
      None when the insert hits the primary key. */
  function Upserted(subs: seq<SubscriptionRecord>, appointmentId: string, input: SubscriptionInput,
                    newId: string, now: string): Option<seq<SubscriptionRecord>>
  {
    match IndexOfPair(subs, appointmentId, input.endpoint)
    case Some(i) => Some(subs[i := subs[i].(p256dh := input.p256dh, auth := input.auth)])
    case None =>
      if HasId(subs, newId) then None
      else Some(subs + [SubscriptionRecord(newId, appointmentId, input.endpoint, input.p256dh, input.auth, now)])
  }

  /** After an upsert exactly one row holds the pair, with the submitted keys; every row for
      another pair is where it was and unchanged; the table stays well formed. */
  lemma UpsertSpec(subs: seq<SubscriptionRecord>, appointmentId: string, input: SubscriptionInput,
                   newId: string, now: string)
    requires SubscriptionsWellFormed(subs)
    requires Upserted(subs, appointmentId, input, newId, now).Some?
    ensures var r := Upserted(subs, appointmentId, input, newId, now).value;
      SubscriptionsWellFormed(r) &&
      (exists j :: 0 <= j < |r| && r[j].appointmentId == appointmentId && r[j].endpoint == input.endpoint &&
        r[j].p256dh == input.p256dh && r[j].auth == input.auth &&
        forall k :: 0 <= k < |r| && r[k].appointmentId == appointmentId && r[k].endpoint == input.endpoint ==> k == j) &&
      |subs| <= |r| <= |subs| + 1 &&
      (forall k :: 0 <= k < |subs| && !(subs[k].appointmentId == appointmentId && subs[k].endpoint == input.endpoint) ==>
        r[k] == subs[k])
  {
    var r := Upserted(subs, appointmentId, input, newId, now).value;
    match IndexOfPair(subs, appointmentId, input.endpoint)
    case Some(i) =>
      assert r[i].appointmentId == appointmentId && r[i].endpoint == input.endpoint;
    case None =>
      var j := |subs|;
      assert r[j].appointmentId == appointmentId && r[j].endpoint == input.endpoint;
      assert !HasId(subs, newId);
  }

  /** Submitting the same pair again with other keys leaves one row, holding the latest keys. */
  lemma ResubmitReplacesKeys(subs: seq<SubscriptionRecord>, appointmentId: string,
                             first: SubscriptionInput, second: SubscriptionInput,
                             id1: string, id2: string, now: string)
    requires SubscriptionsWellFormed(subs)
    requires first.endpoint == second.endpoint
    requires Upserted(subs, appointmentId, first, id1, now).Some?
    ensures var once := Upserted(subs, appointmentId, first, id1, now).value;
      var twice := Upserted(once, appointmentId, second, id2, now);
      twice.Some? && |twice.value| == |once| &&
      exists j :: 0 <= j < |twice.value| && twice.value[j].endpoint == second.endpoint &&
        twice.value[j].appointmentId == appointmentId &&
        twice.value[j].p256dh == second.p256dh && twice.value[j].auth == second.auth
  {
    UpsertSpec(subs, appointmentId, first, id1, now);
    var once := Upserted(subs, appointmentId, first, id1, now).value;
    var j :| 0 <= j < |once| && once[j].appointmentId == appointmentId && once[j].endpoint == first.endpoint;
    var i := IndexOfPair(once, appointmentId, second.endpoint).value;
    var twice := Upserted(once, appointmentId, second, id2, now).value;
    assert twice[i].p256dh == second.p256dh && twice[i].auth == second.auth;
  }

  /** `store_subscription`. `parsed` is the subscription JSON after `serde_json::from_str`,
      None when it does not parse. Returns false when the database reports an error. */
  method StoreSubscription(st: AppState, appointmentId: string, parsed: Option<SubscriptionInput>,
                           newId: string, now: string) returns (ok: bool)
    requires st.Valid()
    modifies st`subscriptions
    ensures st.Valid()
    ensures parsed.None? ==> ok && st.subscriptions == old(st.subscriptions)
    ensures parsed.Some? ==>
      ok == (old(st.online) && Upserted(old(st.subscriptions), appointmentId, parsed.value, newId, now).Some?)
    ensures parsed.Some? && ok ==>
      st.subscriptions == Upserted(old(st.subscriptions), appointmentId, parsed.value, newId, now).value
    ensures !ok ==> st.subscriptions == old(st.subscriptions)
  {
    if parsed.None? {
      return true;
    }
    if !st.online {
      return false;
    }
    var next := Upserted(st.subscriptions, appointmentId, parsed.value, newId, now);
    if next.None? {
      return false;
    }
    UpsertSpec(st.subscriptions, appointmentId, parsed.value, newId, now);
    st.subscriptions := next.value;
    ok := true;
  }

  /** The rows `SELECT ... WHERE appointment_id = ?` returns, in table order. */
  function SubscriptionsFor(subs: seq<SubscriptionRecord>, appointmentId: string): (r: seq<SubscriptionRecord>)
    ensures |r| <= |subs|
    ensures forall s :: s in r <==> s in subs && s.appointmentId == appointmentId
  {
    if subs == [] then []
    else
      var rest := SubscriptionsFor(subs[1..], appointmentId);
      assert forall s :: s in subs <==> s == subs[0] || s in subs[1..];
      if subs[0].appointmentId == appointmentId then [subs[0]] + rest else rest
  }

  /** What a delivery attempt was aimed at, whatever its outcome. */
  function Target(a: PushAttempt): (string, string, string, PushPayload) {
    (a.endpoint, a.p256dh, a.auth, a.payload)
  }

  /** One attempt per row, in row order, each carrying the same payload. */
  ghost predicate AttemptsMatch(attempts: seq<PushAttempt>, rows: seq<SubscriptionRecord>, payload: PushPayload) {
    |attempts| == |rows| &&
    forall k :: 0 <= k < |rows| ==>
      Target(attempts[k]) == (rows[k].endpoint, rows[k].p256dh, rows[k].auth, payload)
  }

  /** Every attempt added from `before` to `after` was made when exactly `published` events had
      been sent on the broadcast channel. */
  ghost predicate SentBefore(before: seq<PushAttempt>, after: seq<PushAttempt>, published: nat) {
    forall k :: |before| <= k < |after| ==> after[k].published == published
  }

  /** The JSON payload of a notification: the url defaults to "/". */
  function NotificationPayload(title: string, body: string, url: Option<string>): (p: PushPayload)
    ensures url.None? ==> p.url == "/"
    ensures url.Some? ==> p.url == url.value
    ensures p.title == title && p.body == body
  {
    PushPayload(title, body, url.UnwrapOr("/"))
  }

  /** The delivery loop of `notify_appointment`: one attempt per row, in order; the outcome
      of each attempt is the transport's and is only logged. */
  method DeliverAll(st: AppState, rows: seq<SubscriptionRecord>, payload: PushPayload)
    modifies st`pushLog
    ensures |st.pushLog| == |old(st.pushLog)| + |rows|
    ensures st.pushLog[..|old(st.pushLog)|] == old(st.pushLog)
    ensures AttemptsMatch(st.pushLog[|old(st.pushLog)|..], rows, payload)
    ensures SentBefore(old(st.pushLog), st.pushLog, |st.events|)
  {
    var sent: seq<PushAttempt> := [];
    var i := 0;
    while i < |rows|
      invariant 0 <= i <= |rows|
      invariant st.pushLog == old(st.pushLog) + sent
      invariant AttemptsMatch(sent, rows[..i], payload)
      invariant forall k :: 0 <= k < |sent| ==> sent[k].published == |st.events|
    {
      var row := rows[i];
      var delivered: bool :| true;
      var attempt := PushAttempt(row.endpoint, row.p256dh, row.auth, payload, delivered, |st.events|);
      assert rows[..i + 1] == rows[..i] + [row];
      sent := sent + [attempt];
      st.pushLog := st.pushLog + [attempt];
      i := i + 1;
    }
    assert st.pushLog[|old(st.pushLog)|..] == sent;
    assert rows[..i] == rows;
  }

  /** What `notify_appointment` leaves in the push log, from `before` to `after`: nothing new
      when push is not configured or the lookup fails; otherwise one attempt per stored
      subscription of the appointment, in table order, all with the same payload. */
  ghost predicate Notified(st: AppState, before: seq<PushAttempt>, after: seq<PushAttempt>,
                           appointmentId: string, title: string, body: string, url: Option<string>)
    reads st
  {
    if st.push.Enabled() && st.online then
      |after| >= |before| && after[..|before|] == before &&
      AttemptsMatch(after[|before|..], SubscriptionsFor(st.subscriptions, appointmentId),
                    NotificationPayload(title, body, url))
    else after == before
  }

  /** `notify_appointment`: nothing at all when push is not configured; otherwise one
      delivery attempt per stored subscription of the appointment, a failed attempt only
      logged. A failed lookup reads as no subscriptions. */
  method NotifyAppointment(st: AppState, appointmentId: string, title: string, body: string, url: Option<string>)
    modifies st`pushLog
    ensures Notified(st, old(st.pushLog), st.pushLog, appointmentId, title, body, url)
    ensures SentBefore(old(st.pushLog), st.pushLog, |st.events|)
  {
    if !st.push.Enabled() || !st.online {
      return;
    }
    DeliverAll(st, SubscriptionsFor(st.subscriptions, appointmentId), NotificationPayload(title, body, url));
  }

  /** An appointment without stored subscriptions gets no delivery attempt at all. */
  lemma NoSubscriptionsNoAttempt(st: AppState, before: seq<PushAttempt>, after: seq<PushAttempt>,
                                 appointmentId: string, title: string, body: string, url: Option<string>)
    requires Notified(st, before, after, appointmentId, title, body, url)
    requires SubscriptionsFor(st.subscriptions, appointmentId) == []
    ensures after == before
  {
    if st.push.Enabled() && st.online {
      assert after == after[..|before|] + after[|before|..];
    }
  }
}
