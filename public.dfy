/** The public site: booking, push sign-up on the status page, the login redirect and the
    barber initials (`routes/public.rs`). */
module Public {
  import opened Wrappers
  import opened Text
  import opened Models
  import opened State
  import opened Db
  import opened Push
  import opened Auth
  import opened Http
  import opened Forms
  import Admin

  // ---------------------------------------------------------------------------------------
  // login

  /** `login` after a successful authentication: `next` is honoured only when it starts with
      '/' and lies in the user's own area (/admin for admins, /barber for every other role);
      otherwise the role's dashboard. */
  function LoginRedirect(role: string, next: Option<string>): (location: string)
    ensures role == RoleAdmin ==>
      location == (if next.Some? && StartsWith(next.value, "/") && StartsWith(next.value, "/admin")
                   then next.value else "/admin/dashboard")
    ensures role != RoleAdmin ==>
      location == (if next.Some? && StartsWith(next.value, "/") && StartsWith(next.value, "/barber")
                   then next.value else "/barber/dashboard")
  {
    var requested := next.UnwrapOr("");
    var requested := if StartsWith(requested, "/") then requested else "";
    var fallback := if role == RoleAdmin then "/admin/dashboard" else "/barber/dashboard";
    if role == RoleAdmin then
      if StartsWith(requested, "/admin") then requested else fallback
    else if StartsWith(requested, "/barber") then requested
    else fallback
  }

  /** The redirect never leaves the user's own area, so `next` cannot send anyone off the
      site or into the other role's pages. */
  lemma RedirectStaysInArea(role: string, next: Option<string>)
    ensures role == RoleAdmin ==> StartsWith(LoginRedirect(role, next), "/admin")
    ensures role != RoleAdmin ==> StartsWith(LoginRedirect(role, next), "/barber")
  {
    var location := LoginRedirect(role, next);
    if role == RoleAdmin && location == "/admin/dashboard" {
      assert location[..6] == "/admin";
    } else if role != RoleAdmin && location == "/barber/dashboard" {
      assert location[..7] == "/barber";
    }
  }

  /** Logging in again from the logged-out page of an area returns a user of that area's role
      to that area's dashboard. */
  lemma LogoutLinkLeadsBack(path: string, cookies: map<string, string>, role: string)
    requires IsLoggedOut(cookies)
    requires StartsWith(path, "/barber") ==> role == RoleBarber
    requires !StartsWith(path, "/barber") ==> role == RoleAdmin
    ensures var target := LogoutGuard(path, cookies).loginUrl[|"/login?next="|..];
      LoginRedirect(role, Some(target)) == target
  {
    var url := LogoutGuard(path, cookies).loginUrl;
    var target := url[|"/login?next="|..];
    if StartsWith(path, "/barber") {
      assert target == "/barber/dashboard";
      assert target[..1] == "/" && target[..7] == "/barber";
    } else {
      assert target == "/admin/dashboard";
      assert target[..1] == "/" && target[..6] == "/admin";
    }
  }

  /** What `login` answers: the Basic challenge, or a redirect. */
  datatype LoginOutcome = Challenge | Redirect(location: string)

  /** `login`. `credentials` is the parsed Authorization header (None when it is missing or
      malformed); a missing password is the empty string. */
  function Login(st: AppState, credentials: Option<(string, Option<string>)>, next: Option<string>,
                 verify: (string, string) -> bool): (r: LoginOutcome)
    reads st
    ensures credentials.None? ==> r == Challenge
    ensures credentials.Some? ==>
      var user := AuthenticateCredentials(st, credentials.value.0, credentials.value.1.UnwrapOr(""), verify);
      r == (if user.None? then Challenge else Redirect(LoginRedirect(user.value.role, next)))
  {
    match credentials
    case None => Challenge
    case Some((username, password)) =>
      match AuthenticateCredentials(st, username, password.UnwrapOr(""), verify)
      case None => Challenge
      case Some(user) => Redirect(LoginRedirect(user.role, next))
  }

  // ---------------------------------------------------------------------------------------
  // fetch_barbers: initials

  /** The positions where a word of `s[from..]` starts, in order, as `split_whitespace` finds
      them; `afterSpace` says whether the character before `from` (if any) was white space. */
  function WordStarts(s: string, from: nat, afterSpace: bool): (r: seq<nat>)
    requires from <= |s|
    ensures forall k :: 0 <= k < |r| ==> from <= r[k] < |s| && !IsSpace(s[r[k]], Rust)
    ensures forall j, k :: 0 <= j < k < |r| ==> r[j] < r[k]
    ensures forall i :: from <= i < |s| ==>
      (i in r <==> !IsSpace(s[i], Rust) && (if i == from then afterSpace else IsSpace(s[i - 1], Rust)))
    decreases |s| - from
  {
    if from == |s| then []
    else if !IsSpace(s[from], Rust) && afterSpace then [from] + WordStarts(s, from + 1, false)
    else WordStarts(s, from + 1, IsSpace(s[from], Rust))
  }

  /** A word starts at `i` when `s[i]` is not white space and follows white space or the start. */
  predicate WordStart(s: string, i: int) {
    0 <= i < |s| && !IsSpace(s[i], Rust) && (i == 0 || IsSpace(s[i - 1], Rust))
  }

  /** `display_name.split_whitespace().filter_map(first char).take(2)`, upper-cased: one
      letter per word for at most the first two words. */
  function Initials(displayName: string): (r: string)
    ensures var starts := WordStarts(displayName, 0, true);
      |r| == (if |starts| < 2 then |starts| else 2) &&
      forall k :: 0 <= k < |r| ==> r[k] == UpperAscii(displayName[starts[k]])
    ensures forall k :: 0 <= k < |r| ==> WordStart(displayName, WordStarts(displayName, 0, true)[k])
  {
    var starts := WordStarts(displayName, 0, true);
    var firsts := seq(|starts|, k requires 0 <= k < |starts| => displayName[starts[k]]);
    ToUpper(if |firsts| < 2 then firsts else firsts[..2])
  }

  /** Only the first character of a word is taken: the initials are those of the two first
      words, however long the words are. */
  lemma InitialsOfTwoWords(first: string, second: string, rest: string)
    requires first != [] && forall i :: 0 <= i < |first| ==> !IsSpace(first[i], Rust)
    requires second != [] && forall i :: 0 <= i < |second| ==> !IsSpace(second[i], Rust)
    ensures Initials(first + " " + second + rest) == [UpperAscii(first[0]), UpperAscii(second[0])]
  {
    var s := first + " " + second + rest;
    var starts := WordStarts(s, 0, true);
    assert s[|first|] == ' ' && s[|first| + 1] == second[0];
    assert 0 in starts;
    assert |first| + 1 in starts;
    forall i | 0 < i < |first| + 1 ensures i !in starts {
      assert !IsSpace(s[i - 1], Rust);
    }
    var j :| 0 <= j < |starts| && starts[j] == 0;
    var k :| 0 <= k < |starts| && starts[k] == |first| + 1;
    assert forall m :: 0 <= m < |starts| ==> starts[0] <= starts[m];
    assert starts[0] <= starts[j];
    assert starts[0] == 0;
    assert k >= 1;
    assert forall m :: 1 <= m < |starts| ==> starts[1] <= starts[m];
    assert starts[1] <= starts[k];
    assert starts[1] > starts[0];
    assert starts[1] in starts;
    assert starts[1] == |first| + 1;
  }

  /** A name of white space alone has no initials. */
  lemma BlankNameNoInitials(displayName: string)
    requires IsBlank(displayName, Rust)
    ensures Initials(displayName) == ""
  {
  }

  // ---------------------------------------------------------------------------------------
  // create_booking

  /** `BookingForm`, with the coordinates already parsed (None when absent or not a number). */
  datatype BookingForm = BookingForm(
    clientName: string,
    clientPhone: string,
    clientEmail: Option<string>,
    address: string,
    service: string,
    scheduledFor: string,
    notes: Option<string>,
    preferredBarberId: Option<string>,
    latitude: Option<real>,
    longitude: Option<real>,
    pushSubscription: Option<string>)

  const NameRequired: string := "Full name is required."
  const PhoneRequired: string := "Phone number is required."
  const AddressRequired: string := "Service address is required."
  const ServiceRequired: string := "Please select a service."
  const ScheduleRequired: string := "Please pick a date and time."

  /** The five checks of `create_booking`, in the order they run. */
  function BookingChecks(f: BookingForm): seq<Check> {
    [Check(IsBlank(f.clientName, Rust), NameRequired),
     Check(IsBlank(f.clientPhone, Rust), PhoneRequired),
     Check(IsBlank(f.address, Rust), AddressRequired),
     Check(IsBlank(f.service, Rust), ServiceRequired),
     Check(IsBlank(f.scheduledFor, Rust), ScheduleRequired)]
  }

  /** Every check runs and adds its own message: a field's message is reported exactly when
      the field is blank, and the booking is accepted exactly when none is. */
  lemma BookingErrorsSpec(f: BookingForm)
    ensures var r := Errors(BookingChecks(f));
      (NameRequired in r <==> IsBlank(f.clientName, Rust)) &&
      (PhoneRequired in r <==> IsBlank(f.clientPhone, Rust)) &&
      (AddressRequired in r <==> IsBlank(f.address, Rust)) &&
      (ServiceRequired in r <==> IsBlank(f.service, Rust)) &&
      (ScheduleRequired in r <==> IsBlank(f.scheduledFor, Rust)) &&
      (r == [] <==> !IsBlank(f.clientName, Rust) && !IsBlank(f.clientPhone, Rust) && !IsBlank(f.address, Rust) &&
                    !IsBlank(f.service, Rust) && !IsBlank(f.scheduledFor, Rust))
  {
    var a, b, c, d, e := IsBlank(f.clientName, Rust), IsBlank(f.clientPhone, Rust),
                         IsBlank(f.address, Rust), IsBlank(f.service, Rust),
                         IsBlank(f.scheduledFor, Rust);
    var checks := [Check(a, NameRequired), Check(b, PhoneRequired), Check(c, AddressRequired),
                   Check(d, ServiceRequired), Check(e, ScheduleRequired)];
    assert checks == BookingChecks(f);
    var r := Errors(checks);
    assert DistinctMessages(checks) by {
      assert AddressRequired[0] != ScheduleRequired[0];
    }
    assert NameRequired in r <==> a by {
      ErrorsReportEachCheck(checks, 0);
    }
    assert PhoneRequired in r <==> b by {
      ErrorsReportEachCheck(checks, 1);
    }
    assert AddressRequired in r <==> c by {
      ErrorsReportEachCheck(checks, 2);
    }
    assert ServiceRequired in r <==> d by {
      ErrorsReportEachCheck(checks, 3);
    }
    assert ScheduleRequired in r <==> e by {
      ErrorsReportEachCheck(checks, 4);
    }
    assert r == [] <==> !a && !b && !c && !d && !e by {
      ErrorsEmpty(checks);
    }
  }

  /** The five checks at the top of `create_booking`, each pushing its message. */
  method CheckBooking(f: BookingForm) returns (errors: seq<string>)
    ensures errors == Errors(BookingChecks(f))
  {
    ghost var checks := BookingChecks(f);
    errors := [];
    if IsBlank(f.clientName, Rust) {
      errors := errors + [NameRequired];
    }
    ErrorsStep(checks, 0);
    assert errors == Errors(checks[..1]);
    if IsBlank(f.clientPhone, Rust) {
      errors := errors + [PhoneRequired];
    }
    ErrorsStep(checks, 1);
    assert errors == Errors(checks[..2]);
    if IsBlank(f.address, Rust) {
      errors := errors + [AddressRequired];
    }
    ErrorsStep(checks, 2);
    assert errors == Errors(checks[..3]);
    if IsBlank(f.service, Rust) {
      errors := errors + [ServiceRequired];
    }
    ErrorsStep(checks, 3);
    assert errors == Errors(checks[..4]);
    if IsBlank(f.scheduledFor, Rust) {
      errors := errors + [ScheduleRequired];
    }
    ErrorsStep(checks, 4);
    assert checks[..5] == checks;
  }

  /** A service of the catalogue. */
  datatype ServiceOption = ServiceOption(name: string, duration: string, description: string, selected: bool)

  /** `service_catalog`. */
  const ServiceCatalog: seq<ServiceOption> := [
    ServiceOption("Signature Cut", "45 min", "Precision cut, styling, and lineup.", false),
    ServiceOption("Fade & Line-Up", "35 min", "Skin fade with sharp finishing touches.", false),
    ServiceOption("Beard Sculpt", "25 min", "Shape, trim, and conditioning for the beard.", false),
    ServiceOption("Full Grooming", "60 min", "Cut, beard, and grooming refresh.", false)
  ]

  /** A barber as the public pages list it. */
  datatype BarberSummary = BarberSummary(id: string, displayName: string, initials: string, selected: bool)

  /** A user as the public `fetch_barbers` lists it, with the initials of its display name. */
  function SummaryOf(u: UserRow): BarberSummary {
    BarberSummary(u.id, u.displayName, Initials(u.displayName), false)
  }

  /** The public `fetch_barbers`: the active barbers only, in table order; a failed query
      reads as no barbers. */
  function FetchBarbers(online: bool, users: seq<UserRow>): (r: seq<BarberSummary>)
    ensures |r| <= |users|
    ensures !online ==> r == []
  {
    if !online || users == [] then []
    else (if users[0].role == RoleBarber && users[0].active == 1 then [SummaryOf(users[0])] else []) +
         FetchBarbers(online, users[1..])
  }

  /** The public barber list holds exactly the active barbers, each with the initials of its
      display name and none selected; admins and inactive barbers are never offered. */
  lemma {:induction false} FetchBarbersMembers(users: seq<UserRow>)
    ensures forall b :: b in FetchBarbers(true, users) <==>
      exists u :: u in users && u.role == RoleBarber && u.active == 1 && b == SummaryOf(u)
    ensures forall b :: b in FetchBarbers(true, users) ==> b.initials == Initials(b.displayName) && !b.selected
  {
    if users != [] {
      FetchBarbersMembers(users[1..]);
      assert forall u :: u in users <==> u == users[0] || u in users[1..];
    }
  }

  /** The loop over the catalogue: a service is selected exactly when its name equals the
      submitted one, untrimmed. */
  method SelectService(services: seq<ServiceOption>, submitted: string) returns (r: seq<ServiceOption>)
    ensures |r| == |services|
    ensures forall k :: 0 <= k < |r| ==> r[k] == services[k].(selected := services[k].name == submitted)
  {
    r := services;
    var i := 0;
    while i < |r|
      invariant 0 <= i <= |r| == |services|
      invariant forall k :: 0 <= k < i ==> r[k] == services[k].(selected := services[k].name == submitted)
      invariant forall k :: i <= k < |r| ==> r[k] == services[k]
    {
      r := r[i := r[i].(selected := r[i].name == submitted)];
      i := i + 1;
    }
  }

  /** The loop over the barbers: a barber is selected exactly when the submitted preference,
      untrimmed, is its id; with no preference none is. */
  method SelectPreferred(barbers: seq<BarberSummary>, preferred: Option<string>) returns (r: seq<BarberSummary>)
    ensures |r| == |barbers|
    ensures forall k :: 0 <= k < |r| ==> r[k] == barbers[k].(selected := preferred == Some(barbers[k].id))
    ensures preferred.None? ==> forall k :: 0 <= k < |r| ==> !r[k].selected
  {
    r := barbers;
    var i := 0;
    while i < |r|
      invariant 0 <= i <= |r| == |barbers|
      invariant forall k :: 0 <= k < i ==> r[k] == barbers[k].(selected := preferred == Some(barbers[k].id))
      invariant forall k :: i <= k < |r| ==> r[k] == barbers[k]
    {
      r := r[i := r[i].(selected := preferred == Some(r[i].id))];
      i := i + 1;
    }
  }

  /** `BookingView`: the submitted values the form is filled with again. */
  datatype BookingView = BookingView(clientName: string, clientPhone: string, clientEmail: string,
                                     address: string, scheduledFor: string, notes: string)

  /** The preferred barber of a new booking: trimmed, and no barber when that leaves nothing. */
  function PreferredBarber(value: Option<string>): (r: Option<string>)
    ensures r.None? <==> Trim(value.UnwrapOr(""), Rust) == []
    ensures r.Some? ==> r.value == Trim(value.value, Rust)
  {
    var preferred := Trim(value.UnwrapOr(""), Rust);
    if preferred == [] then None else Some(preferred)
  }

  /** Booking and the admin form treat a barber field alike: absent or blank means none,
      anything else is taken trimmed. */
  lemma PreferredBarberAsAdminForm(value: Option<string>)
    ensures PreferredBarber(value) == Admin.FormBarber(value)
  {
    if value.Some? {
      BlankIffTrimEmpty(value.value, Rust);
    }
  }

  /** The appointment a valid booking inserts. */
  function NewAppointment(id: string, f: BookingForm, now: string): Appointment {
    Appointment(id, f.clientName, f.clientPhone, f.clientEmail, f.address, f.service, f.notes, now,
      f.scheduledFor, StatusPending, PreferredBarber(f.preferredBarberId), f.latitude, f.longitude)
  }

  /** A new booking is always pending, requested at `now`, assigned to the trimmed preferred
      barber if any, and carries every other field as submitted. */
  lemma NewAppointmentIsPending(id: string, f: BookingForm, now: string)
    ensures var a := NewAppointment(id, f, now);
      a.id == id && a.status == StatusPending && a.requestedAt == now &&
      (a.barberId.None? <==> IsBlank(f.preferredBarberId.UnwrapOr(""), Rust)) &&
      (a.barberId.Some? ==> a.barberId.value == Trim(f.preferredBarberId.value, Rust)) &&
      a.clientName == f.clientName && a.clientPhone == f.clientPhone && a.clientEmail == f.clientEmail &&
      a.address == f.address && a.service == f.service && a.notes == f.notes &&
      a.scheduledFor == f.scheduledFor && a.latitude == f.latitude && a.longitude == f.longitude
  {
    BlankIffTrimEmpty(f.preferredBarberId.UnwrapOr(""), Rust);
  }

  /** What `create_booking` answers. */
  datatype BookingOutcome =
    | Invalid(errors: seq<string>, form: BookingView, services: seq<ServiceOption>, barbers: seq<BarberSummary>)
    | Booked(appointmentId: string)
    | BookingFailed

  /** The page `create_booking` renders for a form with errors: the errors, the submitted
      values, and the catalogue and barber list with the submitted choices selected. */
  method RejectBooking(f: BookingForm, errors: seq<string>, barbers: seq<BarberSummary>) returns (outcome: BookingOutcome)
    ensures outcome.Invalid? && outcome.errors == errors
    ensures outcome.form == BookingView(f.clientName, f.clientPhone, f.clientEmail.UnwrapOr(""), f.address,
                                        f.scheduledFor, f.notes.UnwrapOr(""))
    ensures |outcome.services| == |ServiceCatalog| && |outcome.barbers| == |barbers|
    ensures forall k :: 0 <= k < |ServiceCatalog| ==>
              outcome.services[k] == ServiceCatalog[k].(selected := ServiceCatalog[k].name == f.service)
    ensures forall k :: 0 <= k < |barbers| ==>
              outcome.barbers[k] == barbers[k].(selected := f.preferredBarberId == Some(barbers[k].id))
  {
    var services := SelectService(ServiceCatalog, f.service);
    var shown := SelectPreferred(barbers, f.preferredBarberId);
    var view := BookingView(f.clientName, f.clientPhone, f.clientEmail.UnwrapOr(""), f.address,
                            f.scheduledFor, f.notes.UnwrapOr(""));
    outcome := Invalid(errors, view, services, shown);
  }

  /** The subscription table once `create_booking` has stored the optional subscription: the
      upsert when the field is non-blank and parses and the upsert succeeds; otherwise the table
      as it was, since a failed store is ignored. */
  ghost function BookingSubscriptions(subs: seq<SubscriptionRecord>, id: string, field: Option<string>,
                                      parsed: Option<SubscriptionInput>, subscriptionId: string, now: string)
    : seq<SubscriptionRecord>
  {
    if field.Some? && !IsBlank(field.value, Rust) && parsed.Some? &&
       Upserted(subs, id, parsed.value, subscriptionId, now).Some?
    then Upserted(subs, id, parsed.value, subscriptionId, now).value
    else subs
  }

  /** A booking keeps the subscription table well formed, and changes it only to hold the
      submitted pair with its keys, which needs a non-blank field that parses. */
  lemma BookingSubscriptionsSpec(subs: seq<SubscriptionRecord>, id: string, field: Option<string>,
                                 parsed: Option<SubscriptionInput>, subscriptionId: string, now: string)
    requires SubscriptionsWellFormed(subs)
    ensures var r := BookingSubscriptions(subs, id, field, parsed, subscriptionId, now);
      SubscriptionsWellFormed(r) &&
      (r != subs ==>
        field.Some? && !IsBlank(field.value, Rust) && parsed.Some? &&
        exists j :: 0 <= j < |r| && r[j].appointmentId == id && r[j].endpoint == parsed.value.endpoint &&
                    r[j].p256dh == parsed.value.p256dh && r[j].auth == parsed.value.auth)
  {
    if field.Some? && !IsBlank(field.value, Rust) && parsed.Some? &&
       Upserted(subs, id, parsed.value, subscriptionId, now).Some? {
      UpsertSpec(subs, id, parsed.value, subscriptionId, now);
    }
  }

  /** What follows the insert in `create_booking`: with a non-blank subscription field the
      subscription is stored (its failure ignored) and the client notified; then the new row
      is published as "appointment_created". */
  method AnnounceBooking(st: AppState, id: string, pushSubscription: Option<string>,
                         parsedSubscription: Option<SubscriptionInput>, subscriptionId: string, now: string)
    requires st.Valid()
    requires st.online && id in st.appointments
    modifies st`subscriptions, st`pushLog, st`events
    ensures st.Valid()
    ensures st.subscriptions ==
              BookingSubscriptions(old(st.subscriptions), id, pushSubscription, parsedSubscription, subscriptionId, now)
    ensures pushSubscription.None? || IsBlank(pushSubscription.value, Rust) ==> st.pushLog == old(st.pushLog)
    ensures pushSubscription.Some? && !IsBlank(pushSubscription.value, Rust) ==>
      Notified(st, old(st.pushLog), st.pushLog, id, "Appointment request received",
               "We received your booking request. We'll confirm shortly.", Some("/status/" + id))
    ensures SentBefore(old(st.pushLog), st.pushLog, |old(st.events)|)
    ensures st.events == old(st.events) + [FromRow("appointment_created",
              AppointmentRow(st.appointments[id], JoinedName(st.users, st.appointments[id].barberId)))]
  {
    if pushSubscription.Some? && !IsBlank(pushSubscription.value, Rust) {
      var _ := StoreSubscription(st, id, parsedSubscription, subscriptionId, now);
      NotifyAppointment(st, id, "Appointment request received",
                        "We received your booking request. We'll confirm shortly.", Some("/status/" + id));
    }
    var row := FetchAppointmentEvent(st, id);
    st.events := st.events + [FromRow("appointment_created", row.value)];
  }

  /** The INSERT of the new row `a` and what follows it: the optional subscription and its
      notification, then the "appointment_created" event. */
  method InsertBooking(st: AppState, a: Appointment, pushSubscription: Option<string>,
                       parsedSubscription: Option<SubscriptionInput>, subscriptionId: string, now: string)
    requires st.Valid() && st.online && a.id !in st.appointments
    modifies st`appointments, st`subscriptions, st`pushLog, st`events
    ensures st.Valid()
    ensures st.appointments == old(st.appointments)[a.id := a]
    ensures st.events == old(st.events) + [FromRow("appointment_created", AppointmentRow(a, JoinedName(st.users, a.barberId)))]
    ensures st.subscriptions ==
              BookingSubscriptions(old(st.subscriptions), a.id, pushSubscription, parsedSubscription, subscriptionId, now)
    ensures pushSubscription.None? || IsBlank(pushSubscription.value, Rust) ==> st.pushLog == old(st.pushLog)
    ensures pushSubscription.Some? && !IsBlank(pushSubscription.value, Rust) ==>
      Notified(st, old(st.pushLog), st.pushLog, a.id, "Appointment request received",
               "We received your booking request. We'll confirm shortly.", Some("/status/" + a.id))
    ensures SentBefore(old(st.pushLog), st.pushLog, |old(st.events)|)
  {
    st.appointments := st.appointments[a.id := a];
    AnnounceBooking(st, a.id, pushSubscription, parsedSubscription, subscriptionId, now);
  }

  /** `create_booking`. `newId`, `subscriptionId` and
      `now` stand for the generated ids and the clock; `parsedSubscription` is the
      subscription JSON once parsed. A failed insert answers 500. */
  method CreateBooking(st: AppState, f: BookingForm, newId: string, now: string,
                       parsedSubscription: Option<SubscriptionInput>, subscriptionId: string)
    returns (outcome: BookingOutcome)
    requires st.Valid()
    modifies st`appointments, st`subscriptions, st`pushLog, st`events
    ensures st.Valid()
    ensures outcome.Invalid? <==> Errors(BookingChecks(f)) != []
    ensures outcome.Invalid? ==> outcome.errors == Errors(BookingChecks(f))
    ensures var barbers := FetchBarbers(st.online, st.users);
      outcome.Invalid? ==> (|outcome.barbers| == |barbers| &&
        forall k :: 0 <= k < |barbers| ==>
          outcome.barbers[k] == barbers[k].(selected := f.preferredBarberId == Some(barbers[k].id)))
    ensures outcome.BookingFailed? <==>
              Errors(BookingChecks(f)) == [] && !(old(st.online) && newId !in old(st.appointments))
    ensures !outcome.Booked? ==>
      st.appointments == old(st.appointments) && st.subscriptions == old(st.subscriptions) &&
      st.pushLog == old(st.pushLog) && st.events == old(st.events)
    ensures outcome.Booked? ==> outcome.appointmentId == newId
    ensures outcome.Booked? ==> st.appointments == old(st.appointments)[newId := NewAppointment(newId, f, now)]
    ensures outcome.Booked? ==>
      st.events == old(st.events) + [FromRow("appointment_created",
        AppointmentRow(NewAppointment(newId, f, now), JoinedName(st.users, PreferredBarber(f.preferredBarberId))))]
    ensures outcome.Booked? ==>
      st.subscriptions ==
        BookingSubscriptions(old(st.subscriptions), newId, f.pushSubscription, parsedSubscription, subscriptionId, now)
    ensures outcome.Booked? && (f.pushSubscription.None? || IsBlank(f.pushSubscription.value, Rust)) ==>
      st.pushLog == old(st.pushLog)
    ensures outcome.Booked? && f.pushSubscription.Some? && !IsBlank(f.pushSubscription.value, Rust) ==>
      Notified(st, old(st.pushLog), st.pushLog, newId, "Appointment request received",
               "We received your booking request. We'll confirm shortly.", Some("/status/" + newId))
    ensures SentBefore(old(st.pushLog), st.pushLog, |old(st.events)|)
  {
    var errors := CheckBooking(f);
    if errors != [] {
      outcome := RejectBooking(f, errors, FetchBarbers(st.online, st.users));
      return;
    }
    if !st.online || newId in st.appointments {
      return BookingFailed;
    }
    InsertBooking(st, NewAppointment(newId, f, now), f.pushSubscription, parsedSubscription, subscriptionId, now);
    outcome := Booked(newId);
  }

  // ---------------------------------------------------------------------------------------
  // subscribe_notifications

  /** `subscribe_notifications`. `body` is the request body decoded as UTF-8 (None when it is
      not UTF-8, which reads as empty); `parsed` is that body once parsed as a subscription. */
  method SubscribeNotifications(st: AppState, appointmentId: string, body: Option<string>,
                                parsed: Option<SubscriptionInput>, subscriptionId: string, now: string)
    returns (resp: Response)
    requires st.Valid()
    modifies st`subscriptions, st`pushLog
    ensures st.Valid()
    ensures FetchAppointmentEvent(st, appointmentId).None? ==> resp == NotFound("")
    ensures FetchAppointmentEvent(st, appointmentId).Some? && IsBlank(body.UnwrapOr(""), Rust) ==>
              resp == BadRequest("")
    ensures !resp.Json? ==> st.subscriptions == old(st.subscriptions) && st.pushLog == old(st.pushLog)
    ensures resp.Json? <==> FetchAppointmentEvent(st, appointmentId).Some? && !IsBlank(body.UnwrapOr(""), Rust)
    ensures resp.Json? ==>
      st.subscriptions == (if parsed.Some? && Upserted(old(st.subscriptions), appointmentId, parsed.value,
                                                       subscriptionId, now).Some?
                           then Upserted(old(st.subscriptions), appointmentId, parsed.value, subscriptionId, now).value
                           else old(st.subscriptions))
    ensures resp.Json? ==>
      Notified(st, old(st.pushLog), st.pushLog, appointmentId, "Notifications enabled",
               "You'll receive updates about your appointment.", Some("/status/" + appointmentId))
  {
    if FetchAppointmentEvent(st, appointmentId).None? {
      return NotFound("");
    }
    var raw := body.UnwrapOr("");
    if IsBlank(raw, Rust) {
      return BadRequest("");
    }
    var _ := StoreSubscription(st, appointmentId, parsed, subscriptionId, now);
    NotifyAppointment(st, appointmentId, "Notifications enabled",
                      "You'll receive updates about your appointment.", Some("/status/" + appointmentId));
    resp := Json;
  }
}
