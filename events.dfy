/** The two server-sent-event streams: every change for signed-in staff, and the reduced
    status of one appointment for its client (`routes/events.rs`). */
module Events {
  import opened Wrappers
  import opened State
  import opened Json

  /** What a subscriber of the broadcast channel receives: an event, or the notice that it
      fell behind and `skipped` events were dropped for it. */
  datatype Received = Delivered(event: ServerEvent) | Lagged(skipped: nat)

  /** `PublicStatusEvent`: what a client may see of a change. */
  datatype PublicStatusEvent = PublicStatusEvent(
    appointmentId: Option<string>,
    status: Option<string>,
    service: Option<string>,
    scheduledFor: Option<string>,
    barberName: Option<string>)

  const FramePrefix: string := "event: update\ndata: "

  /** One SSE frame: the `update` event with the JSON on its data line, or `{}` when the
      event could not be serialized. */
  function Frame(payload: Option<string>): string {
    FramePrefix + payload.UnwrapOr("{}") + "\n\n"
  }

  /** Reads the data line back out of a frame. */
  function Unframe(frame: string): Option<string> {
    if |frame| >= |FramePrefix| + 2 && frame[..|FramePrefix|] == FramePrefix &&
       frame[|frame| - 2..] == "\n\n"
    then Some(frame[|FramePrefix|..|frame| - 2])
    else None
  }

  /** Every frame carries its payload, and "{}" stands in for a payload that failed. */
  lemma UnframeFrame(payload: Option<string>)
    ensures Unframe(Frame(payload)) == Some(payload.UnwrapOr("{}"))
  {
    var f := Frame(payload);
    var p := payload.UnwrapOr("{}");
    assert f[..|FramePrefix|] == FramePrefix;
    assert f[|f| - 2..] == "\n\n";
    assert f[|FramePrefix|..|f| - 2] == p;
  }

  /** A payload without line breaks gives a frame whose only blank line is its last: the
      browser reads it as exactly one event. */
  lemma FrameIsOneEvent(payload: string)
    requires '\n' !in payload
    ensures var f := Frame(Some(payload));
      forall i :: 0 <= i < |f| - 2 ==> !(f[i] == '\n' && f[i + 1] == '\n')
  {
    var f := Frame(Some(payload));
    forall i | 0 <= i < |f| - 2 ensures !(f[i] == '\n' && f[i + 1] == '\n') {
      if i < |FramePrefix| {
        assert f[..|FramePrefix|] == FramePrefix;
      }
      if |FramePrefix| <= i + 1 < |FramePrefix| + |payload| {
        assert f[i + 1] == payload[i + 1 - |FramePrefix|];
      }
    }
  }

  /** `"name":value`. */
  function Field(name: string, value: string): string {
    "\"" + name + "\":" + value
  }

  /** A JSON object with the given (name, written value) members, in order. */
  function Object(members: seq<(string, string)>): string {
    "{" + Members(members) + "}"
  }

  function Members(members: seq<(string, string)>): string {
    if members == [] then ""
    else if |members| == 1 then Field(members[0].0, members[0].1)
    else Field(members[0].0, members[0].1) + "," + Members(members[1..])
  }

  /** An object is one line when its names and values are. */
  lemma {:induction false} ObjectIsOneLine(members: seq<(string, string)>)
    requires forall k :: 0 <= k < |members| ==> '\n' !in members[k].0 && '\n' !in members[k].1
    ensures '\n' !in Object(members)
  {
    MembersAreOneLine(members);
  }

  lemma {:induction false} MembersAreOneLine(members: seq<(string, string)>)
    requires forall k :: 0 <= k < |members| ==> '\n' !in members[k].0 && '\n' !in members[k].1
    ensures '\n' !in Members(members)
  {
    if |members| > 1 {
      MembersAreOneLine(members[1..]);
    }
  }

  /** The members of a `PublicStatusEvent` as serde_json writes them: declaration order,
      `None` as `null`. */
  function PublicMembers(e: PublicStatusEvent): seq<(string, string)> {
    [("appointment_id", OptionString(e.appointmentId)),
     ("status", OptionString(e.status)),
     ("service", OptionString(e.service)),
     ("scheduled_for", OptionString(e.scheduledFor)),
     ("barber_name", OptionString(e.barberName))]
  }

  /** `serde_json::to_string` of a `PublicStatusEvent`. */
  function PublicJson(e: PublicStatusEvent): string {
    Object(PublicMembers(e))
  }

  /** An `Option<f64>` field; `number` is serde_json's float formatting. */
  function OptionNumber(o: Option<real>, number: real -> string): string {
    match o
    case None => "null"
    case Some(x) => number(x)
  }

  /** The members of a `ServerEvent`: its fourteen fields in declaration order. */
  function EventMembers(e: ServerEvent, number: real -> string): seq<(string, string)> {
    [("kind", Quote(e.kind)),
     ("appointment_id", OptionString(e.appointmentId)),
     ("status", OptionString(e.status)),
     ("client_name", OptionString(e.clientName)),
     ("client_phone", OptionString(e.clientPhone)),
     ("client_email", OptionString(e.clientEmail)),
     ("address", OptionString(e.address)),
     ("service", OptionString(e.service)),
     ("notes", OptionString(e.notes)),
     ("scheduled_for", OptionString(e.scheduledFor)),
     ("barber_name", OptionString(e.barberName)),
     ("barber_id", OptionString(e.barberId)),
     ("latitude", OptionNumber(e.latitude, number)),
     ("longitude", OptionNumber(e.longitude, number))]
  }

  /** `serde_json::to_string` of a `ServerEvent`. */
  function EventJson(e: ServerEvent, number: real -> string): string {
    Object(EventMembers(e, number))
  }

  lemma OptionStringHasNoNewline(o: Option<string>)
    ensures '\n' !in OptionString(o)
  {
    if o.Some? {
      assert OptionString(o) == "\"" + Escape(o.value) + "\"";
    }
  }

  /** Whatever a client's name, notes or address hold, the public JSON is one line, so each
      public frame is one event. */
  lemma PublicJsonIsOneLine(e: PublicStatusEvent)
    ensures '\n' !in PublicJson(e)
  {
    OptionStringHasNoNewline(e.appointmentId);
    OptionStringHasNoNewline(e.status);
    OptionStringHasNoNewline(e.service);
    OptionStringHasNoNewline(e.scheduledFor);
    OptionStringHasNoNewline(e.barberName);
    ObjectIsOneLine(PublicMembers(e));
  }

  /** The same for the staff stream, given a number format without line breaks. */
  lemma EventJsonIsOneLine(e: ServerEvent, number: real -> string)
    requires forall x :: '\n' !in number(x)
    ensures '\n' !in EventJson(e, number)
  {
    OptionStringHasNoNewline(Some(e.kind));
    OptionStringHasNoNewline(e.appointmentId);
    OptionStringHasNoNewline(e.status);
    OptionStringHasNoNewline(e.clientName);
    OptionStringHasNoNewline(e.clientPhone);
    OptionStringHasNoNewline(e.clientEmail);
    OptionStringHasNoNewline(e.address);
    OptionStringHasNoNewline(e.service);
    OptionStringHasNoNewline(e.notes);
    OptionStringHasNoNewline(e.scheduledFor);
    OptionStringHasNoNewline(e.barberName);
    OptionStringHasNoNewline(e.barberId);
    ObjectIsOneLine(EventMembers(e, number));
  }

  /** The events the staff stream frames: every delivered one, in order; a lag notice
      produces nothing and the stream goes on. */
  function StaffEvents(received: seq<Received>): (r: seq<ServerEvent>)
    ensures |r| <= |received|
  {
    if received == [] then []
    else
      var rest := StaffEvents(received[1..]);
      match received[0]
      case Delivered(e) => [e] + rest
      case Lagged(_) => rest
  }

  /** The staff stream forwards every delivered event and nothing else. */
  lemma {:induction false} StaffEventsMembers(received: seq<Received>)
    ensures forall e :: e in StaffEvents(received) <==> Delivered(e) in received
  {
    if received != [] {
      StaffEventsMembers(received[1..]);
      assert forall x :: x in received <==> x == received[0] || x in received[1..];
    }
  }

  /** One received message, then the rest. */
  lemma StaffEventsCons(x: Received, rest: seq<Received>)
    ensures StaffEvents([x] + rest) ==
            (if x.Delivered? then [x.event] else []) + StaffEvents(rest)
  {
    assert ([x] + rest)[0] == x && ([x] + rest)[1..] == rest;
  }

  /** A lag in the middle of the stream only drops what it dropped: what comes after it is
      still delivered. */
  lemma {:induction false} LagDoesNotEndStream(before: seq<Received>, skipped: nat, after: seq<Received>)
    ensures StaffEvents(before + [Lagged(skipped)] + after) == StaffEvents(before) + StaffEvents(after)
  {
    if before == [] {
      assert before + [Lagged(skipped)] + after == [Lagged(skipped)] + after;
      StaffEventsCons(Lagged(skipped), after);
    } else {
      var x := before[0];
      LagDoesNotEndStream(before[1..], skipped, after);
      assert before + [Lagged(skipped)] + after == [x] + (before[1..] + [Lagged(skipped)] + after);
      assert before == [x] + before[1..];
      StaffEventsCons(x, before[1..] + [Lagged(skipped)] + after);
      StaffEventsCons(x, before[1..]);
    }
  }

  /** With no lag, the staff stream is everything published, in publication order. */
  lemma {:induction false} StaffSeesEverything(published: seq<ServerEvent>)
    ensures StaffEvents(seq(|published|, k requires 0 <= k < |published| => Delivered(published[k]))) == published
  {
    var received := seq(|published|, k requires 0 <= k < |published| => Delivered(published[k]));
    if published != [] {
      StaffSeesEverything(published[1..]);
      assert received[1..] == seq(|published| - 1, k requires 0 <= k < |published| - 1 => Delivered(published[1..][k]));
    }
  }

  /** The staff stream: one frame per delivered event. */
  function StaffFrames(received: seq<Received>, number: real -> string): (frames: seq<string>)
    ensures |frames| == |StaffEvents(received)|
  {
    var events := StaffEvents(received);
    seq(|events|, k requires 0 <= k < |events| => Frame(Some(EventJson(events[k], number))))
  }

  /** The fields a client is shown, copied unchanged; contact and location fields are not
      carried at all. */
  function Project(e: ServerEvent): (p: PublicStatusEvent) {
    PublicStatusEvent(e.appointmentId, e.status, e.service, e.scheduledFor, e.barberName)
  }

  /** The events the status stream of appointment `id` frames: the delivered events of that
      appointment, reduced; events of other appointments, events without an id and lag
      notices produce nothing. */
  function PublicEvents(received: seq<Received>, id: string): (r: seq<PublicStatusEvent>)
    ensures |r| <= |received|
    ensures forall k :: 0 <= k < |r| ==> r[k].appointmentId == Some(id)
  {
    if received == [] then []
    else
      var rest := PublicEvents(received[1..], id);
      match received[0]
      case Delivered(e) => if e.appointmentId == Some(id) then [Project(e)] + rest else rest
      case Lagged(_) => rest
  }

  /** The status stream carries exactly the reduced delivered events of its appointment. */
  lemma {:induction false} PublicEventsMembers(received: seq<Received>, id: string)
    ensures forall p :: p in PublicEvents(received, id) <==>
      exists e :: Delivered(e) in received && e.appointmentId == Some(id) && p == Project(e)
  {
    if received != [] {
      PublicEventsMembers(received[1..], id);
      assert forall x :: x in received <==> x == received[0] || x in received[1..];
    }
  }

  /** The events of appointment `id`, in order. */
  function OfAppointment(events: seq<ServerEvent>, id: string): seq<ServerEvent> {
    if events == [] then []
    else (if events[0].appointmentId == Some(id) then [events[0]] else []) + OfAppointment(events[1..], id)
  }

  /** The client's stream is the staff stream narrowed to the one appointment and reduced to
      the public fields. */
  lemma {:induction false} PublicIsNarrowedStaff(received: seq<Received>, id: string)
    ensures var narrowed := OfAppointment(StaffEvents(received), id);
      PublicEvents(received, id) == seq(|narrowed|, k requires 0 <= k < |narrowed| => Project(narrowed[k]))
  {
    if received != [] {
      PublicIsNarrowedStaff(received[1..], id);
      var narrowed := OfAppointment(StaffEvents(received), id);
      var tail := OfAppointment(StaffEvents(received[1..]), id);
      match received[0]
      case Lagged(_) =>
      case Delivered(e) =>
        assert StaffEvents(received) == [e] + StaffEvents(received[1..]);
        assert ([e] + StaffEvents(received[1..]))[1..] == StaffEvents(received[1..]);
        if e.appointmentId == Some(id) {
          assert narrowed == [e] + tail;
        } else {
          assert narrowed == tail;
        }
    }
  }

  /** The status stream: one frame per event of the appointment. */
  function PublicFrames(received: seq<Received>, id: string): (frames: seq<string>)
    ensures |frames| == |PublicEvents(received, id)|
  {
    var events := PublicEvents(received, id);
    seq(|events|, k requires 0 <= k < |events| => Frame(Some(PublicJson(events[k]))))
  }
}
