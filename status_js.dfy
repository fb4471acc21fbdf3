/** The customer's status page: each event from the appointment's public stream is merged into
    the page's fields. */
module StatusJs {
  import opened Wrappers
  import opened Dom
  import Events
  import AdminJs

  /** The listener's guard: the data must parse to an object whose `appointment_id` is,
      strictly, the page's id. */
  predicate Accepts(data: Option<JsValue>, appointmentId: string) {
    data.Some? && data.value.JObject? &&
    Get(data.value.fields, "appointment_id") == Some(JStr(appointmentId))
  }

  /** The page's rule for one `[data-field]` element. Unlike the admin pages, any falsy
      barber name (not only null, undefined or "") reads "Unassigned". */
  function FieldMerged(n: Node, p: Payload): Node {
    var value := Get(p, n.field);
    if n.field == "" then n
    else if n.field == "status" then StatusUpdated(n, Get(p, "status"))
    else if n.field == "barber_name" && (!Truthy(value) || value == Some(JStr(""))) then
      n.(text := "Unassigned")
    else if Missing(value) then n
    else n.(text := Text(value))
  }

  /** The field pass, then the status update of every element with the `status` class. */
  function Merged(n: Node, p: Payload): Node {
    var m := FieldMerged(n, p);
    if "status" in m.classes then StatusUpdated(m, Get(p, "status")) else m
  }

  class StatusPage {
    const appointmentId: string
    var nodes: seq<Node>

    /** The listener is only installed when the page carries an appointment id. */
    constructor (appointmentId: string, nodes: seq<Node>)
      requires appointmentId != ""
      ensures this.appointmentId == appointmentId && this.nodes == nodes
    {
      this.appointmentId := appointmentId;
      this.nodes := nodes;
    }

    /** The `update` listener: a payload for another appointment (or none) changes nothing;
        one for this appointment is merged into every field element. */
    method OnUpdate(data: Option<JsValue>)
      modifies this`nodes
      ensures !Accepts(data, appointmentId) ==> nodes == old(nodes)
      ensures Accepts(data, appointmentId) ==>
        |nodes| == |old(nodes)| &&
        forall k :: 0 <= k < |nodes| ==> nodes[k] == Merged(old(nodes)[k], data.value.fields)
    {
      if data.None? || !data.value.JObject? {
        return;
      }
      var p := data.value.fields;
      if Get(p, "appointment_id") != Some(JStr(appointmentId)) {
        return;
      }
      MergeFields(p);
      if Truthy(Get(p, "status")) {
        UpdateBadges(p);
      }
    }

    method MergeFields(p: Payload)
      modifies this`nodes
      ensures |nodes| == |old(nodes)|
      ensures forall k :: 0 <= k < |nodes| ==> nodes[k] == FieldMerged(old(nodes)[k], p)
    {
      for i := 0 to |nodes|
        invariant |nodes| == |old(nodes)|
        invariant forall k :: 0 <= k < i ==> nodes[k] == FieldMerged(old(nodes)[k], p)
        invariant forall k :: i <= k < |nodes| ==> nodes[k] == old(nodes)[k]
      {
        var el := nodes[i];
        var key := el.field;
        if key == "" {
          continue;
        }
        if key == "status" {
          el := UpdateStatus(el, Get(p, "status"));
          nodes := nodes[i := el];
          continue;
        }
        var value := Get(p, key);
        if key == "barber_name" && (!Truthy(value) || value == Some(JStr(""))) {
          nodes := nodes[i := el.(text := "Unassigned")];
          continue;
        }
        if Missing(value) {
          continue;
        }
        nodes := nodes[i := el.(text := Text(value))];
      }
    }

    method UpdateBadges(p: Payload)
      requires Truthy(Get(p, "status"))
      modifies this`nodes
      ensures |nodes| == |old(nodes)|
      ensures forall k :: 0 <= k < |nodes| ==>
        nodes[k] == (if "status" in old(nodes)[k].classes
                     then StatusUpdated(old(nodes)[k], Get(p, "status")) else old(nodes)[k])
    {
      for i := 0 to |nodes|
        invariant |nodes| == |old(nodes)|
        invariant forall k :: 0 <= k < i ==>
          nodes[k] == (if "status" in old(nodes)[k].classes
                       then StatusUpdated(old(nodes)[k], Get(p, "status")) else old(nodes)[k])
        invariant forall k :: i <= k < |nodes| ==> nodes[k] == old(nodes)[k]
      {
        if "status" in nodes[i].classes {
          var el := UpdateStatus(nodes[i], Get(p, "status"));
          nodes := nodes[i := el];
        }
      }
    }
  }

  /** A missing or empty barber name reads "Unassigned"; any other null, undefined or empty
      field keeps its text; a present value is shown. */
  lemma FieldMergeRule(n: Node, p: Payload)
    requires n.field != "" && n.field != "status"
    ensures n.field == "barber_name" && Missing(Get(p, n.field)) ==>
            FieldMerged(n, p).text == "Unassigned"
    ensures n.field != "barber_name" && Missing(Get(p, n.field)) ==> FieldMerged(n, p) == n
    ensures Truthy(Get(p, n.field)) ==> FieldMerged(n, p).text == Text(Get(p, n.field))
    ensures FieldMerged(n, p).classes == n.classes
  {
  }

  /** A payload whose values are strings or null, as the server's JSON always is. */
  predicate StringsOrNull(p: Payload) {
    forall k :: k in p ==> p[k].JStr? || p[k].JNull?
  }

  /** On such payloads the status page and the admin pages merge a field the same way; they
      differ only for a barber name of `false` or `0`, which the server never sends. */
  lemma MergeAgreesWithAdmin(n: Node, p: Payload)
    requires StringsOrNull(p)
    ensures FieldMerged(n, p) == AdminJs.FieldUpdated(n, p)
    ensures Merged(n, p) == AdminJs.NodeAfter(n, p)
  {
  }

  lemma MergeDiffersOnFalse()
    ensures var n := Node("barber_name", {}, "Ana");
            var p := map["barber_name" := JBool(false)];
            FieldMerged(n, p).text == "Unassigned" && AdminJs.FieldUpdated(n, p).text == "false"
  {
    var n := Node("barber_name", {}, "Ana");
    var p := map["barber_name" := JBool(false)];
    assert Get(p, "barber_name") == Some(JBool(false));
  }

  /** The object `JSON.parse` makes of a public status event. */
  function PublicPayload(e: Events.PublicStatusEvent): Payload {
    map["appointment_id" := AdminJs.StrOrNull(e.appointmentId),
        "status" := AdminJs.StrOrNull(e.status),
        "service" := AdminJs.StrOrNull(e.service),
        "scheduled_for" := AdminJs.StrOrNull(e.scheduledFor),
        "barber_name" := AdminJs.StrOrNull(e.barberName)]
  }

  /** Every event of an appointment's public stream passes that page's guard, and its status
      field then shows the event's status. */
  lemma PublicEventsReachThePage(e: Events.PublicStatusEvent, id: string, n: Node)
    requires e.appointmentId == Some(id)
    requires e.status.Some? && e.status.value != ""
    requires n.field == "status"
    ensures Accepts(Some(JObject(PublicPayload(e))), id)
    ensures Merged(n, PublicPayload(e)).text == e.status.value
  {
    var p := PublicPayload(e);
    assert Get(p, "appointment_id") == Some(JStr(id));
    assert Get(p, "status") == Some(JStr(e.status.value));
  }
}
