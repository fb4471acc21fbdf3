/** The admin and barber pages' live lists: each event from the staff stream is merged into
    the row (or card) with the same appointment id, which is removed, updated or prepended
    according to what the list shows. */
module AdminJs {
  import opened Wrappers
  import opened Dom
  import Models
  import State
  import Barber

  /** The stream listener's guard: a payload that does not parse, is not an object, or has no
      truthy `appointment_id` is ignored. */
  function Accept(data: Option<JsValue>): (r: Option<Payload>)
    ensures r.Some? <==> data.Some? && data.value.JObject? &&
                         Truthy(Get(data.value.fields, "appointment_id"))
    ensures r.Some? ==> r.value == data.value.fields
  {
    match data
    case Some(JObject(fields)) =>
      if Truthy(Get(fields, "appointment_id")) then Some(fields) else None
    case _ => None
  }

  /** A row or card: its `data-*` attributes and the descendants the scripts update. */
  datatype Element = Element(dataset: map<string, string>, nodes: seq<Node>)

  function IdOf(e: Element): Option<string> {
    if "appointmentId" in e.dataset then Some(e.dataset["appointmentId"]) else None
  }

  /** The text the selector `[data-appointment-id="…"]` compares with. */
  function PayloadId(p: Payload): string {
    Text(Get(p, "appointment_id"))
  }

  /** The `dataset` entries `applyPayload` sets: the status and the address when truthy, the
      coordinates when neither null nor undefined. */
  function DatasetAfter(d: map<string, string>, p: Payload): map<string, string> {
    var status := Get(p, "status");
    var lat := Get(p, "latitude");
    var lon := Get(p, "longitude");
    var address := Get(p, "address");
    var d1 := if Truthy(status) then d["appointmentStatus" := Text(status)] else d;
    var d2 := if !Nullish(lat) then d1["lat" := Text(lat)] else d1;
    var d3 := if !Nullish(lon) then d2["lon" := Text(lon)] else d2;
    if Truthy(address) then d3["appointmentAddress" := Text(address)] else d3
  }

  /** The first pass of `applyPayload` over one `[data-field]` element. */
  function FieldUpdated(n: Node, p: Payload): Node {
    if n.field == "" then n
    else if n.field == "status" then StatusUpdated(n, Get(p, "status"))
    else if Missing(Get(p, n.field)) then
      (if n.field == "barber_name" then n.(text := "Unassigned") else n)
    else n.(text := Text(Get(p, n.field)))
  }

  /** Both passes of `applyPayload` over one element: the field pass, then the status update
      of every element that has the `status` class once the field pass is done. */
  function NodeAfter(n: Node, p: Payload): Node {
    var m := FieldUpdated(n, p);
    if "status" in m.classes then StatusUpdated(m, Get(p, "status")) else m
  }

  function Applied(e: Element, p: Payload): Element {
    Element(DatasetAfter(e.dataset, p),
            seq(|e.nodes|, k requires 0 <= k < |e.nodes| => NodeAfter(e.nodes[k], p)))
  }

  /** `applyPayload`: the dataset first, then one loop over the field elements and one over
      the status badges. */
  method ApplyPayload(target: Element, p: Payload) returns (updated: Element)
    ensures updated == Applied(target, p)
  {
    var status := Get(p, "status");
    var d := target.dataset;
    if Truthy(status) {
      d := d["appointmentStatus" := Text(status)];
    }
    if !Nullish(Get(p, "latitude")) {
      d := d["lat" := Text(Get(p, "latitude"))];
    }
    if !Nullish(Get(p, "longitude")) {
      d := d["lon" := Text(Get(p, "longitude"))];
    }
    if Truthy(Get(p, "address")) {
      d := d["appointmentAddress" := Text(Get(p, "address"))];
    }
    var nodes := FieldPass(target.nodes, p);
    nodes := StatusPass(nodes, p);
    updated := Element(d, nodes);
  }

  method FieldPass(nodes: seq<Node>, p: Payload) returns (r: seq<Node>)
    ensures |r| == |nodes|
    ensures forall k :: 0 <= k < |nodes| ==> r[k] == FieldUpdated(nodes[k], p)
  {
    r := nodes;
    for i := 0 to |nodes|
      invariant |r| == |nodes|
      invariant forall k :: 0 <= k < i ==> r[k] == FieldUpdated(nodes[k], p)
      invariant forall k :: i <= k < |nodes| ==> r[k] == nodes[k]
    {
      var el := nodes[i];
      var key := el.field;
      if key == "" {
        continue;
      }
      if key == "status" {
        el := UpdateStatus(el, Get(p, "status"));
      } else {
        var value := Get(p, key);
        if Missing(value) {
          if key == "barber_name" {
            el := el.(text := "Unassigned");
          } else {
            continue;
          }
        } else {
          el := el.(text := Text(value));
        }
      }
      r := r[i := el];
    }
  }

  method StatusPass(nodes: seq<Node>, p: Payload) returns (r: seq<Node>)
    ensures |r| == |nodes|
    ensures forall k :: 0 <= k < |nodes| ==>
      r[k] == (if "status" in nodes[k].classes then StatusUpdated(nodes[k], Get(p, "status"))
               else nodes[k])
  {
    r := nodes;
    if !Truthy(Get(p, "status")) {
      return;
    }
    for i := 0 to |nodes|
      invariant |r| == |nodes|
      invariant forall k :: 0 <= k < i ==>
        r[k] == (if "status" in nodes[k].classes then StatusUpdated(nodes[k], Get(p, "status"))
                 else nodes[k])
      invariant forall k :: i <= k < |nodes| ==> r[k] == nodes[k]
    {
      if "status" in nodes[i].classes {
        var el := UpdateStatus(nodes[i], Get(p, "status"));
        r := r[i := el];
      }
    }
  }

  /** A field the payload lacks, holds as null or as "" keeps its text, except the barber's
      name, which reads "Unassigned"; any other value is shown as its text. */
  lemma FieldRule(n: Node, p: Payload)
    requires n.field != "" && n.field != "status"
    ensures Missing(Get(p, n.field)) && n.field != "barber_name" ==> FieldUpdated(n, p) == n
    ensures Missing(Get(p, n.field)) && n.field == "barber_name" ==>
            FieldUpdated(n, p).text == "Unassigned"
    ensures !Missing(Get(p, n.field)) ==> FieldUpdated(n, p).text == Text(Get(p, n.field))
    ensures FieldUpdated(n, p).classes == n.classes
  {
  }

  /** With a non-empty status in the payload, every status field and status badge of the
      element shows it and carries it as its only status class. */
  lemma BadgesAgree(e: Element, p: Payload, status: string, k: int)
    requires Get(p, "status") == Some(JStr(status)) && status != ""
    requires 0 <= k < |e.nodes|
    requires e.nodes[k].field == "status" || "status" in e.nodes[k].classes
    ensures Applied(e, p).nodes[k].text == status
    ensures Applied(e, p).nodes[k].classes * StatusClassSet() ==
            (if status in StatusClassSet() then {status} else {})
    ensures Applied(e, p).dataset["appointmentStatus"] == status
  {
    var m := FieldUpdated(e.nodes[k], p);
    if e.nodes[k].field == "status" {
      OnlyStatusClass(e.nodes[k], status);
      StatusUpdateIdempotent(e.nodes[k], Get(p, "status"));
    } else if e.nodes[k].field == "" {
      OnlyStatusClass(m, status);
    } else {
      FieldRule(e.nodes[k], p);
      OnlyStatusClass(m, status);
    }
  }

  lemma NodeAfterIdempotent(n: Node, p: Payload)
    ensures NodeAfter(NodeAfter(n, p), p) == NodeAfter(n, p)
  {
    var m := FieldUpdated(n, p);
    var status := Get(p, "status");
    if "status" in m.classes && Truthy(status) {
      var a := StatusUpdated(m, status);
      assert "status" in a.classes;
      var b := FieldUpdated(a, p);
      assert "status" in b.classes;
      assert StatusUpdated(b, status) == a;
    }
  }

  /** The same event delivered twice leaves the element as one delivery does. */
  lemma {:induction false} AppliedIdempotent(e: Element, p: Payload)
    ensures Applied(Applied(e, p), p) == Applied(e, p)
  {
    forall k | 0 <= k < |e.nodes|
      ensures NodeAfter(NodeAfter(e.nodes[k], p), p) == NodeAfter(e.nodes[k], p)
    {
      NodeAfterIdempotent(e.nodes[k], p);
    }
  }

  /** `applyPayload` never changes an element's appointment id. */
  lemma AppliedKeepsId(e: Element, p: Payload)
    ensures IdOf(Applied(e, p)) == IdOf(e)
  {
  }

  // ---- the lists ----

  /** `querySelector('[data-appointment-id="id"]')`: the first element with that id. */
  function FindRow(rows: seq<Element>, id: string): (r: Option<nat>)
    ensures r.Some? ==> r.value < |rows| && IdOf(rows[r.value]) == Some(id)
    ensures r.Some? ==> forall k :: 0 <= k < r.value ==> IdOf(rows[k]) != Some(id)
    ensures r.None? ==> forall k :: 0 <= k < |rows| ==> IdOf(rows[k]) != Some(id)
  {
    if rows == [] then None
    else if IdOf(rows[0]) == Some(id) then Some(0)
    else match FindRow(rows[1..], id)
      case None => None
      case Some(i) => Some(i + 1)
  }

  /** No two elements of a list share an appointment id. */
  predicate UniqueIds(rows: seq<Element>) {
    forall i, j :: 0 <= i < j < |rows| && IdOf(rows[i]).Some? ==> IdOf(rows[i]) != IdOf(rows[j])
  }

  /** The `dataset` of a new admin row: its id and link, and what `applyPayload` would set. */
  function AdminRowDataset(p: Payload, origin: string): map<string, string> {
    DatasetAfter(map["appointmentId" := PayloadId(p),
                     "appointmentUrl" := origin + "/admin/appointments/" + PayloadId(p)], p)
  }

  /** The new rows a list prepends carry the payload's id. */
  lemma NewRowsCarryId(p: Payload, origin: string)
    ensures AdminRowDataset(p, origin)["appointmentId"] == PayloadId(p)
    ensures CardDataset(p)["appointmentId"] == PayloadId(p)
  {
  }

  /** `upsertAdminAppointments` on the rows of a list whose status filter is `filter` ("" for
      none); `built` stands for the children `buildAdminRow` makes. */
  function AdminUpserted(rows: seq<Element>, filter: string, origin: string, p: Payload,
                         built: seq<Node>): seq<Element>
  {
    var status := Get(p, "status");
    match FindRow(rows, PayloadId(p))
    case Some(i) =>
      if filter != "" && Truthy(status) && status != Some(JStr(filter)) then
        rows[..i] + rows[i + 1..]
      else rows[i := Applied(rows[i], p)]
    case None =>
      if filter == "" || (Truthy(status) && status == Some(JStr(filter))) then
        [Element(AdminRowDataset(p, origin), built)] + rows
      else rows
  }

  /** A filtered list shows only rows whose recorded status is the filter. */
  predicate ShowsFilter(rows: seq<Element>, filter: string) {
    filter != "" ==>
      forall i :: 0 <= i < |rows| ==>
        "appointmentStatus" in rows[i].dataset && rows[i].dataset["appointmentStatus"] == filter
  }

  /** `row.remove()` on the first element with id `id`. */
  lemma RemoveRow(rows: seq<Element>, i: nat, id: string)
    requires UniqueIds(rows)
    requires i < |rows| && IdOf(rows[i]) == Some(id)
    ensures var r := rows[..i] + rows[i + 1..];
      |r| == |rows| - 1 && UniqueIds(r) &&
      (forall k :: 0 <= k < |r| ==> IdOf(r[k]) != Some(id)) &&
      (forall e :: e in rows && IdOf(e) != Some(id) ==> e in r) &&
      (forall e :: e in r ==> e in rows)
  {
    var r := rows[..i] + rows[i + 1..];
    forall k | 0 <= k < |r|
      ensures r[k] == rows[if k < i then k else k + 1]
    {
    }
    forall e | e in rows && IdOf(e) != Some(id)
      ensures e in r
    {
      var k :| 0 <= k < |rows| && rows[k] == e;
      assert k != i;
      assert r[if k < i then k else k - 1] == e;
    }
  }

  /** A row whose new status leaves a non-empty filter disappears; every other row stays. */
  lemma AdminRemovesFilteredOut(rows: seq<Element>, filter: string, origin: string,
                                p: Payload, built: seq<Node>)
    requires UniqueIds(rows)
    requires FindRow(rows, PayloadId(p)).Some?
    requires filter != "" && Truthy(Get(p, "status")) && Get(p, "status") != Some(JStr(filter))
    ensures var r := AdminUpserted(rows, filter, origin, p, built);
      |r| == |rows| - 1 &&
      (forall k :: 0 <= k < |r| ==> IdOf(r[k]) != Some(PayloadId(p))) &&
      (forall e :: e in rows && IdOf(e) != Some(PayloadId(p)) ==> e in r)
  {
    RemoveRow(rows, FindRow(rows, PayloadId(p)).value, PayloadId(p));
  }

  /** An event for an appointment the list does not show is prepended exactly when the list
      has no filter or the event's status is the filter; otherwise nothing changes. */
  lemma AdminPrependsWhenShown(rows: seq<Element>, filter: string, origin: string,
                               p: Payload, built: seq<Node>)
    requires FindRow(rows, PayloadId(p)).None?
    ensures var r := AdminUpserted(rows, filter, origin, p, built);
      (filter == "" || Get(p, "status") == Some(JStr(filter))) <==> r != rows
    ensures var r := AdminUpserted(rows, filter, origin, p, built);
      r != rows ==> r[1..] == rows && IdOf(r[0]) == Some(PayloadId(p))
  {
    var r := AdminUpserted(rows, filter, origin, p, built);
    if filter == "" || Get(p, "status") == Some(JStr(filter)) {
      assert |r| == |rows| + 1;
    }
  }

  /** Rows with other ids are never touched by an upsert. */
  lemma AdminLeavesOthers(rows: seq<Element>, filter: string, origin: string,
                          p: Payload, built: seq<Node>)
    ensures var r := AdminUpserted(rows, filter, origin, p, built);
      forall e :: e in rows && IdOf(e) != Some(PayloadId(p)) ==> e in r
  {
    var r := AdminUpserted(rows, filter, origin, p, built);
    match FindRow(rows, PayloadId(p))
    case None =>
    case Some(i) =>
      forall e | e in rows && IdOf(e) != Some(PayloadId(p))
        ensures e in r
      {
        var k :| 0 <= k < |rows| && rows[k] == e;
        if k < i {
          assert r[k] == e;
        } else if k > i {
          assert r[k - 1] == e || r[k] == e;
        }
      }
  }

  /** The list keeps its two invariants: ids are unique and a filter holds for every row. */
  lemma AdminUpsertKeepsInvariants(rows: seq<Element>, filter: string, origin: string,
                                   p: Payload, built: seq<Node>)
    requires UniqueIds(rows) && ShowsFilter(rows, filter)
    ensures UniqueIds(AdminUpserted(rows, filter, origin, p, built))
    ensures ShowsFilter(AdminUpserted(rows, filter, origin, p, built), filter)
  {
    var r := AdminUpserted(rows, filter, origin, p, built);
    var id := PayloadId(p);
    match FindRow(rows, id)
    case Some(i) =>
      if filter != "" && Truthy(Get(p, "status")) && Get(p, "status") != Some(JStr(filter)) {
        assert r == rows[..i] + rows[i + 1..];
        forall a, b | 0 <= a < b < |r| && IdOf(r[a]).Some?
          ensures IdOf(r[a]) != IdOf(r[b])
        {
          var a' := if a < i then a else a + 1;
          var b' := if b < i then b else b + 1;
          assert r[a] == rows[a'] && r[b] == rows[b'];
        }
      } else {
        AppliedKeepsId(rows[i], p);
        assert forall k :: 0 <= k < |r| ==> IdOf(r[k]) == IdOf(rows[k]);
      }
    case None =>
      if filter == "" || (Truthy(Get(p, "status")) && Get(p, "status") == Some(JStr(filter))) {
        assert r == [Element(AdminRowDataset(p, origin), built)] + rows;
        NewRowsCarryId(p, origin);
        forall a, b | 0 <= a < b < |r| && IdOf(r[a]).Some?
          ensures IdOf(r[a]) != IdOf(r[b])
        {
          assert r[b] == rows[b - 1];
          if a > 0 {
            assert r[a] == rows[a - 1];
          }
        }
      }
  }

  /** The admin list: its rows and the filter it was rendered with. */
  class AdminList {
    var rows: seq<Element>
    const filter: string
    const origin: string

    ghost predicate Valid()
      reads this
    {
      UniqueIds(rows) && ShowsFilter(rows, filter)
    }

    constructor (filter: string, origin: string, rows: seq<Element>)
      requires UniqueIds(rows) && ShowsFilter(rows, filter)
      ensures Valid() && this.filter == filter && this.origin == origin && this.rows == rows
    {
      this.filter := filter;
      this.origin := origin;
      this.rows := rows;
    }

    /** `upsertAdminAppointments`: remove the row, update it in place, or prepend a new one. */
    method Upsert(p: Payload, built: seq<Node>)
      requires Valid()
      modifies this`rows
      ensures Valid()
      ensures rows == AdminUpserted(old(rows), filter, origin, p, built)
    {
      AdminUpsertKeepsInvariants(rows, filter, origin, p, built);
      var status := Get(p, "status");
      var found := FindRow(rows, PayloadId(p));
      if found.Some? {
        var i := found.value;
        if filter != "" && Truthy(status) && status != Some(JStr(filter)) {
          rows := rows[..i] + rows[i + 1..];
          return;
        }
        var row := ApplyPayload(rows[i], p);
        rows := rows[i := row];
        return;
      }
      if !(filter == "" || (Truthy(status) && status == Some(JStr(filter)))) {
        return;
      }
      rows := [Element(AdminRowDataset(p, origin), built)] + rows;
    }
  }

  /** The `dataset` of a new barber card: its id, its anchor, the status when truthy and the
      coordinates when present (the card does not record the address). */
  function CardDataset(p: Payload): map<string, string> {
    var status := Get(p, "status");
    var lat := Get(p, "latitude");
    var lon := Get(p, "longitude");
    var d := map["appointmentId" := PayloadId(p),
                 "appointmentUrl" := "#appointment-" + PayloadId(p)];
    var d1 := if Truthy(status) then d["appointmentStatus" := Text(status)] else d;
    var d2 := if !Nullish(lat) then d1["lat" := Text(lat)] else d1;
    if !Nullish(lon) then d2["lon" := Text(lon)] else d2
  }

  /** Whether a barber's stack shows the appointment: pending and unassigned, or assigned to
      that barber. */
  predicate ShowsCard(p: Payload, barberId: string) {
    var status := Get(p, "status");
    var owner := Get(p, "barber_id");
    (status == Some(JStr(Models.StatusPending)) && !Truthy(owner)) ||
    (Truthy(owner) && owner == Some(JStr(barberId)))
  }

  /** `upsertBarberAppointments` on the cards of the stack of barber `barberId`; `built`
      stands for the children `buildBarberCard` makes. */
  function BarberUpserted(cards: seq<Element>, barberId: string, p: Payload,
                          built: seq<Node>): seq<Element>
  {
    match FindRow(cards, PayloadId(p))
    case Some(i) =>
      if !ShowsCard(p, barberId) then cards[..i] + cards[i + 1..]
      else cards[i := Applied(cards[i], p)]
    case None =>
      if ShowsCard(p, barberId) then [Element(CardDataset(p), built)] + cards else cards
  }

  /** After an upsert the stack holds a card for the appointment exactly when it shows it. */
  lemma BarberCardIffShown(cards: seq<Element>, barberId: string, p: Payload, built: seq<Node>)
    requires UniqueIds(cards)
    ensures var r := BarberUpserted(cards, barberId, p, built);
      (exists k :: 0 <= k < |r| && IdOf(r[k]) == Some(PayloadId(p))) <==> ShowsCard(p, barberId)
  {
    var r := BarberUpserted(cards, barberId, p, built);
    var id := PayloadId(p);
    match FindRow(cards, id)
    case Some(i) =>
      if !ShowsCard(p, barberId) {
        forall k | 0 <= k < |r|
          ensures IdOf(r[k]) != Some(id)
        {
          if k >= i {
            assert r[k] == cards[k + 1];
          }
        }
      } else {
        AppliedKeepsId(cards[i], p);
        assert IdOf(r[i]) == Some(id);
      }
    case None =>
      if ShowsCard(p, barberId) {
        NewRowsCarryId(p, "");
        assert IdOf(r[0]) == Some(id);
      }
  }

  /** A barber stack keeps its appointment ids unique, so an upsert can follow another. */
  lemma BarberUpsertKeepsUniqueIds(cards: seq<Element>, barberId: string, p: Payload, built: seq<Node>)
    requires UniqueIds(cards)
    ensures UniqueIds(BarberUpserted(cards, barberId, p, built))
  {
    var r := BarberUpserted(cards, barberId, p, built);
    var id := PayloadId(p);
    match FindRow(cards, id)
    case Some(i) =>
      if !ShowsCard(p, barberId) {
        assert r == cards[..i] + cards[i + 1..];
        forall a, b | 0 <= a < b < |r| && IdOf(r[a]).Some?
          ensures IdOf(r[a]) != IdOf(r[b])
        {
          var a' := if a < i then a else a + 1;
          var b' := if b < i then b else b + 1;
          assert r[a] == cards[a'] && r[b] == cards[b'];
        }
      } else {
        AppliedKeepsId(cards[i], p);
        assert forall k :: 0 <= k < |r| ==> IdOf(r[k]) == IdOf(cards[k]);
      }
    case None =>
      if ShowsCard(p, barberId) {
        assert r == [Element(CardDataset(p), built)] + cards;
        NewRowsCarryId(p, "");
        forall a, b | 0 <= a < b < |r| && IdOf(r[a]).Some?
          ensures IdOf(r[a]) != IdOf(r[b])
        {
          assert r[b] == cards[b - 1];
          if a > 0 {
            assert r[a] == cards[a - 1];
          }
        }
      }
  }

  /** The barber stack: its cards and whose stack it is. */
  class BarberStack {
    var cards: seq<Element>
    const barberId: string

    ghost predicate Valid()
      reads this
    {
      UniqueIds(cards)
    }

    constructor (barberId: string, cards: seq<Element>)
      requires UniqueIds(cards)
      ensures Valid() && this.barberId == barberId && this.cards == cards
    {
      this.barberId := barberId;
      this.cards := cards;
    }

    /** `upsertBarberAppointments`: remove the card, update it in place, or prepend one. The
        stack then holds a card for the appointment exactly when it shows it. */
    method Upsert(p: Payload, built: seq<Node>)
      requires Valid()
      modifies this`cards
      ensures Valid()
      ensures cards == BarberUpserted(old(cards), barberId, p, built)
      ensures (exists k :: 0 <= k < |cards| && IdOf(cards[k]) == Some(PayloadId(p))) <==> ShowsCard(p, barberId)
    {
      BarberUpsertKeepsUniqueIds(cards, barberId, p, built);
      BarberCardIffShown(cards, barberId, p, built);
      var shouldShow := ShowsCard(p, barberId);
      var found := FindRow(cards, PayloadId(p));
      if found.Some? {
        var i := found.value;
        if !shouldShow {
          cards := cards[..i] + cards[i + 1..];
          return;
        }
        var card := ApplyPayload(cards[i], p);
        cards := cards[i := card];
        return;
      }
      if !shouldShow {
        return;
      }
      cards := [Element(CardDataset(p), built)] + cards;
    }
  }

  // ---- agreement with the server ----

  /** The object `JSON.parse` makes of a staff-stream event: strings as strings, absent
      values as null, coordinates as numbers whose text is `number`'s. */
  function PayloadOf(e: State.ServerEvent, number: real -> string): Payload {
    map["kind" := JStr(e.kind),
        "appointment_id" := StrOrNull(e.appointmentId),
        "status" := StrOrNull(e.status),
        "client_name" := StrOrNull(e.clientName),
        "client_phone" := StrOrNull(e.clientPhone),
        "client_email" := StrOrNull(e.clientEmail),
        "address" := StrOrNull(e.address),
        "service" := StrOrNull(e.service),
        "notes" := StrOrNull(e.notes),
        "scheduled_for" := StrOrNull(e.scheduledFor),
        "barber_name" := StrOrNull(e.barberName),
        "barber_id" := StrOrNull(e.barberId),
        "latitude" := NumOrNull(e.latitude, number),
        "longitude" := NumOrNull(e.longitude, number)]
  }

  function StrOrNull(o: Option<string>): JsValue {
    if o.Some? then JStr(o.value) else JNull
  }

  function NumOrNull(o: Option<real>, number: real -> string): JsValue {
    if o.Some? then JNum(o.value, number(o.value)) else JNull
  }

  /** A barber's page shows a card for an appointment exactly when the server's barber list
      selects it, as long as neither the barber's id nor the stored barber id is empty (an
      empty id is falsy in the page but a real value to SQL). */
  lemma ShowsCardIffListed(kind: string, row: Models.AppointmentRow, barberId: string,
                           number: real -> string)
    requires barberId != "" && row.record.barberId != Some("")
    ensures ShowsCard(PayloadOf(State.FromRow(kind, row), number), barberId) <==>
            Barber.Listed(row.record, barberId)
  {
    var p := PayloadOf(State.FromRow(kind, row), number);
    assert Get(p, "status") == Some(JStr(row.record.status));
    assert Get(p, "barber_id") == Some(StrOrNull(row.record.barberId));
  }
}
