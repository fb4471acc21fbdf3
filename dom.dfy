// The browser side: JavaScript values as `JSON.parse` hands them to the page scripts, and the
// few parts of a DOM element the scripts read and write.

module Dom {
  import opened Wrappers

  /** A value `JSON.parse` produces. A number keeps its value (for truthiness) and the text
      `String(n)` gives it; an array keeps only the text `String(a)` gives it. */
  datatype JsValue =
    | JNull
    | JBool(b: bool)
    | JNum(value: real, text: string)
    | JStr(s: string)
    | JArray(text: string)
    | JObject(fields: map<string, JsValue>)

  /** A parsed JSON object; a key it lacks reads as `undefined`. */
  type Payload = map<string, JsValue>

  /** `payload[key]`: `None` is `undefined`. */
  function Get(p: Payload, key: string): Option<JsValue> {
    if key in p then Some(p[key]) else None
  }

  /** JavaScript truthiness (`NaN` never comes out of `JSON.parse`). */
  predicate Truthy(v: Option<JsValue>) {
    match v
    case None => false
    case Some(JNull) => false
    case Some(JBool(b)) => b
    case Some(JNum(x, _)) => x != 0.0
    case Some(JStr(s)) => s != ""
    case Some(JArray(_)) => true
    case Some(JObject(_)) => true
  }

  /** `v === null || v === undefined`. */
  predicate Nullish(v: Option<JsValue>) {
    v.None? || v == Some(JNull)
  }

  /** `v === null || v === undefined || v === ""`. */
  predicate Missing(v: Option<JsValue>) {
    Nullish(v) || v == Some(JStr(""))
  }

  /** `String(v)`, the text an assignment to `textContent` or to a `dataset` entry stores. */
  function Text(v: Option<JsValue>): string {
    match v
    case None => "undefined"
    case Some(JNull) => "null"
    case Some(JBool(b)) => if b then "true" else "false"
    case Some(JNum(_, t)) => t
    case Some(JStr(s)) => s
    case Some(JArray(t)) => t
    case Some(JObject(_)) => "[object Object]"
  }

  /** `value || fallback`. */
  function Or(v: Option<JsValue>, fallback: string): string {
    if Truthy(v) then Text(v) else fallback
  }

  /** `STATUS_CLASSES`: the classes that mark a status badge. */
  const StatusClasses: seq<string> := ["pending", "accepted", "declined", "completed"]

  /** The four status classes as a set. */
  function StatusClassSet(): set<string> {
    set i | 0 <= i < |StatusClasses| :: StatusClasses[i]
  }

  /** A descendant element the scripts touch: its `data-field` attribute ("" when it has
      none), its class list and its text. */
  datatype Node = Node(field: string, classes: set<string>, text: string)

  /** What `updateStatus(el, status)` leaves on `el`. */
  function StatusUpdated(n: Node, status: Option<JsValue>): Node {
    if !Truthy(status) then n
    else Node(n.field, n.classes - StatusClassSet() + {Text(status)}, Text(status))
  }

  /** `updateStatus`: a falsy status is a no-op; otherwise the text becomes the status, each
      of the four status classes is removed in turn and the status is added as a class. */
  method UpdateStatus(n: Node, status: Option<JsValue>) returns (m: Node)
    ensures m == StatusUpdated(n, status)
  {
    if !Truthy(status) {
      return n;
    }
    var classes := n.classes;
    for i := 0 to |StatusClasses|
      invariant classes == n.classes - (set j | 0 <= j < i :: StatusClasses[j])
    {
      classes := classes - {StatusClasses[i]};
    }
    classes := classes + {Text(status)};
    m := Node(n.field, classes, Text(status));
  }

  /** After a status update the element shows the status, carries it as a class, and carries
      no other of the four status classes. */
  lemma OnlyStatusClass(n: Node, status: string)
    requires status != ""
    ensures StatusUpdated(n, Some(JStr(status))).text == status
    ensures StatusUpdated(n, Some(JStr(status))).classes * StatusClassSet() ==
            (if status in StatusClassSet() then {status} else {})
    ensures status in StatusUpdated(n, Some(JStr(status))).classes
    ensures StatusUpdated(n, Some(JStr(status))).classes - StatusClassSet() - {status} ==
            n.classes - StatusClassSet() - {status}
  {
  }

  /** An empty (or otherwise falsy) status changes nothing. */
  lemma FalsyStatusIsNoOp(n: Node, status: Option<JsValue>)
    requires !Truthy(status)
    ensures StatusUpdated(n, status) == n
  {
  }

  /** Updating to the same status twice is updating once. */
  lemma StatusUpdateIdempotent(n: Node, status: Option<JsValue>)
    ensures StatusUpdated(StatusUpdated(n, status), status) == StatusUpdated(n, status)
  {
  }
}
