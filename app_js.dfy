/** The shared page script: the VAPID key's decoding, the notification toggle on the status
    page, and the booking form's push-subscription step. */
module AppJs {
  import opened Wrappers
  import Html

  // ---- base64url to bytes ----

  /** The character of a 6-bit value in the standard alphabet (section 4 of RFC 4648). */
  function StdChar(v: nat): char
    requires v < 64
  {
    if v < 26 then ('A' as int + v) as char
    else if v < 52 then ('a' as int + v - 26) as char
    else if v < 62 then ('0' as int + v - 52) as char
    else if v == 62 then '+'
    else '/'
  }

  /** The character of a 6-bit value in the URL-safe alphabet (section 5 of RFC 4648). */
  function UrlChar(v: nat): char
    requires v < 64
  {
    if v == 62 then '-' else if v == 63 then '_' else StdChar(v)
  }

  /** The value of a character of the standard alphabet; `None` for any other character. */
  function StdValue(c: char): (r: Option<nat>)
    ensures r.Some? ==> r.value < 64
  {
    if 'A' <= c <= 'Z' then Some(c as int - 'A' as int)
    else if 'a' <= c <= 'z' then Some(c as int - 'a' as int + 26)
    else if '0' <= c <= '9' then Some(c as int - '0' as int + 52)
    else if c == '+' then Some(62)
    else if c == '/' then Some(63)
    else None
  }

  lemma StdValueOfChar(v: nat)
    requires v < 64
    ensures StdValue(StdChar(v)) == Some(v)
  {
  }

  /** The padding the script appends: `(4 - len % 4) % 4` equals signs. */
  function Padding(s: string): (r: string)
    ensures |r| == (4 - |s| % 4) % 4
    ensures forall i :: 0 <= i < |r| ==> r[i] == '='
  {
    seq((4 - |s| % 4) % 4, i => '=')
  }

  /** The padded text always has a length that is a multiple of four, with at most three
      equals signs added, and none when the length already was one. */
  lemma PaddedLength(s: string)
    ensures |s + Padding(s)| % 4 == 0
    ensures |Padding(s)| < 4
    ensures |Padding(s)| == 0 <==> |s| % 4 == 0
  {
  }

  /** The two global replacements `-` to `+` and `_` to `/`. */
  function ToStandard(s: string): string {
    Html.ReplaceAll(Html.ReplaceAll(s, '-', "+"), '_', "/")
  }

  function UrlToStd(c: char): char {
    if c == '-' then '+' else if c == '_' then '/' else c
  }

  lemma {:induction false} ToStandardEach(s: string)
    ensures ToStandard(s) == seq(|s|, i requires 0 <= i < |s| => UrlToStd(s[i]))
  {
    if s != [] {
      ToStandardEach(s[1..]);
      assert Html.ReplaceAll(s, '-', "+") ==
             [if s[0] == '-' then '+' else s[0]] + Html.ReplaceAll(s[1..], '-', "+");
      Html.ReplaceAllAppend([if s[0] == '-' then '+' else s[0]],
                            Html.ReplaceAll(s[1..], '-', "+"), '_', "/");
      Html.ReplaceAllOne(if s[0] == '-' then '+' else s[0], '_', "/");
      assert ToStandard(s) == [UrlToStd(s[0])] + ToStandard(s[1..]);
    }
  }

  /** The replacements turn the URL-safe alphabet into the standard one. */
  lemma UrlToStdChar(v: nat)
    requires v < 64
    ensures UrlToStd(UrlChar(v)) == StdChar(v)
  {
  }

  // The decoding `window.atob` performs: the forgiving-base64 decode of the WHATWG Infra
  // standard, giving one character per byte.

  predicate IsAsciiWhitespace(c: char) {
    c == '\t' || c == '\n' || c == '\U{000C}' || c == '\r' || c == ' '
  }

  function RemoveWhitespace(s: string): (r: string)
    ensures forall c :: c in r ==> c in s && !IsAsciiWhitespace(c)
  {
    if s == [] then []
    else (if IsAsciiWhitespace(s[0]) then [] else [s[0]]) + RemoveWhitespace(s[1..])
  }

  /** A length divisible by four loses one or two trailing equals signs. */
  function DropPadding(s: string): string {
    if |s| % 4 != 0 then s
    else if |s| >= 2 && s[|s| - 2..] == "==" then s[..|s| - 2]
    else if |s| >= 1 && s[|s| - 1] == '=' then s[..|s| - 1]
    else s
  }

  /** The 6-bit values of the characters; `None` when one is outside the alphabet. */
  function Sextets(s: string): (r: Option<seq<nat>>)
    ensures r.Some? ==> |r.value| == |s| && forall i :: 0 <= i < |s| ==> r.value[i] < 64
  {
    if s == [] then Some([])
    else match (StdValue(s[0]), Sextets(s[1..]))
      case (Some(v), Some(rest)) => Some([v] + rest)
      case _ => None
  }

  predicate Sixes(d: seq<nat>) {
    forall i :: 0 <= i < |d| ==> d[i] < 64
  }

  predicate Octets(b: seq<nat>) {
    forall i :: 0 <= i < |b| ==> b[i] < 256
  }

  /** Four 6-bit values make three bytes; a final two make one and a final three make two,
      their leftover low bits dropped. */
  function DecodeSextets(d: seq<nat>): (b: seq<nat>)
    requires Sixes(d) && |d| % 4 != 1
    ensures Octets(b)
    ensures |b| == 3 * (|d| / 4) + (if |d| % 4 == 0 then 0 else |d| % 4 - 1)
  {
    if |d| >= 4 then
      [d[0] * 4 + d[1] / 16, (d[1] % 16) * 16 + d[2] / 4, (d[2] % 4) * 64 + d[3]] +
      DecodeSextets(d[4..])
    else if |d| == 3 then [d[0] * 4 + d[1] / 16, (d[1] % 16) * 16 + d[2] / 4]
    else if |d| == 2 then [d[0] * 4 + d[1] / 16]
    else []
  }

  /** `window.atob`: `None` where it throws. */
  function Atob(s: string): (r: Option<string>)
    ensures r.Some? ==> forall i :: 0 <= i < |r.value| ==> r.value[i] as int < 256
  {
    var data := DropPadding(RemoveWhitespace(s));
    if |data| % 4 == 1 then None
    else match Sextets(data)
      case None => None
      case Some(d) =>
        var b := DecodeSextets(d);
        Some(seq(|b|, i requires 0 <= i < |b| => b[i] as char))
  }

  /** `urlBase64ToUint8Array`: pad, switch alphabet, decode, and take each character's code. */
  function UrlBase64ToBytes(s: string): (r: Option<seq<nat>>)
    ensures r.Some? ==> Octets(r.value)
  {
    match Atob(ToStandard(s + Padding(s)))
    case None => None
    case Some(raw) => Some(seq(|raw|, i requires 0 <= i < |raw| => raw[i] as nat))
  }

  // The reference encoder: bytes written in the URL-safe alphabet without padding, as the
  // VAPID public key is published.

  function EncodeSextets(b: seq<nat>): (d: seq<nat>)
    requires Octets(b)
    ensures Sixes(d)
    ensures |d| == 4 * (|b| / 3) + (if |b| % 3 == 0 then 0 else |b| % 3 + 1)
  {
    if |b| >= 3 then
      [b[0] / 4, (b[0] % 4) * 16 + b[1] / 16, (b[1] % 16) * 4 + b[2] / 64, b[2] % 64] +
      EncodeSextets(b[3..])
    else if |b| == 2 then [b[0] / 4, (b[0] % 4) * 16 + b[1] / 16, (b[1] % 16) * 4]
    else if |b| == 1 then [b[0] / 4, (b[0] % 4) * 16]
    else []
  }

  function EncodeUrl(b: seq<nat>): (s: string)
    requires Octets(b)
  {
    var d := EncodeSextets(b);
    seq(|d|, i requires 0 <= i < |d| => UrlChar(d[i]))
  }

  /** Three bytes survive the trip through four 6-bit values. */
  lemma ThreeBytes(b0: nat, b1: nat, b2: nat)
    requires b0 < 256 && b1 < 256 && b2 < 256
    ensures var d0, d1, d2, d3 := b0 / 4, (b0 % 4) * 16 + b1 / 16, (b1 % 16) * 4 + b2 / 64, b2 % 64;
      d0 * 4 + d1 / 16 == b0 && (d1 % 16) * 16 + d2 / 4 == b1 && (d2 % 4) * 64 + d3 == b2
  {
    var d1 := (b0 % 4) * 16 + b1 / 16;
    assert d1 / 16 == b0 % 4 && d1 % 16 == b1 / 16;
    var d2 := (b1 % 16) * 4 + b2 / 64;
    assert d2 / 4 == b1 % 16 && d2 % 4 == b2 / 64;
  }

  /** Two bytes survive the trip through three 6-bit values, one byte through two. */
  lemma ShortGroups(b0: nat, b1: nat)
    requires b0 < 256 && b1 < 256
    ensures var d0, d1, d2 := b0 / 4, (b0 % 4) * 16 + b1 / 16, (b1 % 16) * 4;
      d0 * 4 + d1 / 16 == b0 && (d1 % 16) * 16 + d2 / 4 == b1
    ensures var d0, d1 := b0 / 4, (b0 % 4) * 16;
      d0 * 4 + d1 / 16 == b0
  {
    var d1 := (b0 % 4) * 16 + b1 / 16;
    assert d1 / 16 == b0 % 4 && d1 % 16 == b1 / 16;
    assert ((b0 % 4) * 16) / 16 == b0 % 4;
  }

  lemma DecodeGroup(g: seq<nat>, rest: seq<nat>)
    requires |g| == 4 && Sixes(g) && Sixes(rest) && |rest| % 4 != 1
    ensures Sixes(g + rest) && |g + rest| % 4 != 1
    ensures DecodeSextets(g + rest) ==
            [g[0] * 4 + g[1] / 16, (g[1] % 16) * 16 + g[2] / 4, (g[2] % 4) * 64 + g[3]] +
            DecodeSextets(rest)
  {
    assert (g + rest)[4..] == rest;
  }

  lemma DecodeEncodeLong(b: seq<nat>)
    requires Octets(b) && |b| >= 3
    requires |EncodeSextets(b[3..])| % 4 != 1
    requires DecodeSextets(EncodeSextets(b[3..])) == b[3..]
    ensures |EncodeSextets(b)| % 4 != 1
    ensures DecodeSextets(EncodeSextets(b)) == b
  {
    var rest := EncodeSextets(b[3..]);
    var g := [b[0] / 4, (b[0] % 4) * 16 + b[1] / 16, (b[1] % 16) * 4 + b[2] / 64, b[2] % 64];
    assert EncodeSextets(b) == g + rest;
    assert Sixes(g) by {
      assert Sixes(EncodeSextets(b));
    }
    assert DecodeSextets(g + rest) == [b[0], b[1], b[2]] + b[3..] &&
           |g + rest| % 4 != 1 by {
      DecodeGroup(g, rest);
      ThreeBytes(b[0], b[1], b[2]);
    }
    assert b == [b[0], b[1], b[2]] + b[3..];
  }

  lemma {:induction false} DecodeEncode(b: seq<nat>)
    requires Octets(b)
    ensures |EncodeSextets(b)| % 4 != 1
    ensures DecodeSextets(EncodeSextets(b)) == b
  {
    if |b| >= 3 {
      DecodeEncode(b[3..]);
      DecodeEncodeLong(b);
    } else if |b| == 2 {
      ShortGroups(b[0], b[1]);
      assert b == [b[0], b[1]];
    } else if |b| == 1 {
      ShortGroups(b[0], 0);
      assert b == [b[0]];
    }
  }

  lemma {:induction false} SextetsOfStd(d: seq<nat>)
    requires Sixes(d)
    ensures Sextets(seq(|d|, i requires 0 <= i < |d| => StdChar(d[i]))) == Some(d)
  {
    var s := seq(|d|, i requires 0 <= i < |d| => StdChar(d[i]));
    if d != [] {
      StdValueOfChar(d[0]);
      assert s[1..] == seq(|d[1..]|, i requires 0 <= i < |d[1..]| => StdChar(d[1..][i]));
      SextetsOfStd(d[1..]);
      assert d == [d[0]] + d[1..];
    }
  }

  lemma {:induction false} NoWhitespace(s: string)
    requires forall i :: 0 <= i < |s| ==> !IsAsciiWhitespace(s[i])
    ensures RemoveWhitespace(s) == s
  {
    if s != [] {
      NoWhitespace(s[1..]);
      assert s == [s[0]] + s[1..];
    }
  }

  /** The padded, switched text of an encoding is the standard-alphabet encoding followed by
      the padding. */
  lemma StandardOfEncoding(b: seq<nat>)
    requires Octets(b)
    ensures var s := EncodeUrl(b);
            var d := EncodeSextets(b);
            ToStandard(s + Padding(s)) ==
              seq(|d|, i requires 0 <= i < |d| => StdChar(d[i])) + Padding(s)
  {
    var s := EncodeUrl(b);
    var d := EncodeSextets(b);
    var t := s + Padding(s);
    ToStandardEach(t);
    forall i | 0 <= i < |d|
      ensures UrlToStd(t[i]) == StdChar(d[i])
    {
      UrlToStdChar(d[i]);
    }
  }

  function StdOf(d: seq<nat>): (s: string)
    requires Sixes(d)
    ensures |s| == |d|
  {
    seq(|d|, i requires 0 <= i < |d| => StdChar(d[i]))
  }

  /** `atob` takes off exactly the padding the script added to a standard-alphabet text. */
  lemma DropAddedPadding(std: string)
    requires |std| % 4 != 1
    requires forall i :: 0 <= i < |std| ==> std[i] != '='
    ensures DropPadding(std + Padding(std)) == std
  {
    var pad := Padding(std);
    var t := std + pad;
    if |pad| == 2 {
      assert t[|t| - 2..] == "==";
      assert t[..|t| - 2] == std;
    } else if |pad| == 1 {
      assert t[|t| - 2] == std[|std| - 1];
      assert t[..|t| - 1] == std;
    } else {
      assert t == std;
      if |std| >= 1 {
        assert t[|t| - 1] == std[|std| - 1];
        assert t[|t| - 2..] != "==";
      }
    }
  }

  /** `atob` of the padded standard-alphabet text of some 6-bit values decodes them. */
  lemma AtobOfStd(d: seq<nat>)
    requires Sixes(d) && |d| % 4 != 1
    ensures var b := DecodeSextets(d);
      Atob(StdOf(d) + Padding(StdOf(d))) ==
        Some(seq(|b|, i requires 0 <= i < |b| => b[i] as char))
  {
    var std := StdOf(d);
    var t := std + Padding(std);
    assert forall i :: 0 <= i < |t| ==> !IsAsciiWhitespace(t[i]) by {
      forall i | 0 <= i < |t| ensures !IsAsciiWhitespace(t[i]) {
        if i < |std| {
          assert t[i] == StdChar(d[i]);
        }
      }
    }
    NoWhitespace(t);
    DropAddedPadding(std);
    SextetsOfStd(d);
  }

  /** Decoding a URL-safe encoding gives back exactly the encoded bytes. */
  lemma UrlBase64RoundTrip(b: seq<nat>)
    requires Octets(b)
    ensures UrlBase64ToBytes(EncodeUrl(b)) == Some(b)
  {
    var s := EncodeUrl(b);
    var d := EncodeSextets(b);
    StandardOfEncoding(b);
    assert Padding(s) == Padding(StdOf(d));
    assert ToStandard(s + Padding(s)) == StdOf(d) + Padding(StdOf(d));
    DecodeEncode(b);
    AtobOfStd(d);
    var raw := seq(|b|, i requires 0 <= i < |b| => b[i] as char);
    assert Atob(ToStandard(s + Padding(s))) == Some(raw);
    assert seq(|raw|, i requires 0 <= i < |raw| => raw[i] as nat) == b;
  }

  /** A key whose length leaves a remainder of one is rejected: three equals signs are added
      and only two are taken off again. */
  lemma OneOverIsRejected(s: string)
    requires |s| % 4 == 1
    requires forall i :: 0 <= i < |s| ==> StdValue(UrlToStd(s[i])).Some?
    ensures UrlBase64ToBytes(s) == None
  {
    PaddedOneOver(s);
    ThreeEqualsRejected(ToStandard(s + Padding(s)));
  }

  /** Three equals signs follow the switched text, which holds no white space. */
  lemma PaddedOneOver(s: string)
    requires |s| % 4 == 1
    requires forall i :: 0 <= i < |s| ==> StdValue(UrlToStd(s[i])).Some?
    ensures var u := ToStandard(s + Padding(s));
      |u| % 4 == 0 && |u| >= 4 && u[|u| - 3..] == "===" &&
      forall i :: 0 <= i < |u| ==> !IsAsciiWhitespace(u[i])
  {
    var t := s + Padding(s);
    var u := ToStandard(t);
    ToStandardEach(t);
    assert |Padding(s)| == 3;
    forall i | 0 <= i < |u| ensures !IsAsciiWhitespace(u[i]) {
      assert u[i] == UrlToStd(t[i]);
      if i < |s| {
        assert t[i] == s[i];
      } else {
        assert t[i] == '=';
      }
    }
    forall i | |s| <= i < |u| ensures u[i] == '=' {
      assert t[i] == '=';
    }
  }

  /** `atob` removes at most two trailing equals signs, so a third is left to reject. */
  lemma ThreeEqualsRejected(u: string)
    requires |u| % 4 == 0 && |u| >= 4 && u[|u| - 3..] == "==="
    requires forall i :: 0 <= i < |u| ==> !IsAsciiWhitespace(u[i])
    ensures Atob(u) == None
  {
    NoWhitespace(u);
    var data := u[..|u| - 2];
    assert u[|u| - 2..] == "==";
    assert DropPadding(u) == data;
    assert data[|data| - 1] == '=';
    SextetsRejects(data, |data| - 1);
  }

  lemma {:induction false} SextetsRejects(s: string, k: nat)
    requires k < |s| && StdValue(s[k]).None?
    ensures Sextets(s).None?
  {
    if k > 0 {
      SextetsRejects(s[1..], k - 1);
    }
  }

  // ---- the notification toggle ----

  datatype Permission = Default | Granted | Denied

  /** How the look-up of an existing subscription ended when permission is granted: a
      subscription (and whether posting it to the server failed), none, or an error from the
      service worker or the push manager. */
  datatype Lookup = Subscribed(json: string, postFails: bool) | NotSubscribed | PushError

  /** The state, label and helper text `refreshState` settles on. */
  datatype Shown = Shown(state: string, labelText: string, help: string)

  const Unsupported := Shown("blocked", "Notifications unavailable",
                             "This browser does not support push notifications.")
  const Refused := Shown("blocked", "Notifications blocked",
                         "Allow notifications in your browser settings.")
  const Unreachable := Shown("blocked", "Notifications unavailable",
                             "We couldn't access the push service.")
  const Active := Shown("enabled", "Notifications enabled",
                        "You'll receive status updates on this device.")
  const Offer := Shown("idle", "Enable notifications", "")

  /** `refreshState`'s decision; `posts` is whether a subscription is sent (the toggle has a
      subscribe URL). */
  function RefreshDecision(supported: bool, permission: Permission, lookup: Lookup,
                           posts: bool): Shown
  {
    if !supported then Unsupported
    else if permission == Denied then Refused
    else if permission == Granted then
      match lookup
      case Subscribed(_, fails) => if posts && fails then Unreachable else Active
      case PushError => Unreachable
      case NotSubscribed => Offer
    else Offer
  }

  /** The toggle shows "enabled" only when push is supported, permission is granted and a
      subscription exists (and reached the server when there is one to tell); it shows
      "blocked" exactly when push is unsupported, denied or failing. */
  lemma ToggleStates(supported: bool, permission: Permission, lookup: Lookup, posts: bool)
    ensures var s := RefreshDecision(supported, permission, lookup, posts);
      (s.state == "enabled" <==>
         supported && permission == Granted && lookup.Subscribed? &&
         !(posts && lookup.postFails))
    ensures var s := RefreshDecision(supported, permission, lookup, posts);
      (s.state == "blocked" <==>
         !supported || permission == Denied ||
         (permission == Granted && (lookup.PushError? ||
                                    (lookup.Subscribed? && posts && lookup.postFails))))
    ensures var s := RefreshDecision(supported, permission, lookup, posts);
      s.state == "enabled" || s.state == "blocked" || s.state == "idle"
  {
  }

  /** The click handler's decision. `permission` is the permission before the click,
      `requested` the answer to the request, `obtained` the subscription as JSON (`None` when
      the service worker or the push manager threw) and `postFails` whether posting it threw. */
  function ClickDecision(supported: bool, permission: Permission, requested: Permission,
                         obtained: Option<string>, posts: bool, postFails: bool): Shown
  {
    if !supported then Unsupported
    else if permission == Denied then Refused
    else if requested != Granted then Refused
    else if obtained.None? then Unreachable
    else if posts && postFails then Unreachable
    else Active
  }

  /** A click enables notifications exactly when push is supported, was not already denied,
      the request is granted and a subscription was obtained (and reached the server when there
      is one to tell); every other outcome shows "blocked", never "idle". */
  lemma ClickStates(supported: bool, permission: Permission, requested: Permission,
                    obtained: Option<string>, posts: bool, postFails: bool)
    ensures var s := ClickDecision(supported, permission, requested, obtained, posts, postFails);
      (s.state == "enabled" <==>
         supported && permission != Denied && requested == Granted && obtained.Some? &&
         !(posts && postFails))
    ensures var s := ClickDecision(supported, permission, requested, obtained, posts, postFails);
      s.state == "enabled" || s.state == "blocked"
  {
  }

  /** After a click that enabled notifications, the next page load (permission granted, the
      subscription found, the same post outcome) shows the same state. */
  lemma ClickThenRefreshAgree(permission: Permission, json: string, posts: bool, postFails: bool)
    requires ClickDecision(true, permission, Granted, Some(json), posts, postFails) == Active
    ensures RefreshDecision(true, Granted, Subscribed(json, postFails), posts) == Active
  {
  }

  class Toggle {
    /** `data-appointment-id`, "" when absent. */
    const appointmentId: string
    const hasLabel: bool
    const hasHelper: bool
    const hasIndicator: bool
    const subscribeUrl: string
    var labelText: string
    var helper: string
    var indicator: set<string>
    /** The subscriptions posted to the subscribe URL, in order. */
    var posted: seq<string>

    constructor (appointmentId: string, hasLabel: bool, hasHelper: bool, hasIndicator: bool,
                 subscribeUrl: string, labelText: string, helper: string, indicator: set<string>)
      ensures this.appointmentId == appointmentId && this.hasLabel == hasLabel && this.hasHelper == hasHelper
      ensures this.hasIndicator == hasIndicator && this.subscribeUrl == subscribeUrl
      ensures this.labelText == labelText && this.helper == helper && this.indicator == indicator
      ensures posted == []
    {
      this.appointmentId := appointmentId;
      this.hasLabel := hasLabel;
      this.hasHelper := hasHelper;
      this.hasIndicator := hasIndicator;
      this.subscribeUrl := subscribeUrl;
      this.labelText := labelText;
      this.helper := helper;
      this.indicator := indicator;
      posted := [];
    }

    /** `setState`: the label takes a non-empty text, the helper any defined text, and the
        indicator has "on" exactly when enabled and "blocked" exactly when blocked. */
    method SetState(state: string, text: string, helpText: Option<string>)
      modifies this`labelText, this`helper, this`indicator
      ensures labelText == (if hasLabel && text != "" then text else old(labelText))
      ensures helper == (if hasHelper && helpText.Some? then helpText.value else old(helper))
      ensures !hasIndicator ==> indicator == old(indicator)
      ensures hasIndicator ==>
        ("on" in indicator <==> state == "enabled") &&
        ("blocked" in indicator <==> state == "blocked") &&
        indicator - {"on", "blocked"} == old(indicator) - {"on", "blocked"}
    {
      if hasLabel && text != "" {
        labelText := text;
      }
      if hasHelper && helpText.Some? {
        helper := helpText.value;
      }
      if !hasIndicator {
        return;
      }
      indicator := indicator - {"on", "blocked"};
      if state == "enabled" {
        indicator := indicator + {"on"};
      } else if state == "blocked" {
        indicator := indicator + {"blocked"};
      }
    }

    /** `refreshState`: post an existing subscription when there is a subscribe URL, then show
        what `RefreshDecision` settles on. */
    method RefreshState(supported: bool, permission: Permission, lookup: Lookup)
      modifies this`labelText, this`helper, this`indicator, this`posted
      ensures var s := RefreshDecision(supported, permission, lookup, subscribeUrl != "");
        (hasIndicator ==>
           ("on" in indicator <==> s.state == "enabled") &&
           ("blocked" in indicator <==> s.state == "blocked")) &&
        labelText == (if hasLabel then s.labelText else old(labelText)) &&
        helper == (if hasHelper then s.help else old(helper))
      ensures posted == (if supported && permission == Granted && lookup.Subscribed? &&
                            subscribeUrl != ""
                         then old(posted) + [lookup.json] else old(posted))
    {
      var s := RefreshDecision(supported, permission, lookup, subscribeUrl != "");
      if supported && permission == Granted && lookup.Subscribed? && subscribeUrl != "" {
        posted := posted + [lookup.json];
      }
      SetState(s.state, s.labelText, Some(s.help));
    }

    /** The click handler: without an appointment id nothing happens; otherwise a subscription
        that was obtained is posted when there is a subscribe URL, and `ClickDecision` is shown. */
    method Click(supported: bool, permission: Permission, requested: Permission,
                 obtained: Option<string>, postFails: bool)
      modifies this`labelText, this`helper, this`indicator, this`posted
      ensures appointmentId == "" ==>
        labelText == old(labelText) && helper == old(helper) && indicator == old(indicator) &&
        posted == old(posted)
      ensures appointmentId != "" ==>
        var s := ClickDecision(supported, permission, requested, obtained, subscribeUrl != "",
                               postFails);
        (hasIndicator ==>
           ("on" in indicator <==> s.state == "enabled") &&
           ("blocked" in indicator <==> s.state == "blocked")) &&
        labelText == (if hasLabel then s.labelText else old(labelText)) &&
        helper == (if hasHelper then s.help else old(helper))
      ensures posted == (if appointmentId != "" && supported && permission != Denied &&
                            requested == Granted && obtained.Some? && subscribeUrl != ""
                         then old(posted) + [obtained.value] else old(posted))
    {
      if appointmentId == "" {
        return;
      }
      if supported && permission != Denied && requested == Granted && obtained.Some? &&
         subscribeUrl != "" {
        posted := posted + [obtained.value];
      }
      var s := ClickDecision(supported, permission, requested, obtained, subscribeUrl != "",
                             postFails);
      SetState(s.state, s.labelText, Some(s.help));
    }
  }

  // ---- the booking form's submit step ----

  class BookingSubmit {
    /** Whether the listener is installed at all: the page has the booking form and a
        non-empty VAPID public key. */
    const installed: bool
    /** Whether the form has the hidden `push_subscription` field. */
    const hasHidden: bool
    var hidden: string
    var submitting: bool
    /** Whether the script has submitted the form itself. */
    var submitted: bool

    constructor (hasForm: bool, vapidKey: string, hasHidden: bool, hidden: string)
      ensures installed <==> hasForm && vapidKey != ""
      ensures this.hasHidden == hasHidden && this.hidden == hidden
      ensures !submitting && !submitted
    {
      installed := hasForm && vapidKey != "";
      this.hasHidden := hasHidden;
      this.hidden := hidden;
      submitting := false;
      submitted := false;
    }

    /** The `submit` listener. `apis` is whether the Notification, service worker and push
        APIs exist; `permission` is the answer to the request; `obtained` is the subscription
        as JSON, `None` when a step threw. The form is held back only when the listener is
        installed, no submission is under way, the hidden field exists and is empty, and the
        APIs exist; it is then submitted by the script whatever the outcome. */
    method OnSubmit(apis: bool, permission: Permission, obtained: Option<string>)
      returns (intercepted: bool)
      modifies this`hidden, this`submitting, this`submitted
      ensures intercepted <==> installed && !old(submitting) && hasHidden && apis && old(hidden) == ""
      ensures !intercepted ==>
        hidden == old(hidden) && submitting == old(submitting) && submitted == old(submitted)
      ensures intercepted ==> submitting && submitted
      ensures intercepted ==>
        hidden == (if permission == Granted && obtained.Some? then obtained.value
                   else old(hidden))
    {
      if !installed {
        return false;
      }
      if submitting || !hasHidden {
        return false;
      }
      if !apis {
        return false;
      }
      if hidden != "" {
        return false;
      }
      intercepted := true;
      submitting := true;
      if permission == Granted && obtained.Some? {
        hidden := obtained.value;
      }
      submitted := true;
    }
  }
}
