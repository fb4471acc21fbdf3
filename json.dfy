/** The part of `serde_json` the event streams rely on: how a string is written as a JSON
    string literal (`serde_json::to_string`), and how a reader takes it back. */
module Json {
  import opened Wrappers

  /** serde_json writes the two hex digits of a `\u00XX` escape in lower case. */
  function HexDigit(n: nat): (c: char)
    requires n < 16
    ensures '0' <= c <= '9' || 'a' <= c <= 'f'
  {
    if n < 10 then ('0' as int + n) as char else ('a' as int + n - 10) as char
  }

  function HexValue(c: char): (r: Option<nat>)
    ensures r.Some? ==> r.value < 16
  {
    if '0' <= c <= '9' then Some(c as int - '0' as int)
    else if 'a' <= c <= 'f' then Some(c as int - 'a' as int + 10)
    else if 'A' <= c <= 'F' then Some(c as int - 'A' as int + 10)
    else None
  }

  lemma HexRoundTrip(n: nat)
    requires n < 16
    ensures HexValue(HexDigit(n)) == Some(n)
  {
  }

  /** One character as serde_json writes it inside a string: the quote, the backslash and
      the control characters below U+0020 are escaped (the short forms where JSON has one,
      `\u00XX` otherwise); every other character is written as it is. */
  function EscapeChar(c: char): (r: string)
    ensures r != []
    ensures forall i :: 0 <= i < |r| ==> r[i] as int >= 0x20
    ensures c as int >= 0x20 && c != '"' && c != '\\' ==> r == [c]
    ensures c as int < 0x20 || c == '"' || c == '\\' ==> r[0] == '\\'
  {
    if c == '"' then "\\\""
    else if c == '\\' then "\\\\"
    else if c == '\n' then "\\n"
    else if c == '\r' then "\\r"
    else if c == '\t' then "\\t"
    else if c == '\U{0008}' then "\\b"
    else if c == '\U{000C}' then "\\f"
    else if c as int < 0x20 then "\\u00" + [HexDigit(c as int / 16), HexDigit(c as int % 16)]
    else [c]
  }

  /** The contents of a JSON string literal for `s`. */
  function Escape(s: string): (r: string)
    ensures forall i :: 0 <= i < |r| ==> r[i] as int >= 0x20
    ensures |r| >= |s|
  {
    if s == [] then [] else EscapeChar(s[0]) + Escape(s[1..])
  }

  /** A JSON string literal: `s` escaped, between double quotes. */
  function Quote(s: string): string {
    "\"" + Escape(s) + "\""
  }

  /** An `Option<String>` field value: `null` or a string literal. */
  function OptionString(o: Option<string>): string {
    match o
    case None => "null"
    case Some(s) => Quote(s)
  }

  /** Reads the contents of a JSON string literal back: None when it holds a raw quote, a raw
      control character or a malformed escape. */
  function Unescape(t: string): (r: Option<string>)
    decreases |t|
  {
    if t == [] then Some([])
    else if t[0] == '"' || t[0] as int < 0x20 then None
    else if t[0] != '\\' then Prepend(t[0], Unescape(t[1..]))
    else if |t| < 2 then None
    else if t[1] == 'u' then
      if |t| < 6 then None
      else match (HexValue(t[2]), HexValue(t[3]), HexValue(t[4]), HexValue(t[5]))
        case (Some(a), Some(b), Some(c), Some(d)) =>
          var code := ((a * 16 + b) * 16 + c) * 16 + d;
          if 0xD800 <= code < 0xE000 then None else Prepend(code as char, Unescape(t[6..]))
        case _ => None
    else match ShortEscape(t[1])
      case Some(c) => Prepend(c, Unescape(t[2..]))
      case None => None
  }

  /** The character a two-character escape `\x` stands for. */
  function ShortEscape(x: char): Option<char> {
    if x == '"' then Some('"')
    else if x == '\\' then Some('\\')
    else if x == '/' then Some('/')
    else if x == 'n' then Some('\n')
    else if x == 'r' then Some('\r')
    else if x == 't' then Some('\t')
    else if x == 'b' then Some('\U{0008}')
    else if x == 'f' then Some('\U{000C}')
    else None
  }

  function Prepend(c: char, r: Option<string>): Option<string> {
    match r
    case None => None
    case Some(s) => Some([c] + s)
  }

  /** A `\u00XX` escape is read back as the character it encodes. */
  lemma UnescapeControl(c: char, rest: string)
    requires c as int < 0x20
    ensures Unescape("\\u00" + [HexDigit(c as int / 16), HexDigit(c as int % 16)] + rest) == Prepend(c, Unescape(rest))
  {
    var t := "\\u00" + [HexDigit(c as int / 16), HexDigit(c as int % 16)] + rest;
    HexRoundTrip(0);
    HexRoundTrip(c as int / 16);
    HexRoundTrip(c as int % 16);
    assert t[0] == '\\' && t[1] == 'u' && |t| >= 6;
    assert t[6..] == rest;
  }

  /** A two-character escape is read back as the character it stands for. */
  lemma UnescapeShort(x: char, rest: string)
    requires ShortEscape(x).Some?
    requires x != 'u'
    ensures Unescape(['\\', x] + rest) == Prepend(ShortEscape(x).value, Unescape(rest))
  {
    var t := ['\\', x] + rest;
    assert t[2..] == rest;
  }

  /** A character written as it is is read back as itself. */
  lemma UnescapePlain(c: char, rest: string)
    requires c as int >= 0x20 && c != '"' && c != '\\'
    ensures Unescape([c] + rest) == Prepend(c, Unescape(rest))
  {
    assert ([c] + rest)[1..] == rest;
  }

  /** Reading back one escaped character takes exactly its escape off the front. */
  lemma UnescapeChar(c: char, rest: string)
    ensures Unescape(EscapeChar(c) + rest) == Prepend(c, Unescape(rest))
  {
    if c == '"' {
      UnescapeShort('"', rest);
    } else if c == '\\' {
      UnescapeShort('\\', rest);
    } else if c == '\n' {
      UnescapeShort('n', rest);
    } else if c == '\r' {
      UnescapeShort('r', rest);
    } else if c == '\t' {
      UnescapeShort('t', rest);
    } else if c == '\U{0008}' {
      UnescapeShort('b', rest);
    } else if c == '\U{000C}' {
      UnescapeShort('f', rest);
    } else if c as int < 0x20 {
      UnescapeControl(c, rest);
    } else {
      UnescapePlain(c, rest);
    }
  }

  /** A reader recovers every string serde_json writes. */
  lemma {:induction false} UnescapeEscape(s: string)
    ensures Unescape(Escape(s)) == Some(s)
  {
    if s != [] {
      UnescapeEscape(s[1..]);
      UnescapeChar(s[0], Escape(s[1..]));
      assert [s[0]] + s[1..] == s;
    }
  }
}
