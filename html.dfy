/** `escapeHtml`, which the admin and the booking scripts both define, identically: the
    value's text with `&`, `<`, `>`, `"` and `'` replaced, in that order, by their entities. */
module Html {
  import Text

  /** `s.replace(/c/g, rep)`. */
  function ReplaceAll(s: string, c: char, rep: string): (r: string)
    ensures c !in rep ==> c !in r
    ensures forall x :: x in r ==> x in s || x in rep
  {
    if s == [] then [] else (if s[0] == c then rep else [s[0]]) + ReplaceAll(s[1..], c, rep)
  }

  /** `escapeHtml`, as the five global replacements the scripts chain. */
  function EscapeHtml(s: string): string {
    ReplaceAll(ReplaceAll(ReplaceAll(ReplaceAll(ReplaceAll(s, '&', "&amp;"), '<', "&lt;"),
      '>', "&gt;"), '"', "&quot;"), '\'', "&#39;")
  }

  /** The entity each character turns into, taken one character at a time. */
  function Entity(c: char): (r: string)
    ensures r != []
    ensures '<' !in r && '>' !in r && '"' !in r && '\'' !in r
  {
    if c == '&' then "&amp;"
    else if c == '<' then "&lt;"
    else if c == '>' then "&gt;"
    else if c == '"' then "&quot;"
    else if c == '\'' then "&#39;"
    else [c]
  }

  /** A single pass over the text, each character replaced by its entity. */
  function EscapeEach(s: string): (r: string)
    ensures '<' !in r && '>' !in r && '"' !in r && '\'' !in r
    ensures |r| >= |s|
  {
    if s == [] then [] else Entity(s[0]) + EscapeEach(s[1..])
  }

  lemma {:induction false} ReplaceAllAppend(a: string, b: string, c: char, rep: string)
    ensures ReplaceAll(a + b, c, rep) == ReplaceAll(a, c, rep) + ReplaceAll(b, c, rep)
  {
    if a == [] {
      assert a + b == b;
    } else {
      assert (a + b)[0] == a[0];
      assert (a + b)[1..] == a[1..] + b;
      ReplaceAllAppend(a[1..], b, c, rep);
    }
  }

  lemma {:induction false} ReplaceAllAbsent(s: string, c: char, rep: string)
    requires c !in s
    ensures ReplaceAll(s, c, rep) == s
  {
    if s != [] {
      assert s[0] != c;
      ReplaceAllAbsent(s[1..], c, rep);
    }
  }

  lemma EscapeHtmlAppend(a: string, b: string)
    ensures EscapeHtml(a + b) == EscapeHtml(a) + EscapeHtml(b)
  {
    var s1a, s1b := ReplaceAll(a, '&', "&amp;"), ReplaceAll(b, '&', "&amp;");
    ReplaceAllAppend(a, b, '&', "&amp;");
    var s2a, s2b := ReplaceAll(s1a, '<', "&lt;"), ReplaceAll(s1b, '<', "&lt;");
    ReplaceAllAppend(s1a, s1b, '<', "&lt;");
    var s3a, s3b := ReplaceAll(s2a, '>', "&gt;"), ReplaceAll(s2b, '>', "&gt;");
    ReplaceAllAppend(s2a, s2b, '>', "&gt;");
    var s4a, s4b := ReplaceAll(s3a, '"', "&quot;"), ReplaceAll(s3b, '"', "&quot;");
    ReplaceAllAppend(s3a, s3b, '"', "&quot;");
    ReplaceAllAppend(s4a, s4b, '\'', "&#39;");
  }

  /** One replacement applied to one character. */
  lemma ReplaceAllOne(x: char, c: char, rep: string)
    ensures ReplaceAll([x], c, rep) == if x == c then rep else [x]
  {
    assert [x][1..] == [];
  }

  /** The five replacements turn one character into its entity: `&` goes first, so the `&`
      of a later entity is never escaped again. */
  lemma EscapeHtmlChar(c: char)
    ensures EscapeHtml([c]) == Entity(c)
  {
    ReplaceAllOne(c, '&', "&amp;");
    if c == '&' {
      Untouched("&amp;");
      return;
    }
    ReplaceAllOne(c, '<', "&lt;");
    if c == '<' {
      Untouched("&lt;");
      return;
    }
    ReplaceAllOne(c, '>', "&gt;");
    if c == '>' {
      Untouched("&gt;");
      return;
    }
    ReplaceAllOne(c, '"', "&quot;");
    if c == '"' {
      Untouched("&quot;");
      return;
    }
    ReplaceAllOne(c, '\'', "&#39;");
  }

  /** An entity holds none of the characters the later replacements look for. */
  lemma Untouched(e: string)
    requires '<' !in e && '>' !in e && '"' !in e && '\'' !in e
    ensures ReplaceAll(e, '<', "&lt;") == e && ReplaceAll(e, '>', "&gt;") == e
    ensures ReplaceAll(e, '"', "&quot;") == e && ReplaceAll(e, '\'', "&#39;") == e
  {
    ReplaceAllAbsent(e, '<', "&lt;");
    ReplaceAllAbsent(e, '>', "&gt;");
    ReplaceAllAbsent(e, '"', "&quot;");
    ReplaceAllAbsent(e, '\'', "&#39;");
  }

  /** The chained replacements are the single pass: each character is escaped exactly once. */
  lemma {:induction false} EscapeHtmlIsEscapeEach(s: string)
    ensures EscapeHtml(s) == EscapeEach(s)
  {
    if s == [] {
      assert EscapeHtml(s) == [];
    } else {
      assert s == [s[0]] + s[1..];
      EscapeHtmlAppend([s[0]], s[1..]);
      EscapeHtmlChar(s[0]);
      EscapeHtmlIsEscapeEach(s[1..]);
    }
  }

  /** The output holds none of the four characters that could open a tag or an attribute. */
  lemma NoRawMarkup(s: string)
    ensures var r := EscapeHtml(s); '<' !in r && '>' !in r && '"' !in r && '\'' !in r
  {
    EscapeHtmlIsEscapeEach(s);
  }

  /** What a browser reads back from escaped text: the five entities decoded. */
  function Unescape(s: string): string
    decreases |s|
  {
    if s == [] then []
    else if Text.StartsWith(s, "&amp;") then "&" + Unescape(s[5..])
    else if Text.StartsWith(s, "&lt;") then "<" + Unescape(s[4..])
    else if Text.StartsWith(s, "&gt;") then ">" + Unescape(s[4..])
    else if Text.StartsWith(s, "&quot;") then "\"" + Unescape(s[6..])
    else if Text.StartsWith(s, "&#39;") then "'" + Unescape(s[5..])
    else [s[0]] + Unescape(s[1..])
  }

  lemma UnescapeEntity(c: char, rest: string)
    ensures Unescape(Entity(c) + rest) == [c] + Unescape(rest)
  {
    var e := Entity(c);
    assert (e + rest)[..|e|] == e;
    assert (e + rest)[|e|..] == rest;
    if c != '&' && c != '<' && c != '>' && c != '"' && c != '\'' {
      assert (e + rest)[0] == c;
      assert !Text.StartsWith(e + rest, "&amp;");
      assert !Text.StartsWith(e + rest, "&lt;");
      assert !Text.StartsWith(e + rest, "&gt;");
      assert !Text.StartsWith(e + rest, "&quot;");
      assert !Text.StartsWith(e + rest, "&#39;");
    } else if c == '<' {
      assert (e + rest)[1] == 'l';
      assert !Text.StartsWith(e + rest, "&amp;");
    } else if c == '>' {
      assert (e + rest)[1] == 'g';
      assert !Text.StartsWith(e + rest, "&amp;");
      assert !Text.StartsWith(e + rest, "&lt;");
    } else if c == '"' {
      assert (e + rest)[1] == 'q';
      assert !Text.StartsWith(e + rest, "&amp;");
      assert !Text.StartsWith(e + rest, "&lt;");
      assert !Text.StartsWith(e + rest, "&gt;");
    } else if c == '\'' {
      assert (e + rest)[1] == '#';
      assert !Text.StartsWith(e + rest, "&amp;");
      assert !Text.StartsWith(e + rest, "&lt;");
      assert !Text.StartsWith(e + rest, "&gt;");
      assert !Text.StartsWith(e + rest, "&quot;");
    }
  }

  /** Escaping loses nothing: the browser shows exactly the original text. */
  lemma {:induction false} EscapeHtmlRoundTrip(s: string)
    ensures Unescape(EscapeHtml(s)) == s
  {
    EscapeHtmlIsEscapeEach(s);
    EscapeEachRoundTrip(s);
  }

  lemma {:induction false} EscapeEachRoundTrip(s: string)
    ensures Unescape(EscapeEach(s)) == s
  {
    if s != [] {
      UnescapeEntity(s[0], EscapeEach(s[1..]));
      EscapeEachRoundTrip(s[1..]);
    }
  }
}
