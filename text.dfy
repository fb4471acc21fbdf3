/** Option, used wherever the source has `Option<T>`, `null` or "not found". */
module Wrappers {
  datatype Option<+T> = None | Some(value: T) {
    function UnwrapOr(default: T): T {
      match this
      case Some(v) => v
      case None => default
    }
  }
}

/** String helpers shared by the server (Rust) and the browser scripts (JavaScript). */
module Text {
  import opened Wrappers

  /** Rust's `str::trim` and JavaScript's `String.prototype.trim` strip slightly different sets. */
  datatype Dialect = Rust | Js

  /** Rust: the Unicode White_Space property. JavaScript: WhiteSpace plus LineTerminator,
      which leaves out U+0085 and adds U+FEFF. */
  predicate IsSpace(c: char, d: Dialect) {
    ('\t' <= c <= '\r') || c == ' ' || c == '\U{00A0}' || c == '\U{1680}' ||
    ('\U{2000}' <= c <= '\U{200A}') || c == '\U{2028}' || c == '\U{2029}' ||
    c == '\U{202F}' || c == '\U{205F}' || c == '\U{3000}' ||
    (d == Rust && c == '\U{0085}') || (d == Js && c == '\U{FEFF}')
  }

  predicate AllSpace(s: string, d: Dialect) {
    forall i :: 0 <= i < |s| ==> IsSpace(s[i], d)
  }

  /** Drops leading white space: the result is a suffix of `s`, what was dropped is white
      space, and the result does not start with white space. */
  function TrimStart(s: string, d: Dialect): (r: string)
    ensures |r| <= |s| && r == s[|s| - |r|..]
    ensures AllSpace(s[..|s| - |r|], d)
    ensures r != [] ==> !IsSpace(r[0], d)
  {
    if s != [] && IsSpace(s[0], d) then
      var r := TrimStart(s[1..], d);
      assert s[1..][..|s| - 1 - |r|] == s[1..|s| - |r|];
      r
    else s
  }

  /** Drops trailing white space: the result is a prefix of `s`, what was dropped is white
      space, and the result does not end with white space. */
  function TrimEnd(s: string, d: Dialect): (r: string)
    ensures |r| <= |s| && r == s[..|r|]
    ensures AllSpace(s[|r|..], d)
    ensures r != [] ==> !IsSpace(r[|r| - 1], d)
  {
    if s != [] && IsSpace(s[|s| - 1], d) then
      var r := TrimEnd(s[..|s| - 1], d);
      SpaceThenSpace(s, |r|, d);
      r
    else s
  }

  /** A tail that is white space before the last character, and a white space last
      character, is white space. */
  lemma SpaceThenSpace(s: string, k: nat, d: Dialect)
    requires k < |s| && AllSpace(s[..|s| - 1][k..], d) && IsSpace(s[|s| - 1], d)
    ensures AllSpace(s[k..], d)
  {
    forall j | 0 <= j < |s| - k
      ensures IsSpace(s[k..][j], d)
    {
      if j < |s| - 1 - k {
        assert s[k..][j] == s[..|s| - 1][k..][j];
      }
    }
  }

  /** `str::trim` / `String.prototype.trim`: both ends stripped. */
  function Trim(s: string, d: Dialect): string {
    TrimEnd(TrimStart(s, d), d)
  }

  /** `s.trim().is_empty()`: nothing but white space (`BlankIffTrimEmpty` shows the two agree). */
  predicate IsBlank(s: string, d: Dialect) {
    AllSpace(s, d)
  }

  /** The trimmed string has no white space at either end. */
  lemma TrimEnds(s: string, d: Dialect)
    ensures var t := Trim(s, d); t != [] ==> !IsSpace(t[0], d) && !IsSpace(t[|t| - 1], d)
  {
    EndsOf(TrimStart(s, d), Trim(s, d), d);
  }

  /** A prefix of a text that does not start with white space does not either. */
  lemma EndsOf(a: string, t: string, d: Dialect)
    requires |t| <= |a| && t == a[..|t|]
    requires a != [] ==> !IsSpace(a[0], d)
    requires t != [] ==> !IsSpace(t[|t| - 1], d)
    ensures t != [] ==> !IsSpace(t[0], d) && !IsSpace(t[|t| - 1], d)
  {
    if t != [] {
      assert t[0] == a[0];
    }
  }

  /** Trimming leaves nothing exactly when every character is white space. */
  lemma {:induction false} BlankIffTrimEmpty(s: string, d: Dialect)
    ensures IsBlank(s, d) <==> Trim(s, d) == []
  {
    var a := TrimStart(s, d);
    if Trim(s, d) == [] {
      assert TrimEnd(a, d) == [];
      assert a[0..] == a;
      assert AllSpace(a, d);
      assert s == s[..|s| - |a|] + a;
    } else {
      var t := TrimEnd(a, d);
      assert t != [] && !IsSpace(t[|t| - 1], d);
      assert t[|t| - 1] == s[|s| - |a| + |t| - 1];
    }
  }

  /** Trimming is idempotent. */
  lemma {:induction false} TrimIdempotent(s: string, d: Dialect)
    ensures Trim(Trim(s, d), d) == Trim(s, d)
  {
    var t := Trim(s, d);
    TrimEnds(s, d);
    if t != [] {
      assert TrimStart(t, d) == t;
      assert TrimEnd(t, d) == t;
    }
  }

  predicate StartsWith(s: string, prefix: string) {
    |prefix| <= |s| && s[..|prefix|] == prefix
  }

  /** `str::strip_prefix`. */
  function StripPrefix(s: string, prefix: string): (r: Option<string>)
    ensures r.Some? <==> StartsWith(s, prefix)
    ensures r.Some? ==> prefix + r.value == s
  {
    if StartsWith(s, prefix) then
      assert s == s[..|prefix|] + s[|prefix|..];
      Some(s[|prefix|..])
    else None
  }

  /** `s.split(sep).next()`: everything before the first `sep`, or `s` when there is none. */
  function BeforeFirst(s: string, sep: char): (r: string)
    ensures |r| <= |s| && r == s[..|r|]
    ensures sep !in r
    ensures |r| < |s| ==> s[|r|] == sep
  {
    if s == [] then []
    else if s[0] == sep then []
    else [s[0]] + BeforeFirst(s[1..], sep)
  }

  function LowerAscii(c: char): char {
    if 'A' <= c <= 'Z' then (c as int + 32) as char else c
  }

  function UpperAscii(c: char): char {
    if 'a' <= c <= 'z' then (c as int - 32) as char else c
  }

  /** `toLowerCase`, for ASCII letters. */
  function ToLower(s: string): (r: string)
    ensures |r| == |s|
    ensures forall i :: 0 <= i < |s| ==> r[i] == LowerAscii(s[i])
  {
    seq(|s|, i requires 0 <= i < |s| => LowerAscii(s[i]))
  }

  /** `to_uppercase`, for ASCII letters. */
  function ToUpper(s: string): (r: string)
    ensures |r| == |s|
    ensures forall i :: 0 <= i < |s| ==> r[i] == UpperAscii(s[i])
  {
    seq(|s|, i requires 0 <= i < |s| => UpperAscii(s[i]))
  }
}
