/** The slice of JavaScript semantics the pages rely on: optional values
    (`null`/`undefined`), truthiness, and `String.prototype.trim`. */
module Js {
  import opened Seqs

  /** A value that may be `null` or `undefined` (both are `None`). */
  datatype Option<+T> = None | Some(value: T) {
    function GetOr(default: T): T {
      match this
      case Some(v) => v
      case None => default
    }
  }

  /** The outcome of an awaited call: its resolved value or the error it threw. */
  datatype Result<+T, +E> = Success(value: T) | Failure(error: E)

  /** The JSON-like values that can arrive in an option list from the server.
      Objects are compared by identity, which `ref` stands for; numbers are
      integers (NaN and fractions are not modelled). */
  datatype JsValue =
    | JsNull
    | JsUndefined
    | JsBool(b: bool)
    | JsNumber(n: int)
    | JsString(s: string)
    | JsObject(ref: nat)

  /** JavaScript truthiness: `null`, `undefined`, `false`, `0` and `''` are falsy. */
  predicate Truthy(v: JsValue) {
    match v
    case JsNull => false
    case JsUndefined => false
    case JsBool(b) => b
    case JsNumber(n) => n != 0
    case JsString(s) => s != ""
    case JsObject(_) => true
  }

  /** `s || fallback` for an optional string: the empty string and a missing
      value both give way to the fallback. */
  function OrElse(s: Option<string>, fallback: string): (r: string)
    ensures r == fallback || (s.Some? && r == s.value)
    ensures r == fallback <==> s.None? || s.value == "" || s.value == fallback
  {
    if s.Some? && s.value != "" then s.value else fallback
  }

  /** `s || null` (or `s || undefined`) on a string: absent exactly when the
      string is empty; reading an absent value back as `''` gives the string
      again. */
  function NonEmpty(s: string): (r: Option<string>)
    ensures r.None? <==> s == ""
    ensures r.Some? ==> r.value == s
    ensures r.GetOr("") == s
  {
    if s == "" then None else Some(s)
  }

  /** The characters `trim` removes: the WhiteSpace and LineTerminator
      productions of ECMAScript (tab, vertical tab, form feed, space, no-break
      space, byte order mark, every space separator, LF, CR, LS, PS). */
  predicate IsWhitespace(c: char) {
    || c == '\t' || c == '\U{000B}' || c == '\U{000C}' || c == ' '
    || c == '\U{00A0}' || c == '\U{FEFF}' || c == '\U{1680}'
    || ('\U{2000}' <= c <= '\U{200A}') || c == '\U{202F}' || c == '\U{205F}' || c == '\U{3000}'
    || c == '\n' || c == '\r' || c == '\U{2028}' || c == '\U{2029}'
  }

  /** `String.prototype.trim`: the contiguous middle of `s` left after removing
      whitespace at both ends. */
  function Trim(s: string): (r: string)
    ensures var i := LeadingCount(s, IsWhitespace);
      && i + |r| <= |s| && r == s[i..i + |r|]
      && (forall k :: 0 <= k < i ==> IsWhitespace(s[k]))
      && (forall k :: i + |r| <= k < |s| ==> IsWhitespace(s[k]))
    ensures r == [] || (!IsWhitespace(r[0]) && !IsWhitespace(r[|r| - 1]))
  {
    Strip(s, IsWhitespace)
  }

  /** A value whose trimmed form is empty, i.e. `!value.trim()`. */
  predicate IsBlank(s: string) {
    Trim(s) == ""
  }

  /** A string is blank exactly when every character of it is whitespace. */
  lemma {:induction false} BlankIffAllWhitespace(s: string)
    ensures IsBlank(s) <==> forall k :: 0 <= k < |s| ==> IsWhitespace(s[k])
  {
    if !forall k :: 0 <= k < |s| ==> IsWhitespace(s[k]) {
      var k :| 0 <= k < |s| && !IsWhitespace(s[k]);
      assert LeadingCount(s, IsWhitespace) <= k;
    }
  }

  /** Trimming twice is trimming once. */
  lemma TrimIdempotent(s: string)
    ensures Trim(Trim(s)) == Trim(s)
  {
    assert LeadingCount(Trim(s), IsWhitespace) == 0;
  }
}
