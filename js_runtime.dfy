/** The few pieces of JavaScript runtime behaviour the screens rely on:
    optional values, what a `throw` can carry, the outcome of an awaited
    backend or storage call, `toString()` on a caught value, and the
    whitespace set used by `String.prototype.trim` and the regex class `\s`. */
module JsRuntime {

  datatype Option<+T> = None | Some(value: T)

  /** What a rejected promise or a `throw` carries. */
  datatype Thrown =
    | Text(text: string)               // a thrown string, as utils/api.js throws
    | ErrorObject(description: string) // an Error or other object; `description` is what its toString() gives
    | Nullish                          // null or undefined

  /** An awaited call into the backend or device storage: it resolves with a
      value or rejects with what was thrown. */
  datatype Outcome<+T> = Ok(value: T) | Fail(error: Thrown)

  /** JavaScript truthiness of a thrown value: an empty string and null are falsy. */
  predicate Truthy(e: Thrown) {
    match e
    case Text(s) => s != ""
    case ErrorObject(_) => true
    case Nullish => false
  }

  /** `e.toString()` inside a `catch`. On null or undefined the call itself
      throws a TypeError, so no text is produced (None). */
  function ToStringOf(e: Thrown): (r: Option<string>)
    ensures r.None? <==> e.Nullish?
    ensures e.Text? ==> r == Some(e.text)
  {
    match e
    case Text(s) => Some(s)
    case ErrorObject(d) => Some(d)
    case Nullish => None
  }

  /** ECMAScript WhiteSpace and LineTerminator code points: the set that
      `trim()` strips and that `\s` matches. */
  predicate IsWhitespace(c: char) {
    var u := c as int;
    u == 0x09 || u == 0x0A || u == 0x0B || u == 0x0C || u == 0x0D || u == 0x20
    || u == 0xA0 || u == 0x1680 || (0x2000 <= u <= 0x200A)
    || u == 0x2028 || u == 0x2029 || u == 0x202F || u == 0x205F
    || u == 0x3000 || u == 0xFEFF
  }

  /** Every character of `s` is whitespace (true of the empty string). */
  ghost predicate Blank(s: string) {
    forall i | 0 <= i < |s| :: IsWhitespace(s[i])
  }

  /** Leading whitespace removed: the result is a suffix of `s` and does not
      start with whitespace. */
  function TrimStart(s: string): (r: string)
    ensures |r| <= |s| && r == s[|s| - |r|..]
    ensures r == [] || !IsWhitespace(r[0])
    ensures forall i | 0 <= i < |s| - |r| :: IsWhitespace(s[i])
  {
    if s != [] && IsWhitespace(s[0]) then TrimStart(s[1..]) else s
  }

  /** Trailing whitespace removed: the result is a prefix of `s` and does not
      end with whitespace. */
  function TrimEnd(s: string): (r: string)
    ensures |r| <= |s| && r == s[..|r|]
    ensures r == [] || !IsWhitespace(r[|r| - 1])
    ensures forall i | |r| <= i < |s| :: IsWhitespace(s[i])
  {
    if s != [] && IsWhitespace(s[|s| - 1]) then TrimEnd(s[..|s| - 1]) else s
  }

  /** `String.prototype.trim`. */
  function Trim(s: string): string {
    TrimEnd(TrimStart(s))
  }

  /** `!s.trim()` holds exactly when `s` is empty or only whitespace. */
  lemma TrimEmptyIffBlank(s: string)
    ensures Trim(s) == "" <==> Blank(s)
  {
  }
}
