/**
 * The parts of JavaScript string semantics the validators rely on: the
 * white-space set shared by `String.prototype.trim` and the regular
 * expression class `\s` (the WhiteSpace and LineTerminator productions of
 * ECMA-262), and `trim` itself.
 */
module JsStrings {
  import opened Wrappers

  /** The code points `trim` removes and `\s` matches: tab, line feed,
      vertical tab, form feed, carriage return, space, no-break space, the
      other space separators (U+1680, U+2000 to U+200A, U+202F, U+205F,
      U+3000), the line and paragraph separators and the byte-order mark. */
  predicate IsWhitespace(c: char) {
    var n := c as int;
    (0x09 <= n <= 0x0D) || n == 0x20 || n == 0xA0 || n == 0x1680 || (0x2000 <= n <= 0x200A)
    || n == 0x2028 || n == 0x2029 || n == 0x202F || n == 0x205F || n == 0x3000 || n == 0xFEFF
  }

  /** Every character of `s` is white space (vacuously true of ""). */
  predicate AllWhitespace(s: string) {
    forall i | 0 <= i < |s| :: IsWhitespace(s[i])
  }

  /** No character of `s` is white space. */
  predicate NoWhitespace(s: string) {
    forall i | 0 <= i < |s| :: !IsWhitespace(s[i])
  }

  /** `s` with its leading white space removed. */
  function TrimStart(s: string): (r: string)
    ensures r == "" <==> AllWhitespace(s)
    ensures r != "" ==> !IsWhitespace(r[0])
  {
    if |s| > 0 && IsWhitespace(s[0]) then TrimStart(s[1..]) else s
  }

  /** `s` with its trailing white space removed. */
  function TrimEnd(s: string): (r: string)
    ensures r == "" <==> AllWhitespace(s)
    ensures |r| <= |s| && (r != "" ==> r[0] == s[0])
  {
    if |s| > 0 && IsWhitespace(s[|s| - 1]) then TrimEnd(s[..|s| - 1]) else s
  }

  /** JavaScript's `s.trim()`. A string is falsy exactly when it is "", so
      `!s.trim()` holds exactly when `Trim(s) == ""`. */
  function Trim(s: string): (r: string)
    ensures r == "" <==> AllWhitespace(s)
  {
    TrimEnd(TrimStart(s))
  }

  /** An optional string prop as a value: `undefined` behaves like "" under
      `||` and in a truth test. */
  function PropText(o: Option<string>): string {
    o.GetOr("")
  }

  /** `a || b` on strings: `a` unless it is falsy, which only "" is. */
  function Or(a: string, b: string): (r: string)
    ensures r == a || r == b
    ensures a != "" ==> r == a
    ensures r == "" <==> a == "" && b == ""
  {
    if a != "" then a else b
  }
}
