/**
 * The character classes and the length measure that the sign-up page's two
 * regular expressions rely on, as JavaScript defines them.
 *
 * A JavaScript string is a sequence of UTF-16 code units; here a string is a
 * sequence of Unicode scalar values (Dafny's `char`).  A regular expression
 * without the `u` flag matches code units, so a character outside the Basic
 * Multilingual Plane is two code units to it: `Utf16Length` counts them.
 */
module JsText {

  /** ECMAScript LineTerminator: LF, CR, LINE SEPARATOR, PARAGRAPH SEPARATOR.
      These are exactly the code units that `.` does not match without the `s` flag. */
  predicate IsLineTerminator(c: char) {
    c == '\n' || c == '\r' || c == '\U{2028}' || c == '\U{2029}'
  }

  /** The class `\s`: ECMAScript WhiteSpace and LineTerminator.  WhiteSpace
      includes every code point of the Unicode category Zs; this model fixes
      that category at its members as of Unicode 15 (U+0020, U+00A0, U+1680,
      U+2000 to U+200A, U+202F, U+205F, U+3000). */
  predicate IsWhitespace(c: char) {
    || IsLineTerminator(c)
    || c == '\t' || c == '\U{000B}' || c == '\U{000C}' || c == '\U{FEFF}'
    || c == ' ' || c == '\U{00A0}' || c == '\U{1680}'
    || ('\U{2000}' <= c <= '\U{200A}')
    || c == '\U{202F}' || c == '\U{205F}' || c == '\U{3000}'
  }

  /** The class `[A-Za-z]`. */
  predicate IsAsciiLetter(c: char) {
    ('A' <= c <= 'Z') || ('a' <= c <= 'z')
  }

  /** Whether c is encoded as a single UTF-16 code unit. */
  predicate InBasicPlane(c: char) {
    c < '\U{10000}'
  }

  /** The number of UTF-16 code units of s: JavaScript's `length`, and the
      number of times `.` must match to consume s. */
  function Utf16Length(s: string): (n: nat)
    ensures |s| <= n <= 2 * |s|
    ensures n == |s| <==> forall i :: 0 <= i < |s| ==> InBasicPlane(s[i])
  {
    if s == [] then 0
    else (if InBasicPlane(s[0]) then 1 else 2) + Utf16Length(s[1..])
  }
}
