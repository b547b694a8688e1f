/**
 * The character predicates and case mappings the keyboard relies on:
 * Kotlin's `Char.isLetter()`, `Char.isWhitespace()`, `String.uppercase()`
 * and `String.lowercase()`, restricted to the alphabet this keyboard shows.
 *
 * Letters are the ASCII Latin letters and the CJK Unified Ideographs block
 * (U+4E00..U+9FFF), which holds every radical printed on the layout's keys.
 * Case mapping changes only ASCII letters; ideographs have no case.
 */
module Chars {

  predicate IsUpper(c: char) { 'A' <= c <= 'Z' }

  predicate IsLower(c: char) { 'a' <= c <= 'z' }

  predicate IsIdeograph(c: char) { '\U{4E00}' <= c <= '\U{9FFF}' }

  predicate IsLetter(c: char) { IsUpper(c) || IsLower(c) || IsIdeograph(c) }

  /**
   * Kotlin's `Char.isWhitespace()`: Java's white space (the controls U+0009..U+000D
   * and U+001C..U+001F) together with every space, line or paragraph separator
   * of Unicode (categories Zs, Zl and Zp, as they stand since Unicode 6.3),
   * the no-break spaces included.
   */
  predicate IsWhitespace(c: char) {
    || ('\t' <= c <= '\r')
    || ('\U{001C}' <= c <= ' ')
    || c == '\U{00A0}' || c == '\U{1680}'
    || ('\U{2000}' <= c <= '\U{200A}')
    || c == '\U{2028}' || c == '\U{2029}' || c == '\U{202F}' || c == '\U{205F}'
    || c == '\U{3000}'
  }

  /** A character of the Basic Multilingual Plane, which UTF-16 stores in one code unit. */
  predicate InBmp(c: char) { c as int < 0x1_0000 }

  /**
   * Kotlin's `String.length`: the number of UTF-16 code units, where a
   * character outside the Basic Multilingual Plane takes two (a surrogate pair).
   * A string is one unit long exactly when it is one BMP character.
   */
  function Utf16Length(s: string): (r: nat)
    ensures |s| <= r <= 2 * |s|
    ensures r == 1 <==> |s| == 1 && InBmp(s[0])
    ensures r <= 1 <==> s == [] || (|s| == 1 && InBmp(s[0]))
  {
    if s == [] then 0 else (if InBmp(s[0]) then 1 else 2) + Utf16Length(s[1..])
  }

  function UpperChar(c: char): (r: char)
    ensures !IsLower(r)
    ensures IsLetter(r) <==> IsLetter(c)
    ensures IsLower(c) ==> IsUpper(r) && r as int + 32 == c as int
    ensures !IsLower(c) ==> r == c
  {
    if IsLower(c) then (c as int - 32) as char else c
  }

  function LowerChar(c: char): (r: char)
    ensures !IsUpper(r)
    ensures IsLetter(r) <==> IsLetter(c)
    ensures IsUpper(c) ==> IsLower(r) && r as int == c as int + 32
    ensures !IsUpper(c) ==> r == c
  {
    if IsUpper(c) then (c as int + 32) as char else c
  }

  /** Two characters that differ at most in case. */
  predicate SameLetterIgnoringCase(a: char, b: char) {
    LowerChar(a) == LowerChar(b)
  }

  /** `String.uppercase()`: no lower-case letter is left, and each character keeps its letter. */
  function Uppercase(s: string): (r: string)
    ensures |r| == |s|
    ensures forall i :: 0 <= i < |r| ==> !IsLower(r[i]) && SameLetterIgnoringCase(r[i], s[i])
  {
    seq(|s|, i requires 0 <= i < |s| => UpperChar(s[i]))
  }

  /** `String.lowercase()`: no upper-case letter is left, and each character keeps its letter. */
  function Lowercase(s: string): (r: string)
    ensures |r| == |s|
    ensures forall i :: 0 <= i < |r| ==> !IsUpper(r[i]) && SameLetterIgnoringCase(r[i], s[i])
  {
    seq(|s|, i requires 0 <= i < |s| => LowerChar(s[i]))
  }

  /** Case mapping is idempotent, and the later of two mappings wins. */
  lemma CaseMappingAbsorbs(s: string)
    ensures Uppercase(Uppercase(s)) == Uppercase(s) && Lowercase(Lowercase(s)) == Lowercase(s)
    ensures Uppercase(Lowercase(s)) == Uppercase(s) && Lowercase(Uppercase(s)) == Lowercase(s)
  {
  }

  /** A string without lower-case letters is its own upper-case form (and dually). */
  lemma CaseMappingFixedPoints(s: string)
    ensures (forall i :: 0 <= i < |s| ==> !IsLower(s[i])) <==> Uppercase(s) == s
    ensures (forall i :: 0 <= i < |s| ==> !IsUpper(s[i])) <==> Lowercase(s) == s
  {
    if Uppercase(s) == s {
      forall i | 0 <= i < |s| ensures !IsLower(s[i]) { assert s[i] == Uppercase(s)[i]; }
    }
    if Lowercase(s) == s {
      forall i | 0 <= i < |s| ensures !IsUpper(s[i]) { assert s[i] == Lowercase(s)[i]; }
    }
  }
}
