/**
  Case-insensitive string comparison as Java's `String.equalsIgnoreCase`
  performs it on Android. Kotlin's `String.equals(other, ignoreCase = true)`
  delegates to it: the two strings have the same length and, position by
  position, the characters are equal, or their upper-case
  forms are equal, or the lower-case forms of their upper-case forms are equal.

  The case table below is the part of Unicode's simple case mapping that
  reaches an ASCII letter: the 26 ASCII pairs, plus dotless i (U+0131) and
  long s (U+017F), whose upper-case forms are `I` and `S`, and the dotted
  capital I (U+0130) and Kelvin sign (U+212A), whose lower-case forms are
  `i` and `k`. Every other character is treated as having no case partner.
*/
module CaseFold {

  predicate IsAsciiUpper(c: char) { 'A' <= c <= 'Z' }

  predicate IsAsciiLower(c: char) { 'a' <= c <= 'z' }

  /** `Character.toUpperCase` restricted to the case table above. */
  function ToUpper(c: char): char {
    if IsAsciiLower(c) then (c as int - 32) as char
    else if c == '\U{0131}' then 'I'
    else if c == '\U{017F}' then 'S'
    else c
  }

  /** `Character.toLowerCase` restricted to the case table above. */
  function ToLower(c: char): char {
    if IsAsciiUpper(c) then (c as int + 32) as char
    else if c == '\U{0130}' then 'i'
    else if c == '\U{212A}' then 'k'
    else c
  }

  /** The per-character test of `String.regionMatches(ignoreCase = true, ...)`. */
  predicate CharsMatch(c1: char, c2: char) {
    || c1 == c2
    || ToUpper(c1) == ToUpper(c2)
    || ToLower(ToUpper(c1)) == ToLower(ToUpper(c2))
  }

  /** `a.equals(b, ignoreCase = true)`: the lengths agree, then
      `regionMatches` compares the strings position by position. */
  predicate EqualsIgnoreCase(a: string, b: string) {
    && |a| == |b|
    && (|a| == 0 || (CharsMatch(a[0], b[0]) && EqualsIgnoreCase(a[1..], b[1..])))
  }

  /** The canonical case of a character: lower case of its upper case. */
  function Fold(c: char): char {
    ToLower(ToUpper(c))
  }

  /** On ASCII letters the two case mappings are inverse to each other. */
  lemma AsciiCaseRoundTrip(c: char)
    ensures IsAsciiUpper(c) ==> IsAsciiLower(ToLower(c)) && ToUpper(ToLower(c)) == c
    ensures IsAsciiLower(c) ==> IsAsciiUpper(ToUpper(c)) && ToLower(ToUpper(c)) == c
  {
  }

  /** Two characters match exactly when they have the same canonical case. */
  lemma CharsMatchIsSameFold(c1: char, c2: char)
    ensures CharsMatch(c1, c2) <==> Fold(c1) == Fold(c2)
  {
  }

  /** The position-by-position comparison checks every position. */
  lemma {:induction false} EqualsIgnoreCaseIsPointwise(a: string, b: string)
    ensures EqualsIgnoreCase(a, b) <==> |a| == |b| && forall i :: 0 <= i < |a| ==> CharsMatch(a[i], b[i])
  {
    if |a| == |b| && |a| > 0 {
      EqualsIgnoreCaseIsPointwise(a[1..], b[1..]);
      assert forall i :: 0 < i < |a| ==> a[i] == a[1..][i - 1] && b[i] == b[1..][i - 1];
    }
  }

  lemma EqualsIgnoreCaseReflexive(a: string)
    ensures EqualsIgnoreCase(a, a)
  {
  }

  lemma EqualsIgnoreCaseSymmetric(a: string, b: string)
    requires EqualsIgnoreCase(a, b)
    ensures EqualsIgnoreCase(b, a)
  {
  }

  lemma EqualsIgnoreCaseTransitive(a: string, b: string, c: string)
    requires EqualsIgnoreCase(a, b) && EqualsIgnoreCase(b, c)
    ensures EqualsIgnoreCase(a, c)
  {
  }

  /** The characters that match an ASCII upper-case letter `u` are `u`
      itself, its lower-case form, and the non-ASCII characters of the table
      whose case mapping reaches it. */
  lemma MatchesOfAsciiUpper(c: char, u: char)
    requires IsAsciiUpper(u)
    ensures CharsMatch(c, u) <==>
      || c == u
      || c as int == u as int + 32
      || (u == 'I' && (c == '\U{0130}' || c == '\U{0131}'))
      || (u == 'S' && c == '\U{017F}')
      || (u == 'K' && c == '\U{212A}')
  {
  }

  /** The ASCII lower-case spelling of a string. */
  function AsciiLowercase(s: string): string {
    seq(|s|, i requires 0 <= i < |s| => if IsAsciiUpper(s[i]) then ToLower(s[i]) else s[i])
  }

  /** Lower-casing an already lower-cased string changes nothing, and it
      leaves no ASCII capital behind. */
  lemma AsciiLowercaseIdempotent(s: string)
    ensures AsciiLowercase(AsciiLowercase(s)) == AsciiLowercase(s)
    ensures forall i :: 0 <= i < |s| ==> !IsAsciiUpper(AsciiLowercase(s)[i])
  {
  }

  /** A string and its lower-case spelling match ignoring case. */
  lemma LowercaseMatches(s: string)
    ensures EqualsIgnoreCase(AsciiLowercase(s), s)
  {
    EqualsIgnoreCaseIsPointwise(AsciiLowercase(s), s);
  }
}
