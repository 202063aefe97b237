/**
 * The few `kotlin.text` operations the app relies on, restricted to what the
 * model needs: `isBlank`, `lowercase` and `contains` (with and without
 * `ignoreCase`). Case folding is ASCII-only; see README.
 */
module Text {

  /** `Char.isWhitespace` on the JVM: `Character.isWhitespace || Character.isSpaceChar`. */
  predicate IsWhitespace(c: char) {
    || ('\t' <= c <= '\r')
    || ('\U{1C}' <= c <= '\U{1F}')
    || c == ' '
    || c == '\U{A0}'
    || c == '\U{1680}'
    || ('\U{2000}' <= c <= '\U{200A}')
    || c == '\U{2028}'
    || c == '\U{2029}'
    || c == '\U{202F}'
    || c == '\U{205F}'
    || c == '\U{3000}'
  }

  /** `CharSequence.isBlank`: empty, or whitespace only. */
  predicate IsBlank(s: string): (b: bool)
    ensures b <==> forall c | c in s :: IsWhitespace(c)
    ensures s == [] ==> b
  {
    forall i | 0 <= i < |s| :: IsWhitespace(s[i])
  }

  /** ASCII lower-casing of one character. */
  function ToLower(c: char): char {
    if 'A' <= c <= 'Z' then (c as int + 32) as char else c
  }

  /** `String.lowercase()`, ASCII letters only. */
  function Lower(s: string): (r: string)
    ensures |r| == |s|
    ensures forall i | 0 <= i < |s| :: r[i] == ToLower(s[i])
    ensures forall c | c in r :: !('A' <= c <= 'Z')
    ensures forall i | 0 <= i < |s| :: !('A' <= s[i] <= 'Z') ==> r[i] == s[i]
  {
    seq(|s|, i requires 0 <= i < |s| => ToLower(s[i]))
  }

  /** `Char.equals(other, ignoreCase)`. */
  predicate CharEquals(a: char, b: char, ignoreCase: bool) {
    a == b || (ignoreCase && ToLower(a) == ToLower(b))
  }

  /** The pattern occurs in the text starting at position `i`. */
  predicate MatchesAt(text: string, pattern: string, i: nat, ignoreCase: bool)
    requires i + |pattern| <= |text|
  {
    forall k | 0 <= k < |pattern| :: CharEquals(text[i + k], pattern[k], ignoreCase)
  }

  /** Is there an occurrence of the pattern at some position `start` or later? */
  function ContainsFrom(text: string, pattern: string, ignoreCase: bool, start: nat): (r: bool)
    decreases |text| - start
    ensures r <==> exists i: nat :: start <= i && i + |pattern| <= |text| && MatchesAt(text, pattern, i, ignoreCase)
  {
    if start + |pattern| > |text| then false
    else if MatchesAt(text, pattern, start, ignoreCase) then true
    else ContainsFrom(text, pattern, ignoreCase, start + 1)
  }

  /** `CharSequence.contains(other, ignoreCase)`. */
  function Contains(text: string, pattern: string, ignoreCase: bool): (r: bool)
    ensures r <==> exists i: nat :: i + |pattern| <= |text| && MatchesAt(text, pattern, i, ignoreCase)
  {
    ContainsFrom(text, pattern, ignoreCase, 0)
  }

  /** Every text contains the empty string, with or without case folding. */
  lemma ContainsEmpty(text: string, ignoreCase: bool)
    ensures Contains(text, "", ignoreCase)
  {
  }

  /**
   * For a pattern that is already lower case, searching the lower-cased text
   * is the same as a case-insensitive search of the text itself.
   */
  lemma ContainsLowered(text: string, pattern: string)
    requires Lower(pattern) == pattern
    ensures Contains(Lower(text), pattern, false) == Contains(text, pattern, true)
  {
    var low := Lower(text);
    forall i: nat | i + |pattern| <= |text|
      ensures MatchesAt(low, pattern, i, false) <==> MatchesAt(text, pattern, i, true)
    {
      forall k | 0 <= k < |pattern|
        ensures CharEquals(low[i + k], pattern[k], false) <==> CharEquals(text[i + k], pattern[k], true)
      {
        assert ToLower(pattern[k]) == pattern[k] by { assert Lower(pattern)[k] == pattern[k]; }
      }
    }
  }
}
