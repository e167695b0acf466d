/**
 Case-insensitive string comparison as `String.equalsIgnoreCase` performs it,
 restricted to the ASCII letters: two strings match when they have the same
 length and each pair of characters matches under `CharsMatch`.
 */
module AsciiCase {

  predicate IsUpper(c: char) { 'A' <= c <= 'Z' }

  predicate IsLower(c: char) { 'a' <= c <= 'z' }

  function ToLower(c: char): char {
    if IsUpper(c) then (c as int + 32) as char else c
  }

  function ToUpper(c: char): char {
    if IsLower(c) then (c as int - 32) as char else c
  }

  /** The per-character test of `String.regionMatches` with `ignoreCase` set:
      equal, or equal after upper-casing, or equal after upper- then lower-casing. */
  predicate CharsMatch(a: char, b: char) {
    || a == b
    || ToUpper(a) == ToUpper(b)
    || ToLower(ToUpper(a)) == ToLower(ToUpper(b))
  }

  /** `a.equalsIgnoreCase(b)` for a non-null `b`. */
  predicate EqualsIgnoreCase(a: string, b: string) {
    |a| == |b| && forall i :: 0 <= i < |a| ==> CharsMatch(a[i], b[i])
  }

  /** Folds every ASCII upper-case letter of `s` to lower case. */
  function Lower(s: string): (r: string)
    ensures |r| == |s|
    ensures forall i :: 0 <= i < |s| ==> r[i] == ToLower(s[i])
  {
    if s == [] then [] else [ToLower(s[0])] + Lower(s[1..])
  }

  /** Two characters match ignoring case exactly when their lower-case folds agree. */
  lemma CharsMatchIffSameFold(a: char, b: char)
    ensures CharsMatch(a, b) <==> ToLower(a) == ToLower(b)
  {
  }

  /** The reference reading of `equalsIgnoreCase`: equality of the case folds. */
  lemma EqualsIgnoreCaseIffSameFold(a: string, b: string)
    ensures EqualsIgnoreCase(a, b) <==> Lower(a) == Lower(b)
  {
    forall i | 0 <= i < |a| && i < |b| {
      CharsMatchIffSameFold(a[i], b[i]);
    }
  }

  /** `equalsIgnoreCase` is an equivalence relation: reflexive, symmetric, transitive. */
  lemma EqualsIgnoreCaseIsEquivalence(a: string, b: string, c: string)
    ensures EqualsIgnoreCase(a, a)
    ensures EqualsIgnoreCase(a, b) ==> EqualsIgnoreCase(b, a)
    ensures EqualsIgnoreCase(a, b) && EqualsIgnoreCase(b, c) ==> EqualsIgnoreCase(a, c)
  {
  }

}
