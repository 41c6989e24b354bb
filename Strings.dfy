/**
 * The two pieces of Swift's `String` API that the icon fallback relies on,
 * restricted to the ASCII characters every display name is written in:
 * `lowercased()` and `replacing(_:with:)` with one-character patterns.
 */
module Strings {

  predicate IsUpper(c: char) {
    'A' <= c <= 'Z'
  }

  /** ASCII lowercasing of one character: a capital becomes its own small letter, every other character is kept. */
  function LowerChar(c: char): (r: char)
    ensures !IsUpper(r)
    ensures IsUpper(c) ==> 'a' <= r <= 'z'
    ensures IsUpper(c) ==> r as int - 'a' as int == c as int - 'A' as int
    ensures !IsUpper(c) ==> r == c
  {
    if IsUpper(c) then (c as int - 'A' as int + 'a' as int) as char else c
  }

  /** `s.lowercased()` on ASCII text: each character lowered on its own, so the length is kept. */
  function Lower(s: string): (r: string)
    ensures |r| == |s|
  {
    seq(|s|, i requires 0 <= i < |s| => LowerChar(s[i]))
  }

  /**
   * `s.replacing(p, with: q)` where the pattern `p` and the replacement `q`
   * are one character each: every occurrence of `p` becomes `q`, every other
   * character stays where it is, and replacing a character by itself gives
   * back the input.
   */
  function Replace(s: string, p: char, q: char): (r: string)
    ensures |r| == |s|
    ensures p == q ==> r == s
  {
    seq(|s|, i requires 0 <= i < |s| => if s[i] == p then q else s[i])
  }

  /**
   * Lowercasing leaves no upper-case letter, turns every capital into its own
   * small letter, and keeps every other character (spaces in particular) in place.
   */
  lemma LowerHasNoUpper(s: string)
    ensures forall i :: 0 <= i < |s| ==> !IsUpper(Lower(s)[i])
    ensures forall i :: 0 <= i < |s| && IsUpper(s[i]) ==> 'a' <= Lower(s)[i] <= 'z'
    ensures forall i :: 0 <= i < |s| && IsUpper(s[i]) ==> Lower(s)[i] as int - 'a' as int == s[i] as int - 'A' as int
    ensures forall i :: 0 <= i < |s| && !IsUpper(s[i]) ==> Lower(s)[i] == s[i]
  {
  }

  /** Every occurrence of the pattern becomes the replacement; every other character stays in place. */
  lemma ReplaceAt(s: string, p: char, q: char)
    ensures forall i :: 0 <= i < |s| && s[i] == p ==> Replace(s, p, q)[i] == q
    ensures forall i :: 0 <= i < |s| && s[i] != p ==> Replace(s, p, q)[i] == s[i]
  {
  }
}
