/** Lowercasing of the suspicion level, restricted to ASCII letters. */
module AsciiCase {

  predicate IsUpper(c: char) {
    'A' <= c <= 'Z'
  }

  /** The lower-case form of one character: an ASCII capital becomes the small
      letter at the same place in the alphabet, every other character is kept. */
  function LowerChar(c: char): (d: char)
    ensures !IsUpper(d)
    ensures !IsUpper(c) ==> d == c
    ensures IsUpper(c) ==> 'a' <= d <= 'z' && d as int - 'a' as int == c as int - 'A' as int
  {
    if IsUpper(c) then (c as int - 'A' as int + 'a' as int) as char else c
  }

  /** The lower-case form of a string, character by character. */
  function Lower(s: string): (r: string)
    ensures |r| == |s|
    ensures forall i :: 0 <= i < |s| ==> r[i] == LowerChar(s[i])
  {
    if s == [] then [] else [LowerChar(s[0])] + Lower(s[1..])
  }

  predicate IsLetter(c: char) {
    'a' <= c <= 'z' || IsUpper(c)
  }

  /** Position of an ASCII letter in the alphabet, 0 for 'a' and 'A'. */
  function AlphabetIndex(c: char): int
    requires IsLetter(c)
  {
    if IsUpper(c) then c as int - 'A' as int else c as int - 'a' as int
  }

  /** Two strings that differ at most in the case of ASCII letters: at each
      position the characters are equal, or both are letters at the same
      place in the alphabet. */
  predicate EqualIgnoringCase(a: string, b: string) {
    && |a| == |b|
    && forall i :: 0 <= i < |a| ==>
         a[i] == b[i] || (IsLetter(a[i]) && IsLetter(b[i]) && AlphabetIndex(a[i]) == AlphabetIndex(b[i]))
  }

  /** A string with no ASCII capital is its own lower-case form. */
  lemma LowerFixesLowercase(s: string)
    requires forall i :: 0 <= i < |s| ==> !IsUpper(s[i])
    ensures Lower(s) == s
  {
  }

  /** Lowercasing twice is lowercasing once. */
  lemma LowerIdempotent(s: string)
    ensures Lower(Lower(s)) == Lower(s)
  {
  }

  /** Two characters have the same lower-case form exactly when they are equal
      or are letters at the same place in the alphabet. */
  lemma LowerCharEqualIff(c: char, d: char)
    ensures LowerChar(c) == LowerChar(d)
        <==> c == d || (IsLetter(c) && IsLetter(d) && AlphabetIndex(c) == AlphabetIndex(d))
  {
  }

  /** Two strings have the same lower-case form exactly when they are equal up to case. */
  lemma LowerEqualIff(a: string, b: string)
    ensures Lower(a) == Lower(b) <==> EqualIgnoringCase(a, b)
  {
    if |a| == |b| {
      forall i | 0 <= i < |a|
        ensures Lower(a)[i] == Lower(b)[i]
            <==> a[i] == b[i] || (IsLetter(a[i]) && IsLetter(b[i]) && AlphabetIndex(a[i]) == AlphabetIndex(b[i]))
      {
        LowerCharEqualIff(a[i], b[i]);
      }
      if EqualIgnoringCase(a, b) {
        assert forall i :: 0 <= i < |a| ==> Lower(a)[i] == Lower(b)[i];
      }
    }
  }
}
