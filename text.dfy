/**
 Lower-casing of configuration strings (Python's `str.lower`) and the set of
 spellings that lower-case to a given lower-case word.
 */
module Text {

  predicate IsUpperLetter(c: char) { 'A' <= c <= 'Z' }

  predicate IsLowerLetter(c: char) { 'a' <= c <= 'z' }

  /** A word made of the letters a to z only, such as "openai". */
  predicate IsLowerWord(w: string) {
    forall i :: 0 <= i < |w| ==> IsLowerLetter(w[i])
  }

  function LowerChar(c: char): char {
    if IsUpperLetter(c) then (c as int + 32) as char else c
  }

  function UpperChar(c: char): char {
    if IsLowerLetter(c) then (c as int - 32) as char else c
  }

  /** `s.lower()`: every letter A to Z replaced by its lower-case form, every
      other character kept, the length unchanged. */
  function Lower(s: string): (r: string)
    ensures |r| == |s|
    ensures forall i :: 0 <= i < |s| ==> r[i] == LowerChar(s[i])
  {
    if s == [] then [] else [LowerChar(s[0])] + Lower(s[1..])
  }

  /** `s` spells the lower-case word `w` with any of its letters in upper case. */
  predicate CaseVariant(s: string, w: string) {
    |s| == |w| && forall i :: 0 <= i < |s| ==> s[i] == w[i] || s[i] == UpperChar(w[i])
  }

  lemma LowerCharTo(c: char, d: char)
    requires IsLowerLetter(d)
    ensures LowerChar(c) == d <==> c == d || c == UpperChar(d)
  {
  }

  /** Lower-casing gives the lower-case word `w` exactly for the spellings of
      `w` that differ from it in the case of some letters. */
  lemma LowerIsIff(s: string, w: string)
    requires IsLowerWord(w)
    ensures Lower(s) == w <==> CaseVariant(s, w)
  {
    if Lower(s) == w {
      forall i | 0 <= i < |s| ensures s[i] == w[i] || s[i] == UpperChar(w[i]) {
        LowerCharTo(s[i], w[i]);
      }
    }
    if CaseVariant(s, w) {
      forall i | 0 <= i < |s| ensures Lower(s)[i] == w[i] {
        LowerCharTo(s[i], w[i]);
      }
    }
  }
}
