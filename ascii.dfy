/** ASCII case mapping, the part of String.toUpperCase that command matching relies on. */
module Ascii {

  /** Lower-case ASCII letter. */
  predicate IsLower(c: char) {
    'a' <= c <= 'z'
  }

  /** Upper-cases one ASCII letter; every other character is returned unchanged. */
  function UpperChar(c: char): (u: char)
    ensures IsLower(c) ==> u as int == c as int - 32
    ensures !IsLower(c) ==> u == c
    ensures !IsLower(u)
  {
    if IsLower(c) then (c as int - 32) as char else c
  }

  /** Upper-cases a whole line, character by character. */
  function ToUpper(s: string): (u: string)
    ensures |u| == |s|
    ensures forall i :: 0 <= i < |s| ==> u[i] == UpperChar(s[i])
  {
    if s == [] then [] else [UpperChar(s[0])] + ToUpper(s[1..])
  }

  /** A line with no lower-case letter is its own upper-case form (every keyword is one). */
  predicate NoLower(s: string) {
    forall i :: 0 <= i < |s| ==> !IsLower(s[i])
  }

  /** An upper-case word: every character is one of 'A'..'Z'. */
  predicate IsUpperWord(w: string) {
    forall i :: 0 <= i < |w| ==> 'A' <= w[i] <= 'Z'
  }

  lemma UpperOfNoLower(s: string)
    requires NoLower(s)
    ensures ToUpper(s) == s
  {
  }

  lemma UpperIsNoLower(s: string)
    ensures NoLower(ToUpper(s))
  {
  }

  /** Upper-casing twice changes nothing more than upper-casing once. */
  lemma UpperIdempotent(s: string)
    ensures ToUpper(ToUpper(s)) == ToUpper(s)
  {
    UpperIsNoLower(s);
    UpperOfNoLower(ToUpper(s));
  }

  /**
   * Case-insensitive whole-line match: a line upper-cases to the keyword `kw`
   * exactly when it has the keyword's length and each character is the
   * keyword's letter in either case.
   */
  lemma {:induction false} MatchesIgnoringCase(line: string, kw: string)
    requires IsUpperWord(kw)
    ensures ToUpper(line) == kw <==>
      |line| == |kw| &&
      forall i :: 0 <= i < |kw| ==> line[i] == kw[i] || line[i] as int == kw[i] as int + 32
  {
    if ToUpper(line) == kw {
      forall i | 0 <= i < |kw|
        ensures line[i] == kw[i] || line[i] as int == kw[i] as int + 32
      {
        assert UpperChar(line[i]) == kw[i];
      }
    }
    if |line| == |kw| && forall i :: 0 <= i < |kw| ==> line[i] == kw[i] || line[i] as int == kw[i] as int + 32 {
      forall i | 0 <= i < |kw|
        ensures ToUpper(line)[i] == kw[i]
      {
        assert UpperChar(line[i]) == kw[i];
      }
    }
  }
}
