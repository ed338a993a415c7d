/** ASCII character classes and string helpers shared by the text-metrics core.
    Python's Unicode-aware `str.lower`, `str.isalnum` and `str.endswith` are
    modelled on the ASCII range only. */
module Chars {

  /** Membership in the vowel string "aeiou" (lower-case only). */
  predicate IsVowel(c: char)
    ensures IsVowel(c) <==> c in "aeiou"
  {
    c == 'a' || c == 'e' || c == 'i' || c == 'o' || c == 'u'
  }

  /** ASCII letters and digits: what `isalnum` accepts on ASCII text. */
  predicate IsAlnumChar(c: char) {
    ('a' <= c <= 'z') || ('A' <= c <= 'Z') || ('0' <= c <= '9')
  }

  /** `str.isalnum`: true for a non-empty string made only of letters and
      digits; in particular the empty string and any string holding a
      space or a full stop are rejected. */
  predicate IsAlnum(s: string)
    ensures IsAlnum(s) ==> |s| > 0
    ensures IsAlnum(s) ==> forall i :: 0 <= i < |s| ==> s[i] != ' ' && s[i] != '.'
  {
    |s| > 0 && forall i :: 0 <= i < |s| ==> IsAlnumChar(s[i])
  }

  /** ASCII lower-casing of one character. */
  function LowerChar(c: char): (r: char)
    ensures 'A' <= c <= 'Z' ==> 'a' <= r <= 'z' && r as int - c as int == 32
    ensures !('A' <= c <= 'Z') ==> r == c
  {
    if 'A' <= c <= 'Z' then (c as int + 32) as char else c
  }

  /** `str.lower` on ASCII text. */
  function Lower(s: string): (r: string)
    ensures |r| == |s|
    ensures forall i :: 0 <= i < |s| ==> r[i] == LowerChar(s[i])
  {
    seq(|s|, i requires 0 <= i < |s| => LowerChar(s[i]))
  }

  /** `str.endswith` for one suffix. */
  predicate EndsWith(s: string, suffix: string)
    ensures EndsWith(s, suffix) <==>
              |suffix| <= |s| && forall i :: 0 <= i < |suffix| ==> s[|s| - |suffix| + i] == suffix[i]
  {
    |suffix| <= |s| && s[|s| - |suffix|..] == suffix
  }
}
