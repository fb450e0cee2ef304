/** Key/value entries of the dictionaries the overview panels draw from.
    A Python dict is modelled as the sequence of its items in insertion order. */
module Entries {

  /** One `(key, value)` item of a `Dict[str, str]`. */
  datatype Pair = Pair(key: string, value: string)

  /** ASCII lower-casing of one character. */
  function LowerChar(c: char): (d: char)
  {
    if 'A' <= c <= 'Z' then (c as int + 32) as char else c
  }

  /** `s.lower()` restricted to ASCII: upper-case letters become lower-case, all else is kept. */
  function Lower(s: string): (t: string)
    ensures |t| == |s|
    ensures forall i :: 0 <= i < |s| ==> ('A' <= s[i] <= 'Z' ==> t[i] as int == s[i] as int + 32)
    ensures forall i :: 0 <= i < |s| ==> (!('A' <= s[i] <= 'Z') ==> t[i] == s[i])
  {
    seq(|s|, i requires 0 <= i < |s| => LowerChar(s[i]))
  }
}
