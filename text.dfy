/**
 * Lower-casing of event names, as Go's strings.ToLower does it for the
 * characters that matter to the classifier.
 */
module Text {

  /** Characters that this model's lower-casing leaves alone (not only lower-case letters). */
  predicate LowerFixed(c: char)
  {
    !('A' <= c <= 'Z') && c != '\U{0130}' && c != '\U{212A}'
  }

  /**
   * The lower case of one character. A-Z map to a-z; U+0130 (capital I with
   * dot above) maps to 'i' and U+212A (Kelvin sign) to 'k', as in Go's
   * simple case mapping: these are the only characters whose Go lower case
   * is an ASCII letter. Every other character is left as it is, where Go
   * would lower-case other scripts too.
   */
  function LowerChar(c: char): (r: char)
    ensures LowerFixed(r)
    ensures LowerFixed(c) ==> r == c
    ensures 'A' <= c <= 'Z' ==> r as int == c as int + 32
    ensures c == '\U{0130}' ==> r == 'i'
    ensures c == '\U{212A}' ==> r == 'k'
  {
    if 'A' <= c <= 'Z' then (c as int + 32) as char
    else if c == '\U{0130}' then 'i'
    else if c == '\U{212A}' then 'k'
    else c
  }

  /** Go's strings.ToLower: the string with every character lower-cased. */
  function ToLower(s: string): (r: string)
    ensures |r| == |s|
    ensures forall i :: 0 <= i < |s| ==> r[i] == LowerChar(s[i])
  {
    if s == [] then [] else [LowerChar(s[0])] + ToLower(s[1..])
  }

  /** Lower-casing is idempotent. */
  lemma ToLowerIdempotent(s: string)
    ensures ToLower(ToLower(s)) == ToLower(s)
  {
    ToLowerOfLower(ToLower(s));
  }

  /** A string with no upper-case letter in it is its own lower case. */
  lemma ToLowerOfLower(s: string)
    requires forall i :: 0 <= i < |s| ==> LowerFixed(s[i])
    ensures ToLower(s) == s
  {
  }
}
