/** ASCII lower-casing and substring search, standing in for JavaScript's
    `toLowerCase` and `String.prototype.includes`. */
module Text {

  function LowerChar(c: char): (r: char)
    ensures 'A' <= c <= 'Z' ==> r as int == c as int + 32
    ensures !('A' <= c <= 'Z') ==> r == c
    ensures !('A' <= r <= 'Z')
  {
    if 'A' <= c <= 'Z' then (c as int + 32) as char else c
  }

  function Lower(s: string): (r: string)
    ensures |r| == |s|
    ensures forall i :: 0 <= i < |s| ==> r[i] == LowerChar(s[i])
  {
    if s == [] then [] else [LowerChar(s[0])] + Lower(s[1..])
  }

  /** Lower-casing twice is lower-casing once. */
  lemma LowerIdempotent(s: string)
    ensures Lower(Lower(s)) == Lower(s)
  {
    assert forall i :: 0 <= i < |s| ==> LowerChar(LowerChar(s[i])) == LowerChar(s[i]);
  }

  /** `s.includes(t)`: t occurs in s at some offset (the empty string occurs everywhere). */
  predicate Includes(s: string, t: string)
  {
    exists k: nat | k <= |s| :: OccursAt(s, t, k)
  }

  /** t occurs in s starting at offset k. */
  predicate OccursAt(s: string, t: string, k: nat)
  {
    k + |t| <= |s| && s[k..k + |t|] == t
  }

  /** Case-insensitive `includes`, the shape every search test in the source has:
      `x.toLowerCase().includes(t.toLowerCase())`. */
  predicate IncludesIgnoringCase(s: string, t: string)
  {
    Includes(Lower(s), Lower(t))
  }

  /** Two terms that lower-case alike are found in exactly the same strings. */
  lemma IncludesIgnoringCaseOfTerm(s: string, t1: string, t2: string)
    requires Lower(t1) == Lower(t2)
    ensures IncludesIgnoringCase(s, t1) == IncludesIgnoringCase(s, t2)
  {
  }

}
