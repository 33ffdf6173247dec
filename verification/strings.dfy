/** Prefix tests and substring search on strings, as the regex and the header rewriting use them. */
module Strings {
  import opened Wrappers

  predicate StartsWith(s: string, prefix: string) {
    |prefix| <= |s| && s[..|prefix|] == prefix
  }

  /** True when `pat` occurs in `s` starting at index `i`. */
  predicate OccursAt(s: string, pat: string, i: nat) {
    i + |pat| <= |s| && s[i..i + |pat|] == pat
  }

  predicate NoNewline(s: string) {
    forall i | 0 <= i < |s| :: s[i] != '\n'
  }

  /** The bytes `HeaderValue::to_str` accepts: horizontal tab and printable ASCII. */
  predicate VisibleAscii(s: string) {
    forall i | 0 <= i < |s| :: s[i] == '\t' || (' ' <= s[i] && s[i] <= '~')
  }

  /** The leftmost occurrence of `pat` in `s` at or after index `from`. */
  function FirstOccurrence(s: string, pat: string, from: nat): (r: Option<nat>)
    ensures r.Some? ==> from <= r.value && OccursAt(s, pat, r.value)
    ensures r.Some? ==> forall i: nat | from <= i < r.value :: !OccursAt(s, pat, i)
    ensures r.None? ==> forall i: nat | from <= i :: !OccursAt(s, pat, i)
    decreases |s| - from
  {
    if |s| < from + |pat| then None
    else if OccursAt(s, pat, from) then Some(from)
    else FirstOccurrence(s, pat, from + 1)
  }

  /** The rightmost occurrence of `pat` in `s` that starts before index `bound`. */
  function LastOccurrence(s: string, pat: string, bound: nat): (r: Option<nat>)
    ensures r.Some? ==> r.value < bound && OccursAt(s, pat, r.value)
    ensures r.Some? ==> forall i: nat | r.value < i < bound :: !OccursAt(s, pat, i)
    ensures r.None? ==> forall i: nat | i < bound :: !OccursAt(s, pat, i)
  {
    if bound == 0 then None
    else if OccursAt(s, pat, bound - 1) then Some(bound - 1)
    else LastOccurrence(s, pat, bound - 1)
  }

  /** The rightmost occurrence of `pat` anywhere in `s`. */
  function LastOccurrenceIn(s: string, pat: string): (r: Option<nat>)
    ensures r.Some? ==> OccursAt(s, pat, r.value)
    ensures r.Some? ==> forall i: nat | r.value < i :: !OccursAt(s, pat, i)
    ensures r.None? ==> forall i: nat :: !OccursAt(s, pat, i)
  {
    LastOccurrence(s, pat, |s| + 1)
  }

  /** An occurrence in the right operand of a concatenation is an occurrence in the whole, shifted. */
  lemma OccursAtShift(a: string, b: string, pat: string, t: nat)
    ensures OccursAt(a + b, pat, |a| + t) <==> OccursAt(b, pat, t)
  {
  }

  lemma NoNewlineConcat(a: string, b: string)
    requires NoNewline(a) && NoNewline(b)
    ensures NoNewline(a + b)
  {
  }
}
