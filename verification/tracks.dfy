/**
 * The track records a play list refers to. Only the two accessors the play list
 * uses are modelled: the title and the duration in seconds.
 */
module Tracks {

  /** An immutable track; the play list stores references to such objects. */
  class Track {
    const title: string
    const duration: nat

    constructor (title: string, duration: nat)
      ensures this.title == title && this.duration == duration
    {
      this.title := title;
      this.duration := duration;
    }
  }

  /** Lower-cases the ASCII letters 'A'..'Z' and leaves every other character alone. */
  function LowerAscii(c: char): char
  {
    if 'A' <= c <= 'Z' then (c as int - 'A' as int + 'a' as int) as char else c
  }

  /** Case-insensitive equality of two titles, folding ASCII letters only. */
  predicate EqualsIgnoreCase(a: string, b: string)
  {
    |a| == |b| && forall i :: 0 <= i < |a| ==> LowerAscii(a[i]) == LowerAscii(b[i])
  }

  /** Case-insensitive equality is an equivalence relation, so "the first track
      whose title matches" does not depend on which spelling of a title is asked for. */
  lemma EqualsIgnoreCaseEquivalence(a: string, b: string, c: string)
    ensures EqualsIgnoreCase(a, a)
    ensures EqualsIgnoreCase(a, b) ==> EqualsIgnoreCase(b, a)
    ensures EqualsIgnoreCase(a, b) && EqualsIgnoreCase(b, c) ==> EqualsIgnoreCase(a, c)
  {
  }
}
