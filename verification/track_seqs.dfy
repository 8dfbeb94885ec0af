/**
 * Specification functions over the abstract contents of a play list, the
 * sequence of tracks in slots [0, size), and the lemmas about them. The
 * methods of PlayLists.PlayList are proved against these functions.
 */
module TrackSeqs {
  import opened Tracks

  /** Sum of the durations of the tracks in s. */
  function SumDurations(s: seq<Track>): (total: int)
    ensures total >= 0
    ensures s == [] ==> total == 0
  {
    if s == [] then 0 else SumDurations(s[..|s| - 1]) + s[|s| - 1].duration
  }

  /** The least index whose track has the given title, ignoring case, or -1 if none has it. */
  function TitleIndex(s: seq<Track>, title: string): (r: int)
    ensures -1 <= r < |s|
    ensures r == -1 <==> forall j :: 0 <= j < |s| ==> !EqualsIgnoreCase(title, s[j].title)
    ensures 0 <= r ==> EqualsIgnoreCase(title, s[r].title)
    ensures forall j :: 0 <= j < r ==> !EqualsIgnoreCase(title, s[j].title)
  {
    if s == [] then -1
    else if EqualsIgnoreCase(title, s[0].title) then 0
    else
      var k := TitleIndex(s[1..], title);
      if k == -1 then -1 else k + 1
  }

  /**
   * The index of the shortest track among positions [start, |s|), the earliest one
   * when several are equally short, or -1 when start is not a position of s.
   */
  function ShortestIndexFrom(s: seq<Track>, start: int): (m: int)
    ensures start < 0 || |s| <= start ==> m == -1
    ensures 0 <= start < |s| ==> start <= m < |s|
    ensures 0 <= start < |s| ==> forall j :: start <= j < |s| ==> s[m].duration <= s[j].duration
    ensures 0 <= start < |s| ==> forall j :: start <= j < m ==> s[m].duration < s[j].duration
    decreases |s| - start
  {
    if start < 0 || |s| <= start then -1
    else if start == |s| - 1 then start
    else
      var m := ShortestIndexFrom(s, start + 1);
      if s[m].duration < s[start].duration then m else start
  }

  /** s with t placed at position i and the tracks from i on moved one place right. */
  function Inserted(s: seq<Track>, i: nat, t: Track): (r: seq<Track>)
    requires i <= |s|
    ensures |r| == |s| + 1 && r[i] == t
    ensures forall k :: 0 <= k < i ==> r[k] == s[k]
    ensures forall k :: i < k < |r| ==> r[k] == s[k - 1]
  {
    s[..i] + [t] + s[i..]
  }

  /** s without its track at position i, the tracks after it moved one place left. */
  function Removed(s: seq<Track>, i: nat): (r: seq<Track>)
    requires i < |s|
    ensures |r| == |s| - 1
    ensures forall k :: 0 <= k < i ==> r[k] == s[k]
    ensures forall k :: i <= k < |r| ==> r[k] == s[k + 1]
  {
    s[..i] + s[i + 1..]
  }

  /** s with the tracks at positions i and j exchanged. */
  function Swapped(s: seq<Track>, i: nat, j: nat): (r: seq<Track>)
    requires i < |s| && j < |s|
    ensures |r| == |s| && r[i] == s[j] && r[j] == s[i]
    ensures forall k :: 0 <= k < |s| && k != i && k != j ==> r[k] == s[k]
    ensures multiset(r) == multiset(s)
  {
    s[i := s[j]][j := s[i]]
  }

  /** Durations never decrease from left to right. */
  predicate SortedByDuration(s: seq<Track>)
  {
    forall a, b :: 0 <= a < b < |s| ==> s[a].duration <= s[b].duration
  }

  /** Every track before position i is no longer than any track after it:
      the prefix [0, i) is sorted and holds the i shortest tracks. */
  predicate SortedUpTo(s: seq<Track>, i: nat)
  {
    forall a, b :: 0 <= a < i && a < b < |s| ==> s[a].duration <= s[b].duration
  }

  /**
   * Selection sort from position i on, exactly as the play list performs it: the
   * shortest remaining track (the earliest on ties) is swapped into position i,
   * unless it is already there, and the sort goes on from i + 1.
   */
  function SelectionSortFrom(s: seq<Track>, i: nat): (r: seq<Track>)
    ensures |r| == |s| && multiset(r) == multiset(s)
    decreases |s| - i
  {
    if |s| <= i + 1 then s else SelectionSortFrom(SelectionStep(s, i), i + 1)
  }

  /** One step of the selection sort: the shortest track at or after i, the earliest
      on ties, is swapped into position i unless it is already there. */
  function SelectionStep(s: seq<Track>, i: nat): (r: seq<Track>)
    requires i < |s|
    ensures |r| == |s| && multiset(r) == multiset(s)
    ensures r[i] == s[ShortestIndexFrom(s, i)]
    ensures forall k :: 0 <= k < i ==> r[k] == s[k]
  {
    var m := ShortestIndexFrom(s, i);
    if m != i then Swapped(s, i, m) else s
  }

  /** The whole selection sort. */
  function SelectionSort(s: seq<Track>): seq<Track>
  {
    SelectionSortFrom(s, 0)
  }

  // ---------------------------------------------------------------------------
  // Round trips of the positional edits
  // ---------------------------------------------------------------------------

  /** Removing the track just inserted at i gives back the original sequence. */
  lemma RemovedInserted(s: seq<Track>, i: nat, t: Track)
    requires i <= |s|
    ensures Removed(Inserted(s, i, t), i) == s
  {
  }

  /** Inserting at i the track that was just removed from i gives back the original sequence. */
  lemma InsertedRemoved(s: seq<Track>, i: nat)
    requires i < |s|
    ensures Inserted(Removed(s, i), i, s[i]) == s
  {
  }

  // ---------------------------------------------------------------------------
  // Total duration
  // ---------------------------------------------------------------------------

  /** The total duration of a concatenation is the sum of the totals. */
  lemma {:induction false} SumDurationsAppend(a: seq<Track>, b: seq<Track>)
    ensures SumDurations(a + b) == SumDurations(a) + SumDurations(b)
    decreases |b|
  {
    if b == [] {
      assert a + b == a;
    } else {
      var b' := b[..|b| - 1];
      assert (a + b)[..|a + b| - 1] == a + b';
      SumDurationsAppend(a, b');
    }
  }

  /** Inserting a track adds exactly its duration to the total. */
  lemma SumDurationsInserted(s: seq<Track>, i: nat, t: Track)
    requires i <= |s|
    ensures SumDurations(Inserted(s, i, t)) == SumDurations(s) + t.duration
  {
    var a, b := s[..i], s[i..];
    assert Inserted(s, i, t) == (a + [t]) + b;
    assert (a + [t])[..|a + [t]| - 1] == a;
    SumDurationsAppend(a + [t], b);
    assert s == a + b;
    SumDurationsAppend(a, b);
  }

  /** Removing a track takes exactly its duration off the total. */
  lemma SumDurationsRemoved(s: seq<Track>, i: nat)
    requires i < |s|
    ensures SumDurations(Removed(s, i)) == SumDurations(s) - s[i].duration
  {
    InsertedRemoved(s, i);
    SumDurationsInserted(Removed(s, i), i, s[i]);
  }

  /** Removing the track at position k takes one occurrence of it out of the multiset. */
  lemma MultisetRemoved(s: seq<Track>, k: nat)
    requires k < |s|
    ensures multiset(Removed(s, k)) == multiset(s) - multiset{s[k]}
  {
    assert s == s[..k] + [s[k]] + s[k + 1..];
    assert Removed(s, k) == s[..k] + s[k + 1..];
  }

  /** Sequences holding the same tracks, in any order, have the same total duration. */
  lemma {:induction false} SumDurationsPermutation(a: seq<Track>, b: seq<Track>)
    requires multiset(a) == multiset(b)
    ensures SumDurations(a) == SumDurations(b)
    decreases |a|
  {
    if a == [] {
      assert |b| == |multiset(b)| == 0;
    } else {
      var x := a[|a| - 1];
      var a' := a[..|a| - 1];
      assert a == a' + [x];
      assert x in multiset(b);
      var k :| 0 <= k < |b| && b[k] == x;
      MultisetRemoved(b, k);
      assert multiset(a) == multiset(a') + multiset{x};
      SumDurationsPermutation(a', Removed(b, k));
      SumDurationsRemoved(b, k);
    }
  }

  // ---------------------------------------------------------------------------
  // Selection sort
  // ---------------------------------------------------------------------------

  /** One selection step at i puts the prefix [0, i + 1) in place. */
  lemma SelectionStepSortsUpTo(s: seq<Track>, i: nat)
    requires SortedUpTo(s, i) && i < |s|
    ensures SortedUpTo(SelectionStep(s, i), i + 1)
  {
    var m := ShortestIndexFrom(s, i);
    var s' := SelectionStep(s, i);
    forall a, b | 0 <= a < i + 1 && a < b < |s'|
      ensures s'[a].duration <= s'[b].duration
    {
      if b < i {
        assert s'[a] == s[a] && s'[b] == s[b];
      } else {
        var b0 := if b == m then i else if b == i then m else b;
        assert s'[b] == s[b0] && i <= b0;
        if a < i {
          assert s'[a] == s[a];
        } else {
          assert s'[a] == s[m];
        }
      }
    }
  }

  /** Once the prefix before the last position is in place, the whole sequence is sorted. */
  lemma SortedUpToAll(s: seq<Track>, i: nat)
    requires SortedUpTo(s, i) && |s| <= i + 1
    ensures SortedByDuration(s)
  {
  }

  /** Sorting from i on yields a sorted sequence when the prefix [0, i) is already in place. */
  lemma {:induction false} SelectionSortFromSorts(s: seq<Track>, i: nat)
    requires SortedUpTo(s, i)
    ensures SortedByDuration(SelectionSortFrom(s, i))
    decreases |s| - i
  {
    if i + 1 < |s| {
      SelectionStepSortsUpTo(s, i);
      SelectionSortFromSorts(SelectionStep(s, i), i + 1);
    } else {
      SortedUpToAll(s, i);
    }
  }

  /** The selection sort sorts by duration and only reorders the tracks. */
  lemma SelectionSortCorrect(s: seq<Track>)
    ensures SortedByDuration(SelectionSort(s))
    ensures multiset(SelectionSort(s)) == multiset(s)
    ensures SumDurations(SelectionSort(s)) == SumDurations(s)
  {
    SelectionSortFromSorts(s, 0);
    SumDurationsPermutation(SelectionSort(s), s);
  }

  /** On a sequence that is already sorted every selection step finds the track in
      place, so sorting changes nothing: the sort is idempotent. */
  lemma {:induction false} SelectionSortFromOfSorted(s: seq<Track>, i: nat)
    requires SortedByDuration(s)
    ensures SelectionSortFrom(s, i) == s
    decreases |s| - i
  {
    if i + 1 < |s| {
      assert ShortestIndexFrom(s, i) == i;
      SelectionSortFromOfSorted(s, i + 1);
    }
  }

  /** Sorting twice is the same as sorting once. */
  lemma SelectionSortIdempotent(s: seq<Track>)
    ensures SelectionSort(SelectionSort(s)) == SelectionSort(s)
  {
    SelectionSortCorrect(s);
    SelectionSortFromOfSorted(SelectionSort(s), 0);
  }

  // ---------------------------------------------------------------------------
  // Title lookup
  // ---------------------------------------------------------------------------

  /** Lookup by title does not depend on the case in which the title is spelled:
      two spellings equal ignoring case find the same index. */
  lemma TitleIndexIgnoresCase(s: seq<Track>, a: string, b: string)
    requires EqualsIgnoreCase(a, b)
    ensures TitleIndex(s, a) == TitleIndex(s, b)
  {
    forall j | 0 <= j < |s|
      ensures EqualsIgnoreCase(a, s[j].title) <==> EqualsIgnoreCase(b, s[j].title)
    {
      EqualsIgnoreCaseEquivalence(a, b, s[j].title);
      EqualsIgnoreCaseEquivalence(b, a, s[j].title);
    }
  }
}
