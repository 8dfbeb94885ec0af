/**
 * A play list: a list of track references with a fixed maximum size, kept in the
 * leading slots of an array whose remaining slots are null.
 */
module PlayLists {
  import opened Wrappers
  import opened Tracks
  import opened TrackSeqs

  /** The fault Java raises when an array is indexed outside its bounds. */
  datatype Fault = ArrayIndexOutOfBounds(index: int)

  /**
   * titleOfShortestTrack as its code is written: the title of the track at
   * minIndex(0). On an empty list minIndex(0) is -1 and the array access faults,
   * although the method's documentation promises null for that case.
   */
  function TitleOfShortestAsWritten(s: seq<Track>): (r: Result<string, Fault>)
    ensures r.Err? <==> s == []
    ensures r.Ok? ==>
      exists k :: 0 <= k < |s| && r.value == s[k].title &&
        forall j :: 0 <= j < |s| ==> s[k].duration <= s[j].duration
  {
    var k := ShortestIndexFrom(s, 0);
    if 0 <= k < |s| then Ok(s[k].title) else Err(ArrayIndexOutOfBounds(k))
  }

  /** The input that shows the discrepancy: the empty list faults at index -1 instead of yielding null. */
  lemma ShortestTitleOfEmptyFaults()
    ensures TitleOfShortestAsWritten([]) == Err(ArrayIndexOutOfBounds(-1))
  {
  }

  class PlayList {
    /** The slots; the array is created by the constructor and never replaced. */
    const tracks: array<Track?>
    /** The maximum number of tracks, fixed at construction. */
    const maxSize: nat
    /** The number of tracks in the list. */
    var size: nat
    /** The tracks in slots [0, size), in order. */
    ghost var Contents: seq<Track>

    /** The representation invariant: slots [0, size) hold the tracks, the rest are null. */
    ghost predicate Valid()
      reads this, tracks
    {
      tracks.Length == maxSize && size <= maxSize && |Contents| == size &&
      (forall k :: 0 <= k < size ==> tracks[k] == Contents[k]) &&
      (forall k :: size <= k < maxSize ==> tracks[k] == null)
    }

    /** An empty play list that can hold maxSize tracks. */
    constructor (maxSize: nat)
      ensures Valid() && fresh(tracks)
      ensures this.maxSize == maxSize && Contents == []
    {
      this.maxSize := maxSize;
      tracks := new Track?[maxSize](_ => null);
      size := 0;
      Contents := [];
    }

    method GetMaxSize() returns (n: nat)
      requires Valid()
      ensures n == tracks.Length && |Contents| <= n
    {
      n := maxSize;
    }

    method GetSize() returns (n: nat)
      requires Valid()
      ensures n == |Contents| && n <= maxSize
    {
      n := size;
    }

    /** The track at index, or null when index is not a position of the list. */
    method GetTrack(index: int) returns (t: Track?)
      requires Valid()
      ensures 0 <= index < |Contents| ==> t == Contents[index]
      ensures !(0 <= index < |Contents|) ==> t == null
    {
      if index >= 0 && index < size {
        t := tracks[index];
      } else {
        t := null;
      }
    }

    /** Appends track when the list is not full; reports whether it did. */
    method Add(track: Track) returns (ok: bool)
      requires Valid()
      modifies this, tracks
      ensures Valid()
      ensures ok <==> old(|Contents|) < maxSize
      ensures Contents == if ok then old(Contents) + [track] else old(Contents)
    {
      if size < maxSize {
        tracks[size] := track;
        size := size + 1;
        Contents := Contents + [track];
        ok := true;
      } else {
        ok := false;
      }
    }

    /** Drops the last track; does nothing on an empty list. */
    method RemoveLast()
      requires Valid()
      modifies this, tracks
      ensures Valid()
      ensures old(|Contents|) == 0 ==> Contents == old(Contents)
      ensures old(|Contents|) > 0 ==> Contents == old(Contents)[..old(|Contents|) - 1]
    {
      if size > 0 {
        tracks[size - 1] := null;
        size := size - 1;
        Contents := Contents[..size];
      }
    }

    /** The sum of the durations of the tracks in the list. */
    method TotalDuration() returns (sum: int)
      requires Valid()
      ensures sum == SumDurations(Contents)
    {
      sum := 0;
      for i := 0 to size
        invariant sum == SumDurations(Contents[..i])
      {
        assert Contents[..i + 1][..i] == Contents[..i];
        sum := sum + tracks[i].duration;
      }
      assert Contents[..size] == Contents;
    }

    /** The index of the first track whose title equals title ignoring case, or -1. */
    method IndexOf(title: string) returns (r: int)
      requires Valid()
      ensures r == TitleIndex(Contents, title)
    {
      for i := 0 to size
        invariant forall j :: 0 <= j < i ==> !EqualsIgnoreCase(title, Contents[j].title)
      {
        if EqualsIgnoreCase(title, tracks[i].title) {
          return i;
        }
      }
      return -1;
    }

    /**
     * Inserts track at index, moving the tracks from index on one slot right.
     * Fails, changing nothing, when index is out of [0, size] or the list is full.
     */
    method AddAt(index: int, track: Track) returns (ok: bool)
      requires Valid()
      modifies this, tracks
      ensures Valid()
      ensures ok <==> 0 <= index <= old(|Contents|) && old(|Contents|) < maxSize
      ensures Contents == if ok then Inserted(old(Contents), index, track) else old(Contents)
    {
      if index < 0 || index > size || size == maxSize {
        return false;
      }
      var i := size - 1;
      while i >= index
        invariant index - 1 <= i < size && size == old(size) && Contents == old(Contents)
        invariant forall k :: 0 <= k <= i + 1 ==> tracks[k] == old(tracks[k])
        invariant forall k :: i + 1 < k <= size ==> tracks[k] == old(tracks[k - 1])
        invariant forall k :: size < k < maxSize ==> tracks[k] == old(tracks[k])
        decreases i
      {
        tracks[i + 1] := tracks[i];
        i := i - 1;
      }
      tracks[index] := track;
      size := size + 1;
      Contents := Inserted(Contents, index, track);
      ok := true;
    }

    /**
     * Removes the track at index i, moving the later tracks one slot left and
     * clearing the freed slot; does nothing when i is not a position of the list.
     */
    method RemoveAt(i: int)
      requires Valid()
      modifies this, tracks
      ensures Valid()
      ensures 0 <= i < old(|Contents|) ==> Contents == Removed(old(Contents), i)
      ensures !(0 <= i < old(|Contents|)) ==> Contents == old(Contents)
    {
      if i >= 0 && i < size {
        for j := i to size - 1
          invariant size == old(size) && Contents == old(Contents)
          invariant forall k :: 0 <= k < i ==> tracks[k] == old(tracks[k])
          invariant forall k :: i <= k < j ==> tracks[k] == old(tracks[k + 1])
          invariant forall k :: j <= k < maxSize ==> tracks[k] == old(tracks[k])
        {
          tracks[j] := tracks[j + 1];
        }
        tracks[size - 1] := null;
        size := size - 1;
        Contents := Removed(Contents, i);
      }
    }

    /** Removes the first track whose title equals title ignoring case; does nothing
        when there is none. */
    method RemoveTitle(title: string)
      requires Valid()
      modifies this, tracks
      ensures Valid()
      ensures TitleIndex(old(Contents), title) == -1 ==> Contents == old(Contents)
      ensures TitleIndex(old(Contents), title) != -1 ==>
        Contents == Removed(old(Contents), TitleIndex(old(Contents), title))
    {
      var index := IndexOf(title);
      if index != -1 && size != 0 {
        RemoveAt(index);
      }
    }

    /** Removes the first track; does nothing on an empty list. */
    method RemoveFirst()
      requires Valid()
      modifies this, tracks
      ensures Valid()
      ensures old(|Contents|) == 0 ==> Contents == old(Contents)
      ensures old(|Contents|) > 0 ==> Contents == old(Contents)[1..]
    {
      if size != 0 {
        RemoveAt(0);
      }
    }

    /**
     * Appends all the tracks of other, in order, when they all fit; otherwise does
     * nothing at all. other may be this list itself. Distinct play lists never
     * share their arrays, since each constructor creates its own.
     */
    method AddAll(other: PlayList)
      requires Valid() && other.Valid()
      requires other == this || other.tracks != tracks
      modifies this, tracks
      ensures Valid()
      ensures old(|other.Contents| + |Contents|) <= maxSize ==>
        Contents == old(Contents) + old(other.Contents)
      ensures old(|other.Contents| + |Contents|) > maxSize ==> Contents == old(Contents)
      ensures other != this ==> other.Valid() && other.Contents == old(other.Contents)
    {
      var p2Size := other.GetSize();
      var sum := p2Size + size;
      if sum <= maxSize {
        ghost var before, added := Contents, other.Contents;
        for i := 0 to p2Size
          invariant Valid()
          invariant Contents == before + added[..i]
          invariant other == this ==> added == before
          invariant other != this ==> other.Valid() && other.Contents == added
        {
          var trackToAdd := other.GetTrack(i);
          assert added[..i + 1] == added[..i] + [added[i]];
          var _ := Add(trackToAdd);
        }
        assert added[..p2Size] == added;
      }
    }

    /** The index of the shortest track at or after start, the earliest on ties;
        -1 when start is not a position of the list. */
    method MinIndex(start: int) returns (m: int)
      requires Valid()
      ensures m == ShortestIndexFrom(Contents, start)
    {
      if start < 0 || start >= size {
        return -1;
      }
      var minDur := tracks[start].duration;
      m := start;
      for i := start + 1 to size
        invariant start <= m < i
        invariant minDur == Contents[m].duration
        invariant forall j :: start <= j < i ==> minDur <= Contents[j].duration
        invariant forall j :: start <= j < m ==> minDur < Contents[j].duration
      {
        var duration := tracks[i].duration;
        if duration < minDur {
          minDur := duration;
          m := i;
        }
      }
    }

    /** The title of the shortest track (the earliest on ties), or None for an empty list. */
    method TitleOfShortestTrack() returns (title: Option<string>)
      requires Valid()
      ensures title.None? <==> |Contents| == 0
      ensures title.Some? ==>
        exists k :: 0 <= k < |Contents| && title.value == Contents[k].title &&
          (forall j :: 0 <= j < |Contents| ==> Contents[k].duration <= Contents[j].duration) &&
          (forall j :: 0 <= j < k ==> Contents[k].duration < Contents[j].duration)
    {
      var k := MinIndex(0);
      if k == -1 {
        title := None;
      } else {
        title := Some(tracks[k].title);
      }
    }

    /** Exchanges the tracks in slots i and j. */
    method Swap(i: nat, j: nat)
      requires Valid() && i < |Contents| && j < |Contents|
      modifies this, tracks
      ensures Valid()
      ensures Contents == Swapped(old(Contents), i, j)
    {
      var temp := tracks[i];
      tracks[i] := tracks[j];
      tracks[j] := temp;
      Contents := Swapped(Contents, i, j);
    }

    /** Sorts the list by increasing duration, in place, by selection sort. */
    method SortedInPlace()
      requires Valid()
      modifies this, tracks
      ensures Valid()
      ensures Contents == SelectionSort(old(Contents))
      ensures SortedByDuration(Contents) && multiset(Contents) == multiset(old(Contents))
      ensures SumDurations(Contents) == SumDurations(old(Contents))
    {
      ghost var original := Contents;
      var i := 0;
      while i < size - 1
        invariant Valid() && |Contents| == |original|
        invariant SelectionSortFrom(Contents, i) == SelectionSort(original)
      {
        var minIdx := MinIndex(i);
        ghost var before := Contents;
        if minIdx != i {
          Swap(i, minIdx);
        }
        assert Contents == SelectionStep(before, i);
        i := i + 1;
      }
      SelectionSortCorrect(original);
    }
  }
}
