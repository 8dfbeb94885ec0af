/**
 * Client scenarios: what a caller of PlayList can conclude from the method
 * contracts alone. InsertInMiddle, InsertIntoEmpty and ShortestFromTwo are the
 * examples in the class's comments; the others are further uses.
 */
module PlayListScenarios {
  import opened Tracks
  import opened TrackSeqs
  import opened PlayLists

  /** (t5, t3, t1), then add(1, t4), gives (t5, t4, t3, t1). */
  method InsertInMiddle(t1: Track, t3: Track, t4: Track, t5: Track)
  {
    var p := new PlayList(4);
    var _ := p.Add(t5);
    var _ := p.Add(t3);
    var _ := p.Add(t1);
    assert p.Contents == [t5, t3, t1];
    var ok := p.AddAt(1, t4);
    assert ok && p.Contents == [t5, t4, t3, t1];
  }

  /** (), then add(0, t3), gives (t3). */
  method InsertIntoEmpty(t3: Track)
  {
    var p := new PlayList(1);
    var ok := p.AddAt(0, t3);
    assert ok && p.Contents == [t3];
  }

  /** Appends succeed until the list is full; the next one fails and changes nothing. */
  method AppendUntilFull(a: Track, b: Track, c: Track)
  {
    var p := new PlayList(2);
    var ok := p.Add(a);
    assert ok;
    ok := p.Add(b);
    assert ok;
    ok := p.Add(c);
    assert !ok && p.Contents == [a, b];
  }

  /** Durations 7, 1, 6, 7, 5, 8, 7: the shortest track from index 2 on is at index 4. */
  method ShortestFromTwo(p: PlayList)
    requires p.Valid() && |p.Contents| == 7
    requires p.Contents[0].duration == 7 && p.Contents[1].duration == 1
    requires p.Contents[2].duration == 6 && p.Contents[3].duration == 7
    requires p.Contents[4].duration == 5 && p.Contents[5].duration == 8
    requires p.Contents[6].duration == 7
  {
    var m := p.MinIndex(2);
    assert m == 4;
  }

  /** Sorting keeps the size and the total duration, and a second sort changes nothing. */
  method SortKeepsTotal(p: PlayList)
    requires p.Valid()
    modifies p, p.tracks
  {
    var total := p.TotalDuration();
    var size := p.GetSize();
    p.SortedInPlace();
    var sortedTotal := p.TotalDuration();
    var sortedSize := p.GetSize();
    assert sortedTotal == total && sortedSize == size;
    ghost var once := p.Contents;
    p.SortedInPlace();
    SelectionSortFromOfSorted(once, 0);
    assert p.Contents == once;
  }

  /** Appending a list of three to a list of three with room for five is refused as a whole. */
  method AddAllIsAllOrNothing(a: Track, b: Track, c: Track)
  {
    var p := new PlayList(5);
    var q := new PlayList(3);
    var _ := p.Add(a);
    var _ := p.Add(b);
    var _ := p.Add(c);
    assert p.Contents == [a, b, c];
    var _ := q.Add(c);
    var _ := q.Add(b);
    var _ := q.Add(a);
    assert |q.Contents| == 3;
    p.AddAll(q);
    var n := p.GetSize();
    assert n == 3 && p.Contents == [a, b, c];
  }

  /** A list appended to itself holds its tracks twice, when they fit. */
  method AddAllToItself(a: Track, b: Track)
  {
    var p := new PlayList(4);
    var _ := p.Add(a);
    var _ := p.Add(b);
    p.AddAll(p);
    assert p.Contents == [a, b, a, b];
  }

  /** "Song" and "SONG" find the same track. */
  method LookupIgnoresCase(other: Track)
    requires !EqualsIgnoreCase("Song", other.title)
  {
    var p := new PlayList(3);
    var song := new Track("Song", 200);
    var _ := p.Add(other);
    var _ := p.Add(song);
    assert p.Contents == [other, song];
    var i := p.IndexOf("Song");
    assert EqualsIgnoreCase("Song", song.title);
    assert i == 1;
    var j := p.IndexOf("SONG");
    assert EqualsIgnoreCase("Song", "SONG");
    TitleIndexIgnoresCase(p.Contents, "Song", "SONG");
    assert j == i;
  }

  /** Removing a title that no track has leaves the size and the order unchanged. */
  method RemoveAbsentTitle(p: PlayList, title: string)
    requires p.Valid()
    requires forall k :: 0 <= k < |p.Contents| ==> !EqualsIgnoreCase(title, p.Contents[k].title)
    modifies p, p.tracks
  {
    ghost var before := p.Contents;
    var size := p.GetSize();
    p.RemoveTitle(title);
    var after := p.GetSize();
    assert after == size && p.Contents == before;
  }

  /** Inserting and then removing at the same index restores the list and its total. */
  method InsertThenRemove(a: Track, b: Track, t: Track)
  {
    var p := new PlayList(3);
    var _ := p.Add(a);
    var _ := p.Add(b);
    var before := p.TotalDuration();
    var ok := p.AddAt(1, t);
    assert ok;
    var got := p.GetTrack(1);
    assert got == t;
    p.RemoveAt(1);
    assert p.Contents == [a, b];
    var after := p.TotalDuration();
    assert after == before;
  }
}
