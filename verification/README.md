# PlayList in Dafny

A model of `PlayList`, a list of musical tracks with a fixed maximum size. The
list keeps references to `Track` objects in the leading slots of an array. Its
`size` field counts the tracks, and the slots from `size` up to `maxSize` are null.
The list appends and inserts tracks. It removes tracks by index, first, last or
title. It appends a whole other list, all or nothing. It finds a track by title,
ignoring case. It sums the durations, finds the shortest track from a start index,
and sorts itself by duration with an in-place selection sort.

Files:

- `tracks.dfy` (module `Tracks`): the track (a title and a duration in seconds),
  and title equality ignoring case.
- `track_seqs.dfy` (module `TrackSeqs`): specification functions over the
  sequence of tracks a list holds, with lemmas about them. These cover the sum of
  durations, lookup by title, the shortest track from a start index, insertion,
  removal, swapping, and the selection sort exactly as the list performs it.
- `playlist.dfy` (module `PlayLists`): the class `PlayList`, with the array, `maxSize`
  and `size` fields and a ghost `Contents` sequence. `Valid()` is the
  representation invariant. Each mutator states its new `Contents` in terms of the
  old one. The scans, the positional edits and the sort are proved against the
  functions of `TrackSeqs`.
- `scenarios.dfy` (module `PlayListScenarios`): client code that uses only the
  method contracts. It covers the two insertion examples and the shortest-track
  example from the class's comments, plus a few further uses: lookup in two
  spellings, refused bulk appends, appending a list to itself, and sorting twice.
- `wrappers.dfy` (module `Wrappers`): `Option` and `Result`.

Modelling decisions:

- `Track.java` is not part of this model. A track is modelled as a class with two
  constant fields: `title: string` and `duration: nat`. The list compares and
  stores references, as the Java code does.
- `tracks` and `maxSize` are `const`. The Java code assigns them only in the
  constructor.
- `add(PlayList other)` requires that `other` is this list or has a different
  array. Each constructor allocates its own private array, so two distinct lists
  never share one.
- The Java class has three `add` and two `remove` overloads. They are named `Add`,
  `AddAt` and `AddAll`, and `RemoveAt` and `RemoveTitle`.
- The swap inside `sortedInPlace` is the helper method `Swap`.

## Model

| member | source | states |
|---|---|---|
| `PlayLists.PlayList.constructor` | PlayList.java:11-15 | a new list is valid and empty, has a fresh array of `maxSize` slots, and all of them are null |
| `PlayLists.PlayList.GetMaxSize` | PlayList.java:18-20 | returns the array length, which bounds the number of tracks |
| `PlayLists.PlayList.GetSize` | PlayList.java:23-25 | returns the number of tracks in the list, never more than the maximum |
| `PlayLists.PlayList.GetTrack` | PlayList.java:28-34 | returns the track at `index` for `0 <= index < size`, and null for every other index |
| `PlayLists.PlayList.Add` | PlayList.java:39-47 | succeeds exactly when the list is not full; then the contents become `old + [track]`, otherwise nothing changes; the invariant is kept |
| `PlayLists.PlayList.RemoveLast` | PlayList.java:61-66 | drops the final track and nulls its slot; on an empty list nothing changes |
| `PlayLists.PlayList.TotalDuration` | PlayList.java:69-75 | the accumulator loop returns the sum of the durations of the tracks in the list |
| `PlayLists.PlayList.IndexOf` | PlayList.java:79-86 | the scan returns `TitleIndex`: the least index whose title matches ignoring case, or -1 |
| `PlayLists.PlayList.AddAt` | PlayList.java:94-104 | fails with no change when `index < 0`, `index > size` or the list is full; otherwise the contents become `old[..index] + [track] + old[index..]` through the right-shift loop |
| `PlayLists.PlayList.RemoveAt` | PlayList.java:109-117 | for `0 <= i < size` the contents become `old[..i] + old[i+1..]` through the left-shift loop and the freed slot is nulled; any other `i` changes nothing |
| `PlayLists.PlayList.RemoveTitle` | PlayList.java:121-126 | removes exactly the track at `TitleIndex(old, title)`; changes nothing when no title matches |
| `PlayLists.PlayList.RemoveFirst` | PlayList.java:129-133 | the contents become `old[1..]`; an empty list is unchanged |
| `PlayLists.PlayList.AddAll` | PlayList.java:137-147 | all or nothing: when the two sizes together fit, the contents become `old + other`, in order, even when `other` is this list; otherwise nothing changes; a distinct `other` is unchanged |
| `PlayLists.PlayList.MinIndex` | PlayList.java:155-170 | the scan returns `ShortestIndexFrom(Contents, start)`: -1 for a start outside the list, else the earliest index of a shortest track at or after `start` |
| `PlayLists.PlayList.TitleOfShortestTrack` | PlayList.java:175-179 | None exactly for the empty list; otherwise the title of a track no longer than any other and strictly shorter than every track before it |
| `PlayLists.PlayList.Swap` | PlayList.java:193-195 | the tracks in slots `i` and `j` are exchanged and nothing else changes |
| `PlayLists.PlayList.SortedInPlace` | PlayList.java:188-198 | the contents become `SelectionSort(old)`: sorted by duration, a permutation of the old contents, with the same size and the same total duration |
| `PlayLists.TitleOfShortestAsWritten` | PlayList.java:175-179 | the code as written faults exactly on the empty list; otherwise it yields the title of a shortest track |
| `PlayLists.ShortestTitleOfEmptyFaults` | PlayList.java:175-179 | on the empty list the code as written accesses index -1 and faults; it does not return null |
| `Tracks.EqualsIgnoreCaseEquivalence` | PlayList.java:81 | title comparison ignoring case is reflexive, symmetric and transitive |
| `TrackSeqs.SumDurations` | PlayList.java:69-75 | a sum of durations is never negative and is 0 for no tracks |
| `TrackSeqs.TitleIndex` | PlayList.java:79-86 | the result is -1 exactly when no title matches; otherwise it is a matching index with no match before it |
| `TrackSeqs.ShortestIndexFrom` | PlayList.java:149-170 | -1 when `start` is not a position; otherwise an index in `[start, size)` whose duration is at most every duration there and strictly less than every duration before it in that range |
| `TrackSeqs.Inserted` | PlayList.java:88-104 | inserting at `i` keeps the tracks before `i`, puts the new track at `i` and moves the rest one place right |
| `TrackSeqs.Removed` | PlayList.java:106-117 | removing at `i` keeps the tracks before `i` and moves the rest one place left |
| `TrackSeqs.Swapped` | PlayList.java:193-195 | exchanging two positions keeps every other position and the multiset of tracks |
| `TrackSeqs.SelectionSortFrom` | PlayList.java:188-198 | the sort from `i` on, defined by repeating `SelectionStep`; its result is a permutation of the input with the same length |
| `TrackSeqs.SelectionStep` | PlayList.java:189-196 | one pass of the outer loop puts the earliest shortest track from `i` on into slot `i` and leaves the slots before `i` alone; the tracks are only reordered |
| `TrackSeqs.SelectionStepSortsUpTo` | PlayList.java:189-196 | after the pass at `i`, every track before `i + 1` is no longer than any later track |
| `TrackSeqs.RemovedInserted` | PlayList.java:94-117 | removing at `i` the track just inserted at `i` restores the list |
| `TrackSeqs.InsertedRemoved` | PlayList.java:94-117 | inserting at `i` the track just removed from `i` restores the list |
| `TrackSeqs.SumDurationsAppend` | PlayList.java:69-75 | the total of a concatenation is the sum of the two totals |
| `TrackSeqs.SumDurationsInserted` | PlayList.java:94-104 | an insertion adds exactly the new track's duration to the total |
| `TrackSeqs.SumDurationsRemoved` | PlayList.java:109-117 | a removal takes exactly the removed track's duration off the total |
| `TrackSeqs.MultisetRemoved` | PlayList.java:109-117 | a removal takes exactly one occurrence of the removed track out of the multiset of tracks |
| `TrackSeqs.SumDurationsPermutation` | PlayList.java:69-75 | two lists that hold the same tracks in any order have the same total duration |
| `TrackSeqs.SelectionSortFromSorts` | PlayList.java:188-198 | once the prefix before `i` is sorted and holds the shortest tracks, sorting from `i` yields a list sorted by duration |
| `TrackSeqs.SelectionSortCorrect` | PlayList.java:184-198 | the selection sort yields a list sorted by duration that is a permutation of its input and has the same total duration |
| `TrackSeqs.SelectionSortFromOfSorted` | PlayList.java:188-198 | on a list already sorted by duration, every selection step finds its track in place and nothing moves |
| `TrackSeqs.SelectionSortIdempotent` | PlayList.java:184-198 | sorting a sorted list changes nothing |
| `TrackSeqs.TitleIndexIgnoresCase` | PlayList.java:79-86 | two spellings of a title that are equal ignoring case find the same index |

## Left out

- `toString` (PlayList.java:51-58) builds a string through `Track.toString`, and `Track.java` is not part of this model.
- The unused import on PlayList.java:1 has no behaviour.
- Tracks.EqualsIgnoreCase: folds only the ASCII letters A-Z. Java's `equalsIgnoreCase` also folds other Unicode letters.
- PlayLists.PlayList.TotalDuration: the sum is an unbounded integer. The Java `int` sum wraps around past 2^31 - 1, and the model assumes the total stays in range.
- Null tracks are not modelled. `Add` and `AddAt` take a non-null `Track`. In Java, `add(null)` would store a null that a later `totalDuration` or `indexOf` dereferences.
- A null title passed to `indexOf` or `remove(String)` is not modelled, because `string` cannot be null. On a non-empty list Java would throw `NullPointerException` at line 81. On an empty list the loop never reaches that line, and Java returns -1.
- A negative `maxSize` (Java throws `NegativeArraySizeException`) is excluded by the constructor's `nat` parameter. A maximum of 0 is accepted, as the code accepts it.
- PlayLists.PlayList.AddAll: assumes the two sizes sum within the `int` range. PlayList.java:139 computes `p2Size + size` as an `int`. Past 2^31 - 1 that sum wraps negative, the test on line 141 passes, and the loop appends only until this list is full. The model's sum is unbounded, so it proves all-or-nothing for every input.
- The comment on PlayList.java:106-108 says `remove(int)` "returns -1". The method returns nothing, and the model follows the code.

## Findings

| source | as written | input that shows it | evidently intended | confidence | as-written member | corrected member |
|---|---|---|---|---|---|---|
| PlayList.java:175-179 | `tracks[minIndex(0)].getTitle()` | an empty list: `minIndex(0)` is -1, so `tracks[-1]` throws `ArrayIndexOutOfBoundsException` | return null (no title) for an empty list, as the comment on lines 175-176 says | not executed; high | `PlayLists.ShortestTitleOfEmptyFaults` | `PlayLists.PlayList.TitleOfShortestTrack` |
