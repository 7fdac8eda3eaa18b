/** The lyric synchroniser of src/App.tsx: from a table of timed lines and a
    playback position to the index of the line to highlight. */
module Lyrics {

  /** One parsed line: its start time in seconds and its text. */
  datatype LyricLine = LyricLine(time: real, text: string)

  predicate Sorted(lines: seq<LyricLine>) {
    forall i, j :: 0 <= i < j < |lines| ==> lines[i].time <= lines[j].time
  }

  /** The number of leading lines whose time has been reached: the scan
      stops at the first line that starts after `progress`. */
  function ReachedPrefix(lines: seq<LyricLine>, progress: real): (k: nat)
    ensures k <= |lines|
    ensures forall i :: 0 <= i < k ==> lines[i].time <= progress
    ensures k < |lines| ==> lines[k].time > progress
  {
    if lines == [] || lines[0].time > progress then 0
    else 1 + ReachedPrefix(lines[1..], progress)
  }

  /** The index the scan settles on: the last reached line, or 0 when even
      the first line lies ahead. */
  function ScanResult(lines: seq<LyricLine>, progress: real): nat {
    var k := ReachedPrefix(lines, progress);
    if k == 0 then 0 else k - 1
  }

  /** The loop both lyric effects run: from index 0, remember each line
      whose time has been reached, stop at the first that has not. */
  method ScanActiveLine(lines: seq<LyricLine>, progress: real) returns (idx: nat)
    ensures idx == ScanResult(lines, progress)
    ensures lines != [] ==> idx < |lines|
    ensures forall i :: 0 <= i < idx ==> lines[i].time <= progress
    ensures lines != [] && lines[0].time > progress ==> idx == 0
    ensures lines != [] && lines[0].time <= progress ==>
      lines[idx].time <= progress && (idx + 1 < |lines| ==> lines[idx + 1].time > progress)
  {
    idx := 0;
    var i := 0;
    while i < |lines|
      invariant 0 <= i <= ReachedPrefix(lines, progress)
      invariant idx == if i == 0 then 0 else i - 1
    {
      if progress >= lines[i].time {
        idx := i;
      } else {
        break;
      }
      i := i + 1;
    }
    assert i == ReachedPrefix(lines, progress);
  }

  /** The line index published when a lyric text is loaded: -1 when there is
      no line at all, the scan's result otherwise. */
  function LoadedIndex(lines: seq<LyricLine>, progress: real): (r: int)
    ensures lines == [] <==> r == -1
    ensures lines != [] ==> 0 <= r < |lines|
  {
    if lines == [] then -1 else ScanResult(lines, progress)
  }

  /** For a sorted table the scan finds what the line table means: the
      greatest index whose time is at most `progress`, or 0 when there is none. */
  lemma SortedScanIsGreatest(lines: seq<LyricLine>, progress: real)
    requires Sorted(lines) && lines != []
    ensures var r := ScanResult(lines, progress);
      && (lines[r].time <= progress || (r == 0 && forall i :: 0 <= i < |lines| ==> lines[i].time > progress))
      && forall i :: r < i < |lines| ==> lines[i].time > progress
  {
    var k := ReachedPrefix(lines, progress);
    if k < |lines| {
      forall i | k <= i < |lines| ensures lines[i].time > progress {
        assert lines[k].time <= lines[i].time;
      }
    }
  }

  /** The reached prefix only grows as playback moves forward, whatever the
      order of the table. */
  lemma {:induction false} ReachedPrefixMonotone(lines: seq<LyricLine>, p: real, q: real)
    requires p <= q
    ensures ReachedPrefix(lines, p) <= ReachedPrefix(lines, q)
  {
    if lines != [] && lines[0].time <= p {
      ReachedPrefixMonotone(lines[1..], p, q);
    }
  }

  /** So the highlighted line never moves backwards while progress increases. */
  lemma ActiveLineMonotone(lines: seq<LyricLine>, p: real, q: real)
    requires p <= q
    ensures ScanResult(lines, p) <= ScanResult(lines, q)
  {
    ReachedPrefixMonotone(lines, p, q);
  }

  /** The lyric state of the player. `published` logs every value handed to
      `setActiveLyricIndex`, so that "only on change" can be stated. */
  class LyricSync {
    var parsedLyrics: seq<LyricLine>
    var activeIndex: int
    ghost var published: seq<int>

    /** The active index is -1 exactly for an empty table, and in range otherwise. */
    ghost predicate Valid()
      reads this
    {
      (parsedLyrics == [] ==> activeIndex == -1) && (parsedLyrics != [] ==> 0 <= activeIndex < |parsedLyrics|)
    }

    constructor ()
      ensures Valid() && parsedLyrics == [] && activeIndex == -1 && published == []
    {
      parsedLyrics := [];
      activeIndex := -1;
      published := [];
    }

    /** The effect that runs when the lyric text changes. `parsed` is what the
        parser returns for `lyrics` (the parser itself is not modelled). */
    method LoadLyrics(lyrics: string, parsed: seq<LyricLine>, progress: real)
      modifies this
      ensures Valid()
      ensures lyrics == "" ==> parsedLyrics == [] && activeIndex == -1
      ensures lyrics != "" ==> parsedLyrics == parsed && activeIndex == LoadedIndex(parsed, progress)
      ensures published == old(published) + [activeIndex]
    {
      if lyrics == "" {
        parsedLyrics := [];
        activeIndex := -1;
        published := published + [-1];
        return;
      }
      parsedLyrics := parsed;
      var initialIdx := ScanActiveLine(parsed, progress);
      activeIndex := if |parsed| > 0 then initialIdx else -1;
      published := published + [activeIndex];
    }

    /** The effect that runs on every progress update: rescan from 0 and
        publish the index only when it differs from the current one. */
    method OnProgress(progress: real)
      requires Valid()
      modifies this
      ensures Valid() && parsedLyrics == old(parsedLyrics)
      ensures parsedLyrics == [] ==> activeIndex == old(activeIndex) && published == old(published)
      ensures parsedLyrics != [] ==> activeIndex == ScanResult(parsedLyrics, progress)
      ensures published == if activeIndex != old(activeIndex) then old(published) + [activeIndex] else old(published)
    {
      if |parsedLyrics| == 0 {
        return;
      }
      var currentIdx := ScanActiveLine(parsedLyrics, progress);
      if currentIdx != activeIndex {
        activeIndex := currentIdx;
        published := published + [currentIdx];
      }
    }
  }
}
