/** The playback queue controller of src/App.tsx together with the queue
    actions of the persisted store (src/store/useAppStore.ts): the queue,
    its current index, the play mode and the current track, and how the
    next and previous tracks are chosen. */
module Queue {
  import opened Common

  datatype PlayMode = List | Shuffle | Single

  /** The play-mode button steps through list, shuffle, single and back. */
  function NextMode(m: PlayMode): (r: PlayMode)
    ensures r != m
  {
    match m
    case List => Shuffle
    case Shuffle => Single
    case Single => List
  }

  /** Three presses of the mode button give the mode back, and the two
      presses in between visit the other two modes. */
  lemma ModeCycle(m: PlayMode)
    ensures NextMode(NextMode(NextMode(m))) == m
    ensures {m, NextMode(m), NextMode(NextMode(m))} == {List, Shuffle, Single}
  {
  }

  /** `Math.max(0, Math.min(index, len - 1))` */
  function ClampIndex(index: int, len: nat): (r: nat)
    requires len > 0
    ensures r < len
    ensures 0 <= index < len ==> r == index
    ensures index >= len ==> r == len - 1
    ensures index < 0 ==> r == 0
  {
    Max(0, Min(index, len - 1))
  }

  /** `queue.findIndex(s => s.id === song.id && s.platform === song.platform)`,
      with None for -1. */
  function FindSong(queue: seq<Song>, song: Song): (r: Option<nat>)
    ensures r.None? <==> !HasSong(queue, song)
    ensures r.Some? ==> r.value < |queue| && SameSong(queue[r.value], song)
    ensures r.Some? ==> forall j :: 0 <= j < r.value ==> !SameSong(queue[j], song)
  {
    if queue == [] then None
    else if SameSong(queue[0], song) then Some(0)
    else match FindSong(queue[1..], song)
      case None => None
      case Some(i) => Some(i + 1)
  }

  /** `(i + 1) % len` in list (and single) mode. */
  function ListNext(i: nat, len: nat): (r: nat)
    requires i < len
    ensures r < len
    ensures r == if i == len - 1 then 0 else i + 1
  {
    (i + 1) % len
  }

  /** `(i - 1 + len) % len` in list (and single) mode; the operand is never negative here. */
  function ListPrev(i: nat, len: nat): (r: nat)
    requires i < len
    ensures r < len
    ensures r == if i == 0 then len - 1 else i - 1
  {
    (i - 1 + len) % len
  }

  lemma PrevUndoesNext(i: nat, len: nat)
    requires i < len
    ensures ListPrev(ListNext(i, len), len) == i
    ensures ListNext(ListPrev(i, len), len) == i
  {
  }

  /** `n` successive list-mode advances. */
  function AdvanceN(i: nat, len: nat, n: nat): (r: nat)
    requires i < len
    ensures r < len
  {
    if n == 0 then i else ListNext(AdvanceN(i, len, n - 1), len)
  }

  lemma {:induction false} AdvanceNOffset(i: nat, len: nat, n: nat)
    requires i < len && n <= len
    ensures AdvanceN(i, len, n) == if i + n < len then i + n else i + n - len
  {
    if n > 0 {
      AdvanceNOffset(i, len, n - 1);
    }
  }

  /** In list mode, `len` successive `nextSong` calls come back to the starting track. */
  lemma FullCycleReturns(i: nat, len: nat)
    requires i < len
    ensures AdvanceN(i, len, len) == i
    ensures forall n :: 0 < n < len ==> AdvanceN(i, len, n) != i
  {
    AdvanceNOffset(i, len, len);
    forall n | 0 < n < len ensures AdvanceN(i, len, n) != i {
      AdvanceNOffset(i, len, n);
    }
  }

  /** `Math.floor(draw * len)` for a draw of `Math.random()`, which lies in [0, 1). */
  function ScaledDraw(draw: real, len: nat): (r: int)
    requires 0.0 <= draw < 1.0 && len > 0
    ensures 0 <= r < len
  {
    DrawBound(draw, len);
    (draw * len as real).Floor
  }

  lemma DrawBound(draw: real, len: nat)
    requires 0.0 <= draw < 1.0 && len > 0
    ensures 0.0 <= draw * len as real < len as real
  {
  }

  predicate DrawsInRange(draws: seq<real>) {
    forall k :: 0 <= k < |draws| ==> 0.0 <= draws[k] < 1.0
  }

  /** What shuffle mode needs of its random source: at least one draw, and,
      when there is a choice, some draw that lands away from `current`.
      The rejection loop is then known to stop within the supplied draws. */
  predicate ShuffleDrawsOk(draws: seq<real>, len: nat, current: int) {
    && len > 0
    && |draws| > 0
    && DrawsInRange(draws)
    && (len > 1 ==> exists k :: 0 <= k < |draws| && ScaledDraw(draws[k], len) != current)
  }

  /** The rejection loop of shuffle mode: draw until the index differs from
      `current` (or stop after one draw when the queue has a single track).
      `used` is the number of draws consumed. */
  method DrawShuffleIndex(draws: seq<real>, len: nat, current: int) returns (idx: nat, used: nat)
    requires ShuffleDrawsOk(draws, len, current)
    ensures idx < len
    ensures len > 1 ==> idx != current
    ensures 1 <= used <= |draws| && idx == ScaledDraw(draws[used - 1], len)
    ensures len > 1 ==> forall k :: 0 <= k < used - 1 ==> ScaledDraw(draws[k], len) == current
    ensures len == 1 ==> used == 1
  {
    ghost var w: nat := 0;
    if len > 1 {
      w :| w < |draws| && ScaledDraw(draws[w], len) != current;
    }
    idx := ScaledDraw(draws[0], len);
    used := 1;
    while len > 1 && idx == current
      invariant 1 <= used <= |draws|
      invariant idx == ScaledDraw(draws[used - 1], len)
      invariant len > 1 ==> used - 1 <= w
      invariant len > 1 ==> forall k :: 0 <= k < used - 1 ==> ScaledDraw(draws[k], len) == current
      invariant len == 1 ==> used == 1
      decreases |draws| - used
    {
      idx := ScaledDraw(draws[used], len);
      used := used + 1;
    }
  }

  /** `queue.filter((_, i) => i !== index)` */
  function RemoveAt(queue: seq<Song>, index: int): (r: seq<Song>)
    ensures 0 <= index < |queue| ==> |r| == |queue| - 1
    ensures 0 <= index < |queue| ==> forall i :: 0 <= i < |r| ==> r[i] == queue[if i < index then i else i + 1]
    ensures !(0 <= index < |queue|) ==> r == queue
  {
    if 0 <= index < |queue| then queue[..index] + queue[index + 1..] else queue
  }

  /** `arr[i] || null` on an array of objects. */
  function EntryAt(queue: seq<Song>, i: int): (r: Option<Song>)
    ensures r.Some? <==> 0 <= i < |queue|
    ensures r.Some? ==> r.value == queue[i]
  {
    if 0 <= i < |queue| then Some(queue[i]) else None
  }

  /** The queue slice of the player. `audioTime` records what the controller
      writes to the audio element's position; `isPlaying` follows the
      element's play and pause events, which are taken to fire at once. */
  class Player {
    var queue: seq<Song>
    var queueIndex: int
    var playMode: PlayMode
    var currentSong: Option<Song>
    var shouldAutoPlay: bool
    var isPlaying: bool
    var audioTime: real

    /** A non-empty queue always has its index in range. (An empty queue may
        keep a stale index: the queue view's clear does not reset it.) */
    ghost predicate Valid()
      reads this
    {
      |queue| > 0 ==> 0 <= queueIndex < |queue|
    }

    constructor ()
      ensures Valid()
      ensures queue == [] && queueIndex == -1 && currentSong == None
      ensures playMode == List && !shouldAutoPlay && !isPlaying && audioTime == 0.0
    {
      queue := [];
      queueIndex := -1;
      playMode := List;
      currentSong := None;
      shouldAutoPlay := false;
      isPlaying := false;
      audioTime := 0.0;
    }

    /** Replace the queue and start at the clamped index; an empty list is ignored. */
    method StartPlayback(songs: seq<Song>, index: int)
      requires Valid()
      modifies this
      ensures Valid()
      ensures songs == [] ==> unchanged(this)
      ensures songs != [] ==>
        && queue == songs
        && queueIndex == ClampIndex(index, |songs|)
        && currentSong == Some(songs[queueIndex])
        && shouldAutoPlay
      ensures playMode == old(playMode) && isPlaying == old(isPlaying) && audioTime == old(audioTime)
    {
      if |songs| == 0 {
        return;
      }
      var bounded := ClampIndex(index, |songs|);
      queue := songs;
      queueIndex := bounded;
      shouldAutoPlay := true;
      currentSong := Some(songs[bounded]);
    }

    /** Jump to the first queued entry with the song's identity, or append the song. */
    method PlaySong(song: Song)
      requires Valid()
      modifies this
      ensures Valid()
      ensures FindSong(old(queue), song).Some? ==>
        && queue == old(queue)
        && queueIndex == FindSong(old(queue), song).value
        && currentSong == Some(queue[queueIndex])
      ensures FindSong(old(queue), song).None? ==>
        && queue == old(queue) + [song]
        && queueIndex == |queue| - 1
        && currentSong == Some(song)
      ensures 0 <= queueIndex < |queue| && SameSong(queue[queueIndex], song)
      ensures shouldAutoPlay
      ensures playMode == old(playMode) && isPlaying == old(isPlaying) && audioTime == old(audioTime)
    {
      var found := FindSong(queue, song);
      if found.Some? {
        queueIndex := found.value;
        shouldAutoPlay := true;
        currentSong := Some(queue[found.value]);
      } else {
        var newQueue := queue + [song];
        queue := newQueue;
        queueIndex := |newQueue| - 1;
        shouldAutoPlay := true;
        currentSong := Some(song);
      }
    }

    /** Advance: circularly in list and single mode, by rejection sampling in shuffle mode. */
    method NextSong(draws: seq<real>)
      requires Valid()
      requires playMode == Shuffle && queue != [] ==> ShuffleDrawsOk(draws, |queue|, queueIndex)
      modifies this
      ensures Valid()
      ensures old(queue) == [] ==> unchanged(this)
      ensures queue == old(queue) && playMode == old(playMode)
      ensures isPlaying == old(isPlaying) && audioTime == old(audioTime)
      ensures old(queue) != [] ==> shouldAutoPlay && currentSong == Some(queue[queueIndex])
      ensures old(queue) != [] && playMode != Shuffle ==> queueIndex == ListNext(old(queueIndex), |queue|)
      ensures old(queue) != [] && playMode == Shuffle ==>
        && (|queue| > 1 ==> queueIndex != old(queueIndex))
        && exists k :: 0 <= k < |draws| && queueIndex == ScaledDraw(draws[k], |queue|)
             && (|queue| > 1 ==> forall j :: 0 <= j < k ==> ScaledDraw(draws[j], |queue|) == old(queueIndex))
    {
      if |queue| == 0 {
        return;
      }
      var nextIdx: nat;
      if playMode == Shuffle {
        var used;
        nextIdx, used := DrawShuffleIndex(draws, |queue|, queueIndex);
        assert 0 <= used - 1 < |draws| && nextIdx == ScaledDraw(draws[used - 1], |queue|);
      } else {
        nextIdx := ListNext(queueIndex, |queue|);
      }
      queueIndex := nextIdx;
      shouldAutoPlay := true;
      currentSong := Some(queue[nextIdx]);
    }

    /** Step back: circularly in list and single mode; in shuffle mode one draw,
        which may land on the current index again. */
    method PrevSong(draw: real)
      requires Valid()
      requires playMode == Shuffle ==> 0.0 <= draw < 1.0
      modifies this
      ensures Valid()
      ensures old(queue) == [] ==> unchanged(this)
      ensures queue == old(queue) && playMode == old(playMode)
      ensures isPlaying == old(isPlaying) && audioTime == old(audioTime)
      ensures old(queue) != [] ==> shouldAutoPlay && currentSong == Some(queue[queueIndex])
      ensures old(queue) != [] && playMode != Shuffle ==> queueIndex == ListPrev(old(queueIndex), |queue|)
      ensures old(queue) != [] && playMode == Shuffle ==> queueIndex == ScaledDraw(draw, |queue|)
    {
      if |queue| == 0 {
        return;
      }
      var prevIdx: nat;
      if playMode == Shuffle {
        prevIdx := ScaledDraw(draw, |queue|);
      } else {
        prevIdx := ListPrev(queueIndex, |queue|);
      }
      queueIndex := prevIdx;
      shouldAutoPlay := true;
      currentSong := Some(queue[prevIdx]);
    }

    /** The audio element's `ended` event: single mode rewinds and replays the
        same track; the other modes advance as `nextSong` does. */
    method HandleEnded(draws: seq<real>)
      requires Valid()
      requires playMode == Shuffle && queue != [] ==> ShuffleDrawsOk(draws, |queue|, queueIndex)
      modifies this
      ensures Valid()
      ensures queue == old(queue) && playMode == old(playMode)
      ensures playMode == Single ==>
        && audioTime == 0.0 && isPlaying
        && queueIndex == old(queueIndex) && currentSong == old(currentSong)
        && shouldAutoPlay == old(shouldAutoPlay)
      ensures playMode != Single && old(queue) == [] ==> unchanged(this)
      ensures playMode != Single ==> isPlaying == old(isPlaying) && audioTime == old(audioTime)
      ensures playMode != Single && old(queue) != [] ==> shouldAutoPlay && currentSong == Some(queue[queueIndex])
      ensures playMode == List && old(queue) != [] ==> queueIndex == ListNext(old(queueIndex), |queue|)
      ensures playMode == Shuffle && old(queue) != [] ==>
        && (|queue| > 1 ==> queueIndex != old(queueIndex))
        && exists k :: 0 <= k < |draws| && queueIndex == ScaledDraw(draws[k], |queue|)
             && (|queue| > 1 ==> forall j :: 0 <= j < k ==> ScaledDraw(draws[j], |queue|) == old(queueIndex))
    {
      if playMode == Single {
        audioTime := 0.0;
        isPlaying := true;
      } else {
        NextSong(draws);
      }
    }

    /** The queue view's play button on the entry at `index`: request
        autoplay and move the index there. When that entry has the identity
        of the current track, the loaded track is rewound and played again;
        otherwise the entry becomes the current track. */
    method ViewPlay(index: nat)
      requires Valid()
      requires index < |queue|
      modifies this
      ensures Valid()
      ensures queue == old(queue) && playMode == old(playMode)
      ensures queueIndex == index && shouldAutoPlay
      ensures old(currentSong).Some? && SameSong(queue[index], old(currentSong).value) ==>
        && currentSong == old(currentSong) && audioTime == 0.0 && isPlaying
      ensures !(old(currentSong).Some? && SameSong(queue[index], old(currentSong).value)) ==>
        && currentSong == Some(queue[index]) && audioTime == old(audioTime) && isPlaying == old(isPlaying)
      ensures currentSong.Some? && SameSong(currentSong.value, queue[queueIndex])
    {
      shouldAutoPlay := true;
      queueIndex := index;
      var target := queue[index];
      if currentSong.Some? && SameSong(target, currentSong.value) {
        audioTime := 0.0;
        isPlaying := true;
      } else {
        currentSong := Some(target);
      }
    }

    /** The queue view's remove button. The index is that of a displayed entry.
        Removing an entry before the current one shifts the index down so the
        same track stays current; removing the current one moves to the entry
        that took its place (or the new last one), or, when the queue becomes
        empty, clears the current track and stops, leaving the index as it was. */
    method ViewRemove(index: nat)
      requires Valid()
      requires index < |queue|
      modifies this
      ensures Valid()
      ensures queue == RemoveAt(old(queue), index)
      ensures playMode == old(playMode) && shouldAutoPlay == old(shouldAutoPlay) && audioTime == old(audioTime)
      ensures index < old(queueIndex) ==>
        && queueIndex == old(queueIndex) - 1
        && queue[queueIndex] == old(queue)[old(queueIndex)]
        && currentSong == old(currentSong) && isPlaying == old(isPlaying)
      ensures index > old(queueIndex) ==>
        && queueIndex == old(queueIndex)
        && queue[queueIndex] == old(queue)[old(queueIndex)]
        && currentSong == old(currentSong) && isPlaying == old(isPlaying)
      ensures index == old(queueIndex) && queue == [] ==>
        queueIndex == old(queueIndex) && currentSong == None && !isPlaying
      ensures index == old(queueIndex) && queue != [] ==>
        && queueIndex == Min(index, |queue| - 1)
        && currentSong == Some(queue[queueIndex])
        && isPlaying == old(isPlaying)
    {
      var newQueue := RemoveAt(queue, index);
      queue := newQueue;
      if index < queueIndex {
        queueIndex := queueIndex - 1;
      } else if index == queueIndex {
        if |newQueue| == 0 {
          currentSong := None;
          isPlaying := false;
        } else {
          var nextIdx := Min(index, |newQueue| - 1);
          queueIndex := nextIdx;
          currentSong := Some(newQueue[nextIdx]);
        }
      }
    }

    /** The queue view's clear button: pause and rewind, empty the queue and
        forget the current track. The index is left as it was. */
    method ViewClear()
      requires Valid()
      modifies this
      ensures Valid()
      ensures queue == [] && currentSong == None && !isPlaying && audioTime == 0.0
      ensures queueIndex == old(queueIndex) && playMode == old(playMode) && shouldAutoPlay == old(shouldAutoPlay)
    {
      audioTime := 0.0;
      isPlaying := false;
      queue := [];
      currentSong := None;
    }

    /** The store's `clearQueue`. */
    method ClearQueue()
      modifies this
      ensures Valid()
      ensures queue == [] && queueIndex == -1 && currentSong == None
      ensures playMode == old(playMode) && shouldAutoPlay == old(shouldAutoPlay)
      ensures isPlaying == old(isPlaying) && audioTime == old(audioTime)
    {
      queue := [];
      queueIndex := -1;
      currentSong := None;
    }

    /** The store's `removeFromQueue`, for any index. Unlike the queue view it
        always sets the current track from the new index, and an emptied queue
        gets index -1. */
    method RemoveFromQueue(index: int)
      modifies this
      ensures queue == RemoveAt(old(queue), index)
      ensures queueIndex == (if index < old(queueIndex) then old(queueIndex) - 1
                             else if index == old(queueIndex) then Min(old(queueIndex), |queue| - 1)
                             else old(queueIndex))
      ensures currentSong == EntryAt(queue, queueIndex)
      ensures 0 <= index < |old(queue)| && 0 <= old(queueIndex) < |old(queue)| ==> Valid()
      ensures 0 <= index < old(queueIndex) < |old(queue)| ==> queue[queueIndex] == old(queue)[old(queueIndex)]
      ensures index == old(queueIndex) && 0 <= index < |old(queue)| && queue == [] ==> queueIndex == -1 && currentSong == None
      ensures playMode == old(playMode) && shouldAutoPlay == old(shouldAutoPlay)
      ensures isPlaying == old(isPlaying) && audioTime == old(audioTime)
    {
      var newQueue := RemoveAt(queue, index);
      var newIndex := queueIndex;
      if index < queueIndex {
        newIndex := queueIndex - 1;
      } else if index == queueIndex {
        newIndex := Min(queueIndex, |newQueue| - 1);
      }
      queue := newQueue;
      queueIndex := newIndex;
      currentSong := EntryAt(newQueue, newIndex);
    }

    /** The play-mode button. */
    method ToggleMode()
      modifies this
      ensures playMode == NextMode(old(playMode))
      ensures queue == old(queue) && queueIndex == old(queueIndex) && currentSong == old(currentSong)
      ensures shouldAutoPlay == old(shouldAutoPlay) && isPlaying == old(isPlaying) && audioTime == old(audioTime)
    {
      playMode := NextMode(playMode);
    }
  }
}
