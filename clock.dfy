/** The progress bookkeeping of src/App.tsx: when a sampled playback
    position is published, how a seek and a track change reset it, and
    the one-time restore of a saved position when the track-change effect
    runs again for the track already loaded. Times are
    seconds as `real`; floating-point rounding is not modelled. */
module Clock {
  import opened Common

  /** The smallest change of position that is worth publishing. */
  const Threshold: real := 0.05

  function Abs(x: real): real { if x < 0.0 then -x else x }

  /** `Math.abs(currentTime - lastProgressRef.current) > 0.05` */
  predicate ShouldPublish(last: real, sample: real) {
    Abs(sample - last) > Threshold
  }

  /** The values a run of samples publishes, starting from baseline `last`. */
  function Published(last: real, samples: seq<real>): seq<real>
    decreases |samples|
  {
    if samples == [] then []
    else if ShouldPublish(last, samples[0]) then [samples[0]] + Published(samples[0], samples[1..])
    else Published(last, samples[1..])
  }

  /** The baseline after a run of samples: the last published value, or the
      starting baseline when nothing was published. */
  function Baseline(last: real, samples: seq<real>): real
    decreases |samples|
  {
    if samples == [] then last
    else if ShouldPublish(last, samples[0]) then Baseline(samples[0], samples[1..])
    else Baseline(last, samples[1..])
  }

  /** Rate bound: each published value is more than the threshold away from
      the one published before it (and the first from the starting baseline),
      and every published value is one of the samples. */
  lemma {:induction false} PublishedAreSpaced(last: real, samples: seq<real>)
    ensures var p := Published(last, samples);
      && (p != [] ==> Abs(p[0] - last) > Threshold)
      && (forall i :: 0 < i < |p| ==> Abs(p[i] - p[i - 1]) > Threshold)
      && (forall i :: 0 <= i < |p| ==> p[i] in samples)
    decreases |samples|
  {
    if samples != [] {
      PublishedAreSpaced(if ShouldPublish(last, samples[0]) then samples[0] else last, samples[1..]);
      var rest := Published(if ShouldPublish(last, samples[0]) then samples[0] else last, samples[1..]);
      if ShouldPublish(last, samples[0]) {
        assert Published(last, samples) == [samples[0]] + rest;
      } else {
        assert Published(last, samples) == rest;
      }
    }
  }

  /** Freshness bound: after any run of samples the most recent sample is
      within the threshold of the baseline, so the displayed position lags
      the true one by at most the threshold. */
  lemma {:induction false} BaselineIsFresh(last: real, samples: seq<real>)
    requires samples != []
    ensures Abs(samples[|samples| - 1] - Baseline(last, samples)) <= Threshold
    decreases |samples|
  {
    if |samples| == 1 {
      assert Baseline(last, samples) == (if ShouldPublish(last, samples[0]) then samples[0] else last);
    } else {
      var next := if ShouldPublish(last, samples[0]) then samples[0] else last;
      BaselineIsFresh(next, samples[1..]);
      assert samples[1..][|samples[1..]| - 1] == samples[|samples| - 1];
    }
  }

  /** The key the track-change effect compares: `${platform}-${id}`. */
  function SongKey(s: Song): string {
    s.platform + "-" + s.id
  }

  /** The position of the first '-' in a string, or its length when there is none. */
  function FirstDash(s: string): (r: nat)
    ensures r <= |s|
  {
    if s == [] || s[0] == '-' then 0 else 1 + FirstDash(s[1..])
  }

  lemma {:induction false} FirstDashOfKey(x: string, rest: string)
    requires '-' !in x
    ensures FirstDash(x + "-" + rest) == |x|
  {
    if x != [] {
      assert (x + "-" + rest)[1..] == x[1..] + "-" + rest;
      FirstDashOfKey(x[1..], rest);
    }
  }

  /** Distinct tracks get distinct keys as long as platform names contain no
      '-' (true of the provider names the client uses); with the converse,
      key equality is then the identity test used everywhere else. */
  lemma SongKeyMatchesIdentity(a: Song, b: Song)
    requires '-' !in a.platform && '-' !in b.platform
    ensures SongKey(a) == SongKey(b) <==> SameSong(a, b)
  {
    if SongKey(a) == SongKey(b) {
      var ka, kb := SongKey(a), SongKey(b);
      FirstDashOfKey(a.platform, a.id);
      FirstDashOfKey(b.platform, b.id);
      assert a.platform == ka[..|a.platform|] == kb[..|b.platform|] == b.platform;
      assert a.id == ka[|a.platform| + 1..] == kb[|b.platform| + 1..] == b.id;
    }
  }

  /** ArrowLeft: five seconds back, not before the start. */
  function SeekBackTarget(progress: real): (r: real)
    ensures r >= 0.0
    ensures r <= progress || progress < 0.0
    ensures progress >= 5.0 ==> r == progress - 5.0
    ensures progress < 5.0 ==> r == 0.0
  {
    if progress - 5.0 > 0.0 then progress - 5.0 else 0.0
  }

  /** ArrowRight: five seconds forward, not past the duration. */
  function SeekForwardTarget(progress: real, duration: real): (r: real)
    ensures r <= duration && r <= progress + 5.0
    ensures progress <= duration ==> r >= progress
    ensures progress + 5.0 <= duration ==> r == progress + 5.0
    ensures progress + 5.0 > duration ==> r == duration
  {
    if duration < progress + 5.0 then duration else progress + 5.0
  }

  /** ArrowUp: `Math.min(1, volume + 0.1)` */
  function VolumeUp(v: real): (r: real)
    ensures r <= 1.0 && r <= v + 0.1
    ensures 0.0 <= v ==> 0.0 <= r
    ensures v <= 0.9 ==> r == v + 0.1
    ensures v > 0.9 ==> r == 1.0
    ensures v <= 1.0 ==> r >= v
  {
    if 1.0 < v + 0.1 then 1.0 else v + 0.1
  }

  /** ArrowDown: `Math.max(0, volume - 0.1)` */
  function VolumeDown(v: real): (r: real)
    ensures r >= 0.0 && r >= v - 0.1
    ensures v <= 1.0 ==> r <= 1.0
    ensures v >= 0.1 ==> r == v - 0.1
    ensures v < 0.1 ==> r == 0.0
    ensures v >= 0.0 ==> r <= v
  {
    if 0.0 > v - 0.1 then 0.0 else v - 0.1
  }

  function VolumeUpN(v: real, n: nat): real {
    if n == 0 then v else VolumeUp(VolumeUpN(v, n - 1))
  }

  /** From any audible volume, ten presses of ArrowUp reach full volume and
      stay there. */
  lemma {:induction false} TenStepsReachFullVolume(v: real, n: nat)
    requires 0.0 <= v <= 1.0 && n >= 10
    ensures VolumeUpN(v, n) == 1.0
  {
    VolumeUpNLowerBound(v, n);
  }

  lemma {:induction false} VolumeUpNLowerBound(v: real, n: nat)
    requires 0.0 <= v <= 1.0
    ensures VolumeUpN(v, n) <= 1.0
    ensures VolumeUpN(v, n) >= (if v + (n as real) * 0.1 < 1.0 then v + (n as real) * 0.1 else 1.0)
  {
    if n > 0 {
      VolumeUpNLowerBound(v, n - 1);
    }
  }

  /** The progress-related refs and state of the player. `audioTime` is what
      the controller writes to the audio element's position; the sampled
      position arrives as a parameter of the event methods. `restored` logs
      every restore of a saved position. */
  class ProgressClock {
    var progress: real
    var duration: real
    var lastProgress: real
    var currentSongId: Option<string>
    var hasRestored: bool
    var savedProgress: int
    var audioTime: real
    ghost var restored: seq<real>

    /** A saved position is restored at most once, and the flag says whether it was. */
    ghost predicate Valid()
      reads this
    {
      |restored| <= 1 && (hasRestored <==> |restored| == 1)
    }

    constructor (saved: int)
      ensures Valid()
      ensures progress == 0.0 && duration == 0.0 && lastProgress == 0.0 && audioTime == 0.0
      ensures currentSongId == None && !hasRestored && savedProgress == saved && restored == []
    {
      progress, duration, lastProgress, audioTime := 0.0, 0.0, 0.0, 0.0;
      currentSongId := None;
      hasRestored := false;
      savedProgress := saved;
      restored := [];
    }

    /** The animation-frame tick and the `timeupdate` fallback: publish the
        sampled position only when it moved more than the threshold. */
    method SyncProgress(currentTime: real)
      requires Valid()
      modifies this
      ensures Valid()
      ensures ShouldPublish(old(lastProgress), currentTime) ==> progress == currentTime && lastProgress == currentTime
      ensures !ShouldPublish(old(lastProgress), currentTime) ==> progress == old(progress) && lastProgress == old(lastProgress)
      ensures duration == old(duration) && currentSongId == old(currentSongId) && hasRestored == old(hasRestored)
      ensures savedProgress == old(savedProgress) && audioTime == old(audioTime) && restored == old(restored)
    {
      if Abs(currentTime - lastProgress) > Threshold {
        lastProgress := currentTime;
        progress := currentTime;
      }
    }

    /** The `seeked` event: publish at once and move the baseline there. */
    method HandleSeeked(currentTime: real)
      requires Valid()
      modifies this
      ensures Valid()
      ensures progress == currentTime && lastProgress == currentTime
      ensures duration == old(duration) && currentSongId == old(currentSongId) && hasRestored == old(hasRestored)
      ensures savedProgress == old(savedProgress) && audioTime == old(audioTime) && restored == old(restored)
    {
      progress := currentTime;
      lastProgress := currentTime;
    }

    /** A seek from the progress bar or the keyboard: move the element and
        show the target at once. The baseline moves only when the element
        reports `seeked`. */
    method HandleSeek(time: real)
      requires Valid()
      modifies this
      ensures Valid()
      ensures audioTime == time && progress == time && lastProgress == old(lastProgress)
      ensures duration == old(duration) && currentSongId == old(currentSongId) && hasRestored == old(hasRestored)
      ensures savedProgress == old(savedProgress) && restored == old(restored)
    {
      audioTime := time;
      progress := time;
    }

    /** ArrowLeft and ArrowRight. */
    method KeyboardSeek(forward: bool)
      requires Valid()
      modifies this
      ensures Valid()
      ensures progress == audioTime
      ensures forward ==> progress == SeekForwardTarget(old(progress), old(duration))
      ensures !forward ==> progress == SeekBackTarget(old(progress))
      ensures 0.0 <= old(progress) <= old(duration) ==> 0.0 <= progress <= duration
      ensures duration == old(duration) && lastProgress == old(lastProgress) && restored == old(restored)
      ensures currentSongId == old(currentSongId) && hasRestored == old(hasRestored) && savedProgress == old(savedProgress)
    {
      var target := if forward then SeekForwardTarget(progress, duration) else SeekBackTarget(progress);
      HandleSeek(target);
    }

    /** `loadedmetadata`: the duration when it is finite (None models a
        non-finite value), else 0. */
    method HandleDuration(reported: Option<real>)
      requires Valid()
      modifies this
      ensures Valid()
      ensures duration == reported.GetOr(0.0)
      ensures progress == old(progress) && lastProgress == old(lastProgress) && currentSongId == old(currentSongId)
      ensures hasRestored == old(hasRestored) && savedProgress == old(savedProgress)
      ensures audioTime == old(audioTime) && restored == old(restored)
    {
      duration := reported.GetOr(0.0);
    }

    /** The effect that runs when the current track changes: progress and
        duration go back to 0 unless the key is the one already loaded.
        After a reload the remembered key starts empty, so the first run is
        never the same track. Returns whether it was the same track. */
    method TrackChange(song: Song) returns (isSameSong: bool)
      requires Valid()
      modifies this
      ensures Valid()
      ensures isSameSong <==> old(currentSongId) == Some(SongKey(song))
      ensures currentSongId == Some(SongKey(song))
      ensures !isSameSong ==> progress == 0.0 && duration == 0.0 && lastProgress == 0.0
      ensures isSameSong ==> progress == old(progress) && duration == old(duration) && lastProgress == old(lastProgress)
      ensures hasRestored == old(hasRestored) && savedProgress == old(savedProgress)
      ensures audioTime == old(audioTime) && restored == old(restored)
    {
      var songId := SongKey(song);
      isSameSong := currentSongId == Some(songId);
      currentSongId := Some(songId);
      if !isSameSong {
        progress := 0.0;
        duration := 0.0;
        lastProgress := 0.0;
      }
    }

    /** The one-shot `canplay` handler installed by that effect: restore the
        saved position when it is positive, the track is the same one, and
        nothing was restored before. */
    method CanPlay(isSameSong: bool)
      requires Valid()
      modifies this
      ensures Valid()
      ensures old(hasRestored) ==> unchanged(this)
      ensures !old(hasRestored) && savedProgress > 0 && isSameSong ==>
        && audioTime == savedProgress as real && progress == savedProgress as real
        && hasRestored && restored == [savedProgress as real]
      ensures !(!old(hasRestored) && savedProgress > 0 && isSameSong) ==> unchanged(this)
      ensures lastProgress == old(lastProgress) && duration == old(duration) && savedProgress == old(savedProgress)
      ensures currentSongId == old(currentSongId)
    {
      if !hasRestored && savedProgress > 0 && isSameSong {
        audioTime := savedProgress as real;
        progress := savedProgress as real;
        hasRestored := true;
        restored := restored + [savedProgress as real];
      }
    }

    /** The five-second save while playing and the save on pause: the whole
        seconds of a positive position. */
    method SaveProgress(currentTime: real)
      requires Valid()
      modifies this
      ensures Valid()
      ensures currentTime > 0.0 ==> savedProgress == currentTime.Floor
      ensures currentTime <= 0.0 ==> savedProgress == old(savedProgress)
      ensures progress == old(progress) && lastProgress == old(lastProgress) && duration == old(duration)
      ensures hasRestored == old(hasRestored) && audioTime == old(audioTime) && restored == old(restored)
      ensures currentSongId == old(currentSongId)
    {
      if currentTime > 0.0 {
        savedProgress := currentTime.Floor;
      }
    }
  }

  /** After a reload the clock starts with no remembered track, so the first
      track-change run is never the same track and its `canplay` handler
      restores nothing, whatever position was saved. */
  method FirstRunAfterReload(saved: int, song: Song) returns (c: ProgressClock, isSameSong: bool)
    ensures fresh(c) && c.Valid()
    ensures !isSameSong
    ensures !c.hasRestored && c.restored == []
    ensures c.progress == 0.0 && c.audioTime == 0.0 && c.savedProgress == saved
    ensures c.currentSongId == Some(SongKey(song))
  {
    c := new ProgressClock(saved);
    isSameSong := c.TrackChange(song);
    c.CanPlay(isSameSong);
  }

  /** The restore fires only when the effect runs a second time for the
      track already loaded (a change of quality, say). */
  method SecondRunRestores(saved: int, song: Song) returns (c: ProgressClock, isSameSong: bool)
    requires saved > 0
    ensures fresh(c) && c.Valid()
    ensures isSameSong
    ensures c.hasRestored && c.restored == [saved as real]
    ensures c.progress == saved as real && c.audioTime == saved as real
  {
    c := new ProgressClock(saved);
    var first := c.TrackChange(song);
    c.CanPlay(first);
    isSameSong := c.TrackChange(song);
    c.CanPlay(isSameSong);
  }
}
