/**
 * `ModernStudioApp`, the parts of the main window that are not drawing:
 * the live clip list, the timeline length, adding a stem as a clip,
 * deleting a clip, reloading stems saved next to the source file, and the
 * clamped seek helpers of the transport bar.
 */
module Studio {
  import opened Common
  import opened Audio
  import opened WavLoad
  import opened Clips
  import opened Playback
  import opened Names

  /** `max(60, d + 5)`: the timeline covers the audio plus five seconds, and at least a minute. */
  function TimelineLength(d: real): (t: real)
    ensures t >= 60.0 && t >= d + 5.0
    ensures t == 60.0 || t == d + 5.0
  {
    Max(60.0, d + 5.0)
  }

  /**
   * The stem loader's rule: grow the timeline to `max(60, longest + 5)`
   * when the longest stem plus five seconds does not fit; never shrink it.
   */
  function ExtendedTimeline(total: real, longest: real): (t: real)
    ensures t >= total && t >= longest + 5.0
    ensures t == total || t == TimelineLength(longest)
    ensures longest + 5.0 <= total ==> t == total
  {
    if longest + 5.0 > total then TimelineLength(longest) else total
  }

  /** `max(0, current_time - 5)`. */
  function RewindTarget(current: real): (t: real)
    ensures t >= 0.0 && t >= current - 5.0
    ensures t == 0.0 || t == current - 5.0
  {
    Max(0.0, current - 5.0)
  }

  /** `min(total_duration, current_time + 5)`. */
  function ForwardTarget(current: real, total: real): (t: real)
    ensures t <= total && t <= current + 5.0
    ensures t == total || t == current + 5.0
  {
    Min(total, current + 5.0)
  }

  /** `max(0.0, min(total_duration, cx / PX_PER_SEC))`: the time under canvas x, clamped to the timeline. */
  function ScrubTime(cx: real, total: real): (t: real)
    ensures total >= 0.0 ==> 0.0 <= t <= total
    ensures 0.0 <= cx / PxPerSec <= total ==> t == cx / PxPerSec
    ensures cx < 0.0 ==> t == 0.0
    ensures total >= 0.0 && cx / PxPerSec > total ==> t == total
  {
    Max(0.0, Min(total, cx / PxPerSec))
  }

  /** `min(mapped_idx, len(TRACK_CONFIG) - 1)` used as a list index: negative indices count from the end, below -6 they fail. */
  function ConfigSlot(mapped: int): (slot: Option<int>)
    ensures slot.Some? <==> mapped >= -TrackCount
    ensures slot.Some? ==> 0 <= slot.value < TrackCount
    ensures 0 <= mapped < TrackCount ==> slot == Some(mapped)
    ensures mapped >= TrackCount ==> slot == Some(TrackCount - 1)
  {
    var i := if mapped < TrackCount - 1 then mapped else TrackCount - 1;
    if i >= 0 then Some(i) else if i >= -TrackCount then Some(TrackCount + i) else None
  }

  /** `idx_map.get(stem, 0)` in the stem loader. */
  function StemIndex(stem: string): int {
    match StemLane(stem) case Some(lane) => lane case None => 0
  }

  /** `list.remove(x)`: drop the first occurrence of x; the caller checks membership first. */
  function RemoveFirst<T(==)>(s: seq<T>, x: T): seq<T> {
    if s == [] then []
    else if s[0] == x then s[1..]
    else [s[0]] + RemoveFirst(s[1..], x)
  }

  /** The position of the first x in s. */
  function FirstIndex<T(==)>(s: seq<T>, x: T): (i: int)
    requires x in s
    ensures 0 <= i < |s| && s[i] == x && x !in s[..i]
  {
    if s[0] == x then 0
    else
      var j := FirstIndex(s[1..], x);
      assert s[..j + 1] == [s[0]] + s[1..][..j];
      j + 1
  }

  /** Removing a present element deletes exactly its first occurrence; the rest keep their order. */
  lemma {:induction false} RemoveFirstDeletesFirst<T>(s: seq<T>, x: T)
    requires x in s
    ensures RemoveFirst(s, x) == s[..FirstIndex(s, x)] + s[FirstIndex(s, x) + 1..]
  {
    if s[0] != x {
      RemoveFirstDeletesFirst(s[1..], x);
      var j := FirstIndex(s[1..], x);
      assert s[..j + 1] == [s[0]] + s[1..][..j];
      assert s[j + 2..] == s[1..][j + 1..];
    }
  }

  /** Removing a present element shortens the list by one and loses one copy of it. */
  lemma RemoveFirstCounts<T>(s: seq<T>, x: T)
    requires x in s
    ensures |RemoveFirst(s, x)| == |s| - 1
    ensures multiset(RemoveFirst(s, x)) == multiset(s) - multiset{x}
  {
    var i := FirstIndex(s, x);
    RemoveFirstDeletesFirst(s, x);
    var front, back := s[..i], s[i + 1..];
    assert s == front + [x] + back;
    assert multiset(s) == multiset(front) + multiset{x} + multiset(back);
    assert multiset(RemoveFirst(s, x)) == multiset(front) + multiset(back);
  }

  /** Removing an absent element changes nothing. */
  lemma {:induction false} RemoveFirstAbsent<T>(s: seq<T>, x: T)
    requires x !in s
    ensures RemoveFirst(s, x) == s
  {
    if s != [] {
      RemoveFirstAbsent(s[1..], x);
      assert s == [s[0]] + s[1..];
    }
  }

  /** What `wavfile.read` returns for a file: its rate, its sample type and its array. */
  datatype WavFile = WavFile(rate: int, sampleType: SampleType, data: AudioData)

  /** A stem that could be read, converted by `_load_wav_file_as_float`. */
  datatype LoadedStem = LoadedStem(stem: string, rate: int, audio: AudioData)

  /** How `_try_load_existing_stems` ended. */
  datatype StemLoad =
    | NoSource      // no source file chosen: False
    | NoStems       // no sibling stem file exists: False
    | NoneReadable  // stem files exist but none could be read: False, clips cleared
    | ZeroRate      // a stem file declares rate 0: ZeroDivisionError, clips cleared
    | Loaded        // every readable stem became a clip: True

  ghost predicate ShapedFiles(files: map<string, WavFile>) {
    forall p :: p in files ==> WellShaped(files[p].data)
  }

  /** The stems among `found` that can be read, converted, in order. */
  function ReadStems(found: seq<(string, string)>, files: map<string, WavFile>): (r: seq<LoadedStem>)
    requires ShapedFiles(files)
    ensures |r| <= |found|
  {
    if found == [] then []
    else
      var front := ReadStems(found[..|found| - 1], files);
      var (stem, p) := found[|found| - 1];
      if p in files then front + [LoadedStem(stem, files[p].rate, LoadAsFloat(files[p].sampleType, files[p].data))]
      else front
  }

  /** Some readable stem among `found` declares sample rate 0. */
  predicate AnyZeroRate(found: seq<(string, string)>, files: map<string, WavFile>) {
    exists i :: 0 <= i < |found| && found[i].1 in files && files[found[i].1].rate == 0
  }

  /** `len(audio) / sr`. */
  function StemDuration(s: LoadedStem): real
    requires s.rate != 0
  {
    FrameCount(s.audio) as real / s.rate as real
  }

  ghost predicate NonZeroRates(loaded: seq<LoadedStem>) {
    forall i :: 0 <= i < |loaded| ==> loaded[i].rate != 0
  }

  /** `max_dur` after the read loop: the longest stem, and 0 without stems. */
  function Longest(loaded: seq<LoadedStem>): (m: real)
    requires NonZeroRates(loaded)
  {
    if loaded == [] then 0.0
    else Max(Longest(loaded[..|loaded| - 1]), StemDuration(loaded[|loaded| - 1]))
  }

  /** Longest bounds every stem's duration and is 0 or one of them. */
  lemma {:induction false} LongestIsMaximum(loaded: seq<LoadedStem>)
    requires NonZeroRates(loaded)
    ensures Longest(loaded) >= 0.0
    ensures forall i :: 0 <= i < |loaded| ==> StemDuration(loaded[i]) <= Longest(loaded)
    ensures Longest(loaded) == 0.0 || exists i :: 0 <= i < |loaded| && Longest(loaded) == StemDuration(loaded[i])
  {
    if loaded != [] {
      var front := loaded[..|loaded| - 1];
      assert NonZeroRates(front) by {
        forall i | 0 <= i < |front| ensures front[i].rate != 0 { assert front[i] == loaded[i]; }
      }
      LongestIsMaximum(front);
      assert forall i :: 0 <= i < |front| ==> front[i] == loaded[i];
    }
  }

  /** Reading keeps the stem names: every stem read is named by some found entry's name in `names`. */
  lemma {:induction false} ReadStemsKeepNames(found: seq<(string, string)>, files: map<string, WavFile>, names: seq<string>)
    requires ShapedFiles(files)
    requires forall j :: 0 <= j < |found| ==> found[j].0 in names
    ensures forall i :: 0 <= i < |ReadStems(found, files)| ==> ReadStems(found, files)[i].stem in names
  {
    if found != [] {
      var front := found[..|found| - 1];
      assert forall j :: 0 <= j < |front| ==> front[j] == found[j];
      ReadStemsKeepNames(front, files, names);
    }
  }

  /** When every found file can be read, each becomes one converted stem, in order. */
  lemma {:induction false} ReadStemsAllReadable(found: seq<(string, string)>, files: map<string, WavFile>)
    requires ShapedFiles(files)
    requires forall j :: 0 <= j < |found| ==> found[j].1 in files
    ensures |ReadStems(found, files)| == |found|
    ensures forall i :: 0 <= i < |found| ==>
      var f := files[found[i].1];
      ReadStems(found, files)[i] == LoadedStem(found[i].0, f.rate, LoadAsFloat(f.sampleType, f.data))
  {
    if found != [] {
      var front := found[..|found| - 1];
      assert forall j :: 0 <= j < |front| ==> front[j] == found[j];
      ReadStemsAllReadable(front, files);
    }
  }

  /**
   * The read loop of `_try_load_existing_stems`: read each found stem,
   * skip the ones that fail to read, and track the longest duration.
   * `zero` reports the ZeroDivisionError a rate-0 file raises.
   */
  method ReadFoundStems(found: seq<(string, string)>, files: map<string, WavFile>)
    returns (loaded: seq<LoadedStem>, maxDur: real, zero: bool)
    requires ShapedFiles(files)
    ensures zero <==> AnyZeroRate(found, files)
    ensures !zero ==> loaded == ReadStems(found, files) && NonZeroRates(loaded) && maxDur == Longest(loaded)
  {
    maxDur, loaded, zero := 0.0, [], false;
    var i := 0;
    while i < |found|
      invariant 0 <= i <= |found|
      invariant loaded == ReadStems(found[..i], files)
      invariant !AnyZeroRate(found[..i], files)
      invariant NonZeroRates(loaded)
      invariant maxDur == Longest(loaded)
    {
      var (stem, p) := found[i];
      assert found[..i + 1][..i] == found[..i];
      if p in files {
        var w := files[p];
        if w.rate == 0 {
          assert found[..i + 1][i] == found[i];
          ZeroRateExtends(found, i + 1, files);
          return [], 0.0, true;
        }
        var next := LoadedStem(stem, w.rate, LoadAsFloat(w.sampleType, w.data));
        maxDur := Max(maxDur, StemDuration(next));
        loaded := loaded + [next];
        assert loaded[..|loaded| - 1] == ReadStems(found[..i], files);
      }
      NoZeroRateStep(found, i, files);
      i := i + 1;
    }
    assert found[..i] == found;
  }

  /** The first i + 1 entries have no rate-0 file when the first i have none and entry i has none. */
  lemma NoZeroRateStep(found: seq<(string, string)>, i: int, files: map<string, WavFile>)
    requires 0 <= i < |found| && !AnyZeroRate(found[..i], files)
    requires found[i].1 in files ==> files[found[i].1].rate != 0
    ensures !AnyZeroRate(found[..i + 1], files)
  {
    var next := found[..i + 1];
    forall k | 0 <= k < |next| && next[k].1 in files
      ensures files[next[k].1].rate != 0
    {
      if k < i { assert next[k] == found[..i][k]; }
    }
  }

  /** A clip made from a loaded stem by `_add_clip_safe(audio, sr, stem, idx_map.get(stem, 0))`. */
  ghost predicate ClipFromStem(c: AudioClip, s: LoadedStem)
    reads c
  {
    && s.rate != 0
    && c.Valid()
    && c.View() == Mixer.ClipState(false, Some(s.audio), 0.0, s.rate)
    && c.name == Upper(s.stem)
    && c.trackIdx == StemIndex(s.stem)
    && c.duration == StemDuration(s)
  }

  /** The fixed stem names map to their own lanes. */
  lemma StemOrderLanes(stem: string)
    requires stem in StemOrder
    ensures MappedTrack(stem, StemIndex(stem)) == Some(StemIndex(stem))
    ensures 0 <= StemIndex(stem) <= 3
  {
    assert Lower(stem) == stem;
    var empty := stem[..0];
    assert AllSpace(empty);
    assert empty + Lower(stem) + empty == stem;
    StemNameMaps(empty, stem, empty, StemIndex(stem));
  }

  class StudioApp {
    var clips: seq<AudioClip>
    var totalDuration: real
    /** `self.duration`: the length of the loaded source audio in seconds. */
    var duration: real
    var filePath: string
    const player: AudioPlayer

    constructor (deviceAvailable: bool)
      ensures clips == [] && totalDuration == 60.0 && duration == 0.0 && filePath == ""
      ensures fresh(player) && player.deviceAvailable == deviceAvailable
      ensures !player.playing && !player.paused && player.currentTime == 0.0
    {
      clips := [];
      totalDuration := 60.0;
      duration := 0.0;
      filePath := "";
      player := new AudioPlayer(deviceAvailable);
    }

    /** `_clear_clips_ui`: forget every clip. */
    method ClearClips()
      modifies this`clips
      ensures clips == []
    {
      clips := [];
    }

    /** `AudioClip.delete`: take the clip out of the list if it is there. */
    method DeleteClip(c: AudioClip)
      modifies this`clips
      ensures c in old(clips) ==> clips == RemoveFirst(old(clips), c)
      ensures c !in old(clips) ==> clips == old(clips)
    {
      if c in clips {
        clips := RemoveFirst(clips, c);
      }
    }

    /**
     * `_add_clip_safe`: append a clip for `audio` on the lane its name
     * maps to. It fails before appending when `sr` is 0 (the duration
     * divides by it), when the name has no word, or when the capped lane
     * is below -6 (the colour lookup raises IndexError).
     */
    method AddClipSafe(audio: AudioData, sr: int, name: string, idx: int) returns (added: Option<AudioClip>)
      requires WellShaped(audio)
      modifies this`clips
      ensures added.None? <==>
        sr == 0 || MappedTrack(name, idx).None? || ConfigSlot(MappedTrack(name, idx).value).None?
      ensures added.None? ==> clips == old(clips)
      ensures added.Some? ==>
        var c := added.value;
        && fresh(c) && c.Valid()
        && clips == old(clips) + [c]
        && c.trackIdx == MappedTrack(name, idx).value
        && c.duration == FrameCount(audio) as real / sr as real
        && c.name == Upper(name)
        && c.View() == Mixer.ClipState(false, Some(audio), 0.0, sr)
    {
      if sr == 0 {
        return None;
      }
      var duration := FrameCount(audio) as real / sr as real;
      var mapped := MappedTrack(name, idx);
      if mapped.None? {
        return None;
      }
      var slot := ConfigSlot(mapped.value);
      if slot.None? {
        return None;
      }
      var c := new AudioClip(mapped.value, duration, Upper(name), Some(audio), sr);
      clips := clips + [c];
      added := Some(c);
    }

    /**
     * The end of `_load_audio_thread`: the source's duration and the
     * timeline length follow from its frame count and rate; a rate of 0
     * raises before either is set.
     */
    method SourceLoaded(frames: nat, sr: int) returns (ok: bool)
      modifies this`duration, this`totalDuration
      ensures ok <==> sr != 0
      ensures !ok ==> duration == old(duration) && totalDuration == old(totalDuration)
      ensures ok ==> duration == frames as real / sr as real && totalDuration == TimelineLength(duration)
    {
      if sr == 0 {
        return false;
      }
      duration := frames as real / sr as real;
      totalDuration := TimelineLength(duration);
      ok := true;
    }

    /**
     * `_try_load_existing_stems`: find `{base}_{stem}.wav` next to the
     * source, read the ones that can be read, grow the timeline to the
     * longest, and add each as a clip on its own lane. `present` is what
     * `os.path.exists` reports and `files` what `wavfile.read` returns; a
     * path missing from `files` fails to read and is skipped.
     */
    method TryLoadExistingStems(present: set<string>, files: map<string, WavFile>) returns (outcome: StemLoad)
      requires ShapedFiles(files)
      modifies this`clips, this`totalDuration
      ensures var found := ExistingStems(SplitExtBase(filePath), present);
        && (filePath == "" <==> outcome == NoSource)
        && (outcome == NoStems <==> filePath != "" && found == [])
        && (outcome == ZeroRate <==> filePath != "" && found != [] && AnyZeroRate(found, files))
        && (outcome == NoneReadable <==> filePath != "" && found != [] && !AnyZeroRate(found, files) && ReadStems(found, files) == [])
      ensures outcome in {NoSource, NoStems} ==> clips == old(clips)
      ensures outcome in {NoSource, NoStems, NoneReadable, ZeroRate} ==> totalDuration == old(totalDuration)
      ensures outcome in {NoneReadable, ZeroRate} ==> clips == []
      ensures outcome == Loaded ==>
        var loaded := ReadStems(ExistingStems(SplitExtBase(filePath), present), files);
        && NonZeroRates(loaded)
        && totalDuration == ExtendedTimeline(old(totalDuration), Longest(loaded))
        && |clips| == |loaded|
        && (forall i :: 0 <= i < |clips| ==> fresh(clips[i]) && ClipFromStem(clips[i], loaded[i]))
    {
      if filePath == "" {
        return NoSource;
      }
      var found := FindExistingStems(SplitExtBase(filePath), present);
      if |found| == 0 {
        return NoStems;
      }
      ClearClips();
      var loaded, maxDur, zero := ReadFoundStems(found, files);
      if zero {
        return ZeroRate;
      }
      if |loaded| == 0 {
        return NoneReadable;
      }
      if maxDur + 5.0 > totalDuration {
        totalDuration := TimelineLength(maxDur);
      }
      StemsComeFromOrder(found, files, SplitExtBase(filePath), present);
      assert |clips| == 0;
      AddStemClips(loaded);
      assert forall i :: 0 <= i < |clips| ==> fresh(clips[i]) && ClipFromStem(clips[i], loaded[i]);
      ghost var expected := ReadStems(ExistingStems(SplitExtBase(filePath), present), files);
      assert loaded == expected;
      assert !AnyZeroRate(found, files) && expected != [];
      assert totalDuration == ExtendedTimeline(old(totalDuration), Longest(expected));
      outcome := Loaded;
    }

    /** The last loop of `_try_load_existing_stems`: one clip per loaded stem, on the stem's lane. */
    method AddStemClips(loaded: seq<LoadedStem>)
      requires NonZeroRates(loaded)
      requires forall i :: 0 <= i < |loaded| ==> loaded[i].stem in StemOrder && WellShaped(loaded[i].audio)
      modifies this`clips
      ensures |clips| == |old(clips)| + |loaded| && clips[..|old(clips)|] == old(clips)
      ensures forall i :: |old(clips)| <= i < |clips| ==>
        fresh(clips[i]) && ClipFromStem(clips[i], loaded[i - |old(clips)|])
    {
      var j := 0;
      while j < |loaded|
        invariant 0 <= j <= |loaded|
        invariant |clips| == |old(clips)| + j && clips[..|old(clips)|] == old(clips)
        invariant forall t :: |old(clips)| <= t < |clips| ==> fresh(clips[t]) && ClipFromStem(clips[t], loaded[t - |old(clips)|])
      {
        var s := loaded[j];
        StemOrderLanes(s.stem);
        var added := AddClipSafe(s.audio, s.rate, s.stem, StemIndex(s.stem));
        j := j + 1;
      }
    }

    /**
     * `_on_audio_loaded`: a new source clears the old clips, then picks up
     * stems saved next to it by an earlier separation.
     */
    method OnAudioLoaded(present: set<string>, files: map<string, WavFile>) returns (outcome: StemLoad)
      requires ShapedFiles(files)
      modifies this`clips, this`totalDuration
      ensures var found := ExistingStems(SplitExtBase(filePath), present);
        && (filePath == "" <==> outcome == NoSource)
        && (outcome == NoStems <==> filePath != "" && found == [])
        && (outcome == ZeroRate <==> filePath != "" && found != [] && AnyZeroRate(found, files))
        && (outcome == NoneReadable <==> filePath != "" && found != [] && !AnyZeroRate(found, files) && ReadStems(found, files) == [])
      ensures outcome != Loaded ==> clips == [] && totalDuration == old(totalDuration)
      ensures outcome == Loaded ==>
        var loaded := ReadStems(ExistingStems(SplitExtBase(filePath), present), files);
        && loaded != [] && NonZeroRates(loaded)
        && totalDuration == ExtendedTimeline(old(totalDuration), Longest(loaded))
        && |clips| == |loaded|
        && (forall i :: 0 <= i < |clips| ==> fresh(clips[i]) && ClipFromStem(clips[i], loaded[i]))
    {
      ClearClips();
      outcome := TryLoadExistingStems(present, files);
    }

    /** `rewind`: five seconds back, not before 0. */
    method Rewind()
      modifies player`currentTime
      ensures player.currentTime == RewindTarget(old(player.currentTime))
    {
      player.Seek(RewindTarget(player.currentTime));
    }

    /** `forward`: five seconds on, not past the end of the timeline. */
    method Forward()
      modifies player`currentTime
      ensures player.currentTime == ForwardTarget(old(player.currentTime), totalDuration)
    {
      player.Seek(ForwardTarget(player.currentTime, totalDuration));
    }

    /** `_seek_to_x`: move the playhead to the time under canvas x, inside the timeline. */
    method SeekToX(cx: real)
      modifies player`currentTime
      ensures player.currentTime == ScrubTime(cx, totalDuration)
      ensures totalDuration >= 0.0 ==> 0.0 <= player.currentTime <= totalDuration
    {
      player.Seek(ScrubTime(cx, totalDuration));
    }
  }

  /** A zero rate among the first k found stems is one among all of them. */
  lemma ZeroRateExtends(found: seq<(string, string)>, k: int, files: map<string, WavFile>)
    requires 0 <= k <= |found| && AnyZeroRate(found[..k], files)
    ensures AnyZeroRate(found, files)
  {
    var i :| 0 <= i < k && found[..k][i].1 in files && files[found[..k][i].1].rate == 0;
    assert found[..k][i] == found[i];
  }

  /** Every stem read is one of the four stem names, and its audio is rectangular. */
  lemma StemsComeFromOrder(found: seq<(string, string)>, files: map<string, WavFile>, base: string, present: set<string>)
    requires ShapedFiles(files) && found == ExistingStems(base, present)
    ensures forall i :: 0 <= i < |ReadStems(found, files)| ==>
      ReadStems(found, files)[i].stem in StemOrder && WellShaped(ReadStems(found, files)[i].audio)
  {
    forall j | 0 <= j < |found| ensures found[j].0 in StemOrder {
      assert found[j] in found;
      ExistingAmongMembers(StemOrder, base, present, found[j].0, found[j].1);
    }
    ReadStemsKeepNames(found, files, StemOrder);
    ReadStemsShaped(found, files);
  }

  /** Converted stems are rectangular. */
  lemma {:induction false} ReadStemsShaped(found: seq<(string, string)>, files: map<string, WavFile>)
    requires ShapedFiles(files)
    ensures forall i :: 0 <= i < |ReadStems(found, files)| ==> WellShaped(ReadStems(found, files)[i].audio)
  {
    if found != [] {
      ReadStemsShaped(found[..|found| - 1], files);
    }
  }
}
