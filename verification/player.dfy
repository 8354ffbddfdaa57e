/**
 * `AudioPlayer`: the transport flags (`playing`, `paused`, `current_time`
 * and the stop event), the window mixer that fills one device buffer, and
 * one iteration of the playback loop. The output device is abstracted: the
 * frames a step would write are returned instead.
 */
module Playback {
  import opened Common
  import opened Audio
  import opened Mixer
  import opened Clips

  /** `CHUNK_SIZE`: frames per device write. */
  const ChunkSize: int := 2048

  /** The rate the playback loop runs at: the first clip's, or 44100 without clips. */
  function LoopRate(clips: seq<AudioClip>): int {
    if |clips| == 0 then DefaultRate else clips[0].sampleRate
  }

  /**
   * Every buffer the loop hands to the device at its own rate is one full
   * `CHUNK_SIZE` of frames at that rate: the mixer's window of
   * CHUNK_SIZE / sr seconds, or the silent buffer when there are no clips.
   */
  lemma LoopChunkFillsBuffer(clips: seq<AudioClip>, t: real)
    requires LoopRate(clips) != 0
    requires Mix(Snapshot(clips), t, ChunkSize as real / LoopRate(clips) as real).Ok?
    ensures var c := Mix(Snapshot(clips), t, ChunkSize as real / LoopRate(clips) as real).value;
      c.rate == LoopRate(clips) && |DeviceFrames(c)| == ChunkSize
  {
    var sr := LoopRate(clips);
    var d := ChunkSize as real / sr as real;
    ChunkShape(Snapshot(clips), t, d);
    if clips != [] {
      assert Snapshot(clips)[0].sampleRate == sr;
      assert d * sr as real == ChunkSize as real;
    }
  }

  /** What `play()` did. */
  datatype PlayOutcome =
    | NoDevice        // PyAudio missing: an error is shown, nothing changes
    | Resumed         // was paused: the running loop carries on
    | AlreadyPlaying  // nothing to do
    | Started         // a new playback loop is launched

  /** How one iteration of the playback loop ended. */
  datatype StepOutcome =
    | Cancelled                         // the stop event was set: the loop ends
    | Idle                              // paused: sleep and check again
    | ReachedEnd                        // current_time >= total_duration: the loop ends
    | Failed                            // an exception ended the loop
    | Wrote(frames: seq<StereoFrame>)   // one buffer handed to the device

  /** The buffer written to the device for a mixer result: silence when there are no clips. */
  function DeviceFrames(c: Chunk): seq<StereoFrame> {
    if c.frames.Some? then c.frames.value else seq(ChunkSize, _ => Silence)
  }

  /** Every clip's audio is a rectangular array, as numpy guarantees. */
  ghost predicate ShapedClips(clips: seq<AudioClip>) {
    forall c :: c in clips ==> c.audio.Some? ==> WellShaped(c.audio.value)
  }

  /** `mixed[buf_start:buf_end] += audio_chunk`, with mono data sent to both channels. */
  method AddClipSlice(mixed: array<StereoFrame>, audio: AudioData, s: Span)
    requires WellShaped(audio) && Mixable(audio)
    requires 0 <= s.bufStart <= s.bufEnd <= mixed.Length
    requires 0 <= s.srcStart && s.srcEnd <= FrameCount(audio)
    requires s.bufEnd - s.bufStart == s.srcEnd - s.srcStart
    modifies mixed
    ensures forall i :: 0 <= i < mixed.Length ==>
      mixed[i] == if s.bufStart <= i < s.bufEnd
                  then Add(old(mixed[i]), FrameAt(audio, i - s.bufStart + s.srcStart))
                  else old(mixed[i])
  {
    var j := s.bufStart;
    while j < s.bufEnd
      invariant s.bufStart <= j <= s.bufEnd
      invariant forall i :: 0 <= i < mixed.Length ==>
        mixed[i] == if s.bufStart <= i < j
                    then Add(old(mixed[i]), FrameAt(audio, i - s.bufStart + s.srcStart))
                    else old(mixed[i])
    {
      var k := j - s.bufStart + s.srcStart;
      var frame := match audio
        case Mono(v) => StereoFrame(v[k], v[k])
        case Frames(w, rows) =>
          if w == 1 then StereoFrame(rows[k][0], rows[k][0]) else StereoFrame(rows[k][0], rows[k][1]);
      mixed[j] := Add(mixed[j], frame);
      j := j + 1;
    }
  }

  /** `np.max(np.abs(mixed))`. */
  method PeakOf(mixed: array<StereoFrame>) returns (peak: real)
    ensures peak == Peak(mixed[..])
  {
    peak := 0.0;
    var i := 0;
    while i < mixed.Length
      invariant 0 <= i <= mixed.Length
      invariant peak == Peak(mixed[..i])
    {
      assert mixed[..i + 1][..i] == mixed[..i];
      peak := Max(peak, Magnitude(mixed[i]));
      i := i + 1;
    }
    assert mixed[..i] == mixed[..];
  }

  /** `mixed /= peak`. */
  method DivideInPlace(mixed: array<StereoFrame>, peak: real)
    requires peak != 0.0
    modifies mixed
    ensures mixed[..] == Scale(old(mixed[..]), peak)
  {
    var i := 0;
    while i < mixed.Length
      invariant 0 <= i <= mixed.Length
      invariant forall j :: 0 <= j < i ==> mixed[j] == ScaleFrame(old(mixed[j]), peak)
      invariant forall j :: i <= j < mixed.Length ==> mixed[j] == old(mixed[j])
    {
      mixed[i] := ScaleFrame(mixed[i], peak);
      i := i + 1;
    }
  }

  /** `if has_audio: peak = np.max(np.abs(mixed)); if peak > 1.0: mixed /= peak`. */
  method NormalizeInPlace(mixed: array<StereoFrame>, hasAudio: bool)
    modifies mixed
    ensures mixed[..] == NormalizePeak(old(mixed[..]), hasAudio)
  {
    if hasAudio {
      var peak := PeakOf(mixed);
      if peak > 1.0 {
        DivideInPlace(mixed, peak);
      }
    }
  }

  /**
   * One pass of the loop over `app.clips`: skip a muted or empty clip,
   * otherwise add its overlapping slice, or fail on a slice numpy cannot
   * broadcast into the buffer.
   */
  method MixClipInto(mixed: array<StereoFrame>, clip: AudioClip, sr: int, winStart: int)
    returns (contributed: bool, refused: bool)
    requires clip.audio.Some? ==> WellShaped(clip.audio.value)
    modifies mixed
    ensures contributed == Contributes(clip.View(), sr, winStart, mixed.Length)
    ensures refused == Refused(clip.View(), sr, winStart, mixed.Length)
    ensures !refused ==> mixed[..] == Layer(old(mixed[..]), clip.View(), sr, winStart)
  {
    contributed, refused := false, false;
    var n := mixed.Length;
    ghost var c := clip.View();
    if !clip.muted && clip.audio.Some? {
      var audio := clip.audio.value;
      var s := Overlap(winStart, n, SampleIndex(clip.startTime, sr), FrameCount(audio));
      if s.bufStart < s.bufEnd {
        contributed := true;
        if !Mixable(audio) {
          refused := true;
          return;
        }
        AddClipSlice(mixed, audio, s);
      }
    }
    forall i | 0 <= i < n
      ensures mixed[i] == Add(old(mixed[i]), Contribution(c, sr, winStart + i))
    {
      ContributionBySpan(c, sr, winStart, n, i);
    }
    assert mixed[..] == Layer(old(mixed[..]), c, sr, winStart);
  }

  class AudioPlayer {
    /** `self.p is not None`: PyAudio could be opened. */
    const deviceAvailable: bool
    var playing: bool
    var paused: bool
    var currentTime: real
    /** `stop_event.is_set()`. */
    var stopRequested: bool

    constructor (deviceAvailable: bool)
      ensures this.deviceAvailable == deviceAvailable
      ensures !playing && !paused && currentTime == 0.0 && !stopRequested
    {
      this.deviceAvailable := deviceAvailable;
      playing := false;
      paused := false;
      currentTime := 0.0;
      stopRequested := false;
    }

    /**
     * `get_mixed_audio_chunk(start_time, duration)`: a zeroed (n, 2) buffer
     * of n = int(duration * sr) frames, each unmuted clip's overlapping
     * slice added in place, then the whole buffer divided by its peak if
     * anything was added and the peak exceeds 1.0.
     */
    method GetMixedAudioChunk(clips: seq<AudioClip>, startTime: real, duration: real)
      returns (r: Result<Chunk, MixError>)
      requires ShapedClips(clips)
      ensures r == Mix(Snapshot(clips), startTime, duration)
    {
      ghost var views := Snapshot(clips);
      if |clips| == 0 {
        return Ok(Chunk(None, DefaultRate));
      }
      var sr := clips[0].sampleRate;
      var n := SampleIndex(duration, sr);
      if n < 0 {
        return Err(NegativeFrameCount);
      }
      var g := SampleIndex(startTime, sr);
      var mixed := new StereoFrame[n](_ => Silence);
      var hasAudio := false;
      var k := 0;
      assert views[..0] == [];
      forall i | 0 <= i < n
        ensures mixed[i] == RawMix(views[..0], sr, g, n)[i]
      {
        assert RawMix(views[..0], sr, g, n)[i] == SumAt([], sr, g + i) == Silence;
      }
      while k < |clips|
        invariant 0 <= k <= |clips|
        invariant views == Snapshot(clips)
        invariant mixed[..] == RawMix(views[..k], sr, g, n)
        invariant hasAudio == AnyContributes(views[..k], sr, g, n)
        invariant !AnyRefused(views[..k], sr, g, n)
      {
        var clip := clips[k];
        assert views[k] == clip.View();
        var contributed, refused := MixClipInto(mixed, clip, sr, g);
        AnyStep(views, k, sr, g, n);
        hasAudio := hasAudio || contributed;
        if refused {
          MixRefuses(views, startTime, duration, k);
          return Err(ChannelMismatch);
        }
        RawMixStep(views, k, sr, g, n);
        k := k + 1;
      }
      assert views[..k] == views;
      assert mixed[..] == RawMix(views, sr, g, n);
      MixUnfolds(views, startTime, duration);
      NormalizeInPlace(mixed, hasAudio);
      r := Ok(Chunk(Some(mixed[..]), sr));
    }

    /**
     * `play()`: without a device nothing changes; a paused player resumes;
     * a playing one is left alone; otherwise playback starts from the
     * current time with the stop event cleared.
     */
    method Play() returns (outcome: PlayOutcome)
      modifies this`playing, this`paused, this`stopRequested
      ensures !deviceAvailable ==> outcome == NoDevice && unchanged(this)
      ensures deviceAvailable && old(playing) && old(paused) ==>
        outcome == Resumed && playing && !paused && stopRequested == old(stopRequested)
      ensures deviceAvailable && old(playing) && !old(paused) ==> outcome == AlreadyPlaying && unchanged(this)
      ensures deviceAvailable && !old(playing) ==> outcome == Started && playing && !paused && !stopRequested
    {
      if !deviceAvailable {
        return NoDevice;
      }
      if playing && paused {
        paused := false;
        return Resumed;
      }
      if playing {
        return AlreadyPlaying;
      }
      playing := true;
      paused := false;
      stopRequested := false;
      return Started;
    }

    /** `pause()`: sets the flag whatever the state. */
    method Pause()
      modifies this`paused
      ensures paused
    {
      paused := true;
    }

    /** `stop()`: signal the loop to end and rewind to 0. */
    method Stop()
      modifies this`stopRequested, this`playing, this`paused, this`currentTime
      ensures stopRequested && !playing && !paused && currentTime == 0.0
    {
      stopRequested := true;
      playing := false;
      paused := false;
      currentTime := 0.0;
    }

    /** `seek(t)`: stores t as given; the callers clamp it. */
    method Seek(t: real)
      modifies this`currentTime
      ensures currentTime == t
    {
      currentTime := t;
    }

    /**
     * One iteration of `_playback_loop` at loop rate `sr`, reading the clip
     * list and `total_duration` as they are now. A step that ends the loop
     * also runs its `finally` block, which clears `playing`.
     */
    method PlaybackStep(clips: seq<AudioClip>, totalDuration: real, sr: int) returns (outcome: StepOutcome)
      requires ShapedClips(clips)
      modifies this`playing, this`currentTime
      ensures stopRequested ==> outcome == Cancelled && !playing && currentTime == old(currentTime)
      ensures !stopRequested && paused ==> outcome == Idle && unchanged(this)
      ensures !stopRequested && !paused && old(currentTime) >= totalDuration ==>
        outcome == ReachedEnd && !playing && currentTime == old(currentTime)
      ensures !stopRequested && !paused && old(currentTime) < totalDuration && sr == 0 ==>
        outcome == Failed && !playing && currentTime == old(currentTime)
      ensures !stopRequested && !paused && old(currentTime) < totalDuration && sr != 0 ==>
        var step := ChunkSize as real / sr as real;
        match Mix(Snapshot(clips), old(currentTime), step)
        case Err(_) => outcome == Failed && !playing && currentTime == old(currentTime)
        case Ok(chunk) =>
          outcome == Wrote(DeviceFrames(chunk)) && playing == old(playing) && currentTime == old(currentTime) + step
    {
      if stopRequested {
        playing := false;
        return Cancelled;
      }
      if paused {
        return Idle;
      }
      if currentTime >= totalDuration {
        playing := false;
        return ReachedEnd;
      }
      if sr == 0 {
        // CHUNK_SIZE / sr raises ZeroDivisionError
        playing := false;
        return Failed;
      }
      var duration := ChunkSize as real / sr as real;
      var r := GetMixedAudioChunk(clips, currentTime, duration);
      if r.Err? {
        playing := false;
        return Failed;
      }
      outcome := Wrote(DeviceFrames(r.value));
      currentTime := currentTime + duration;
    }
  }
}
