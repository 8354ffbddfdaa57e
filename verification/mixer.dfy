/**
 * The window mixer `AudioPlayer.get_mixed_audio_chunk`, stated as pure
 * functions over a snapshot of the clip list. Positions are integer sample
 * indices; every clip is placed with the FIRST clip's sample rate, as in the
 * source; no resampling happens.
 */
module Mixer {
  import opened Common
  import opened Audio

  /** The rate returned when there are no clips at all. */
  const DefaultRate: int := 44100

  /** What the mixer reads of one clip. */
  datatype ClipState = ClipState(muted: bool, audio: Option<AudioData>, startTime: real, sampleRate: int)

  /** The returned pair `(mixed, sr)`; `frames` is `None` when there are no clips. */
  datatype Chunk = Chunk(frames: Option<seq<StereoFrame>>, rate: int)

  /** The exceptions numpy raises inside the mixer. */
  datatype MixError =
    | NegativeFrameCount   // np.zeros with a negative length
    | ChannelMismatch      // a slice with neither 1 nor 2 columns does not broadcast into (n, 2)

  predicate Audible(c: ClipState) {
    !c.muted && c.audio.Some?
  }

  /** `int(t * sr)`: seconds to a global sample index. */
  function SampleIndex(t: real, sr: int): int {
    TruncToInt(t * sr as real)
  }

  /** The slice bounds of one clip inside one window, in buffer and in clip coordinates. */
  datatype Span = Span(bufStart: int, bufEnd: int, srcStart: int, srcEnd: int) {
    predicate NonEmpty() { bufStart < bufEnd }
  }

  /**
   * The overlap of the window [winStart, winStart + n) with the clip's
   * samples [clipStart, clipStart + len), as buffer and source offsets.
   */
  function Overlap(winStart: int, n: nat, clipStart: int, len: nat): (s: Span)
    ensures s.bufEnd - s.bufStart == s.srcEnd - s.srcStart
    ensures s.srcStart - s.bufStart == winStart - clipStart
    ensures s.NonEmpty() ==> 0 <= s.bufStart < s.bufEnd <= n && 0 <= s.srcStart < s.srcEnd <= len
  {
    var lo := if winStart >= clipStart then winStart else clipStart;
    var hi := if winStart + n <= clipStart + len then winStart + n else clipStart + len;
    Span(lo - winStart, hi - winStart, lo - clipStart, hi - clipStart)
  }

  /** A buffer frame lies in the span exactly when it is in the window and under the clip. */
  lemma OverlapExact(winStart: int, n: nat, clipStart: int, len: nat, i: int)
    ensures var s := Overlap(winStart, n, clipStart, len);
      s.bufStart <= i < s.bufEnd <==> 0 <= i < n && clipStart <= winStart + i < clipStart + len
  {
  }

  function ClipSpan(c: ClipState, sr: int, winStart: int, n: nat): Span
    requires c.audio.Some?
  {
    Overlap(winStart, n, SampleIndex(c.startTime, sr), FrameCount(c.audio.value))
  }

  /** The clip is unmuted, has audio, and shares at least one sample with the window. */
  predicate Contributes(c: ClipState, sr: int, winStart: int, n: nat) {
    Audible(c) && ClipSpan(c, sr, winStart, n).NonEmpty()
  }

  /** The clip would be added, but its slice cannot be broadcast into the buffer. */
  predicate Refused(c: ClipState, sr: int, winStart: int, n: nat) {
    Contributes(c, sr, winStart, n) && !Mixable(c.audio.value)
  }

  /** What clip `c` adds at global sample `pos`. */
  function Contribution(c: ClipState, sr: int, pos: int): StereoFrame {
    if !Audible(c) then Silence
    else FrameAt(c.audio.value, pos - SampleIndex(c.startTime, sr))
  }

  /** The sum of all clips' contributions at global sample `pos`, in list order. */
  function SumAt(clips: seq<ClipState>, sr: int, pos: int): StereoFrame {
    if clips == [] then Silence
    else Add(SumAt(clips[..|clips| - 1], sr, pos), Contribution(clips[|clips| - 1], sr, pos))
  }

  /** The buffer before peak normalisation: frame i is the sum at winStart + i. */
  function RawMix(clips: seq<ClipState>, sr: int, winStart: int, n: nat): seq<StereoFrame> {
    seq(n, i => SumAt(clips, sr, winStart + i))
  }

  /** `buf` with clip `c`'s contribution added to every frame: one pass of the clip loop. */
  function Layer(buf: seq<StereoFrame>, c: ClipState, sr: int, winStart: int): seq<StereoFrame> {
    seq(|buf|, i requires 0 <= i < |buf| => Add(buf[i], Contribution(c, sr, winStart + i)))
  }

  /** Layering the next clip onto the mix of the first k clips gives the mix of the first k + 1. */
  lemma RawMixStep(clips: seq<ClipState>, k: int, sr: int, winStart: int, n: nat)
    requires 0 <= k < |clips|
    ensures RawMix(clips[..k + 1], sr, winStart, n) == Layer(RawMix(clips[..k], sr, winStart, n), clips[k], sr, winStart)
  {
    var next := clips[..k + 1];
    assert next[..k] == clips[..k];
    assert next[k] == clips[k];
    forall i | 0 <= i < n
      ensures RawMix(next, sr, winStart, n)[i] == Layer(RawMix(clips[..k], sr, winStart, n), clips[k], sr, winStart)[i]
    {
      assert RawMix(next, sr, winStart, n)[i] == SumAt(next, sr, winStart + i);
    }
  }

  predicate AnyContributes(clips: seq<ClipState>, sr: int, winStart: int, n: nat) {
    exists k :: 0 <= k < |clips| && Contributes(clips[k], sr, winStart, n)
  }

  predicate AnyRefused(clips: seq<ClipState>, sr: int, winStart: int, n: nat) {
    exists k :: 0 <= k < |clips| && Refused(clips[k], sr, winStart, n)
  }

  /** The two flags over the first k + 1 clips, from those over the first k. */
  lemma AnyStep(clips: seq<ClipState>, k: int, sr: int, winStart: int, n: nat)
    requires 0 <= k < |clips|
    ensures AnyContributes(clips[..k + 1], sr, winStart, n) ==
      (AnyContributes(clips[..k], sr, winStart, n) || Contributes(clips[k], sr, winStart, n))
    ensures AnyRefused(clips[..k + 1], sr, winStart, n) ==
      (AnyRefused(clips[..k], sr, winStart, n) || Refused(clips[k], sr, winStart, n))
  {
    var front, next := clips[..k], clips[..k + 1];
    assert forall j :: 0 <= j < k ==> next[j] == front[j];
    assert next[k] == clips[k];
  }

  function Magnitude(f: StereoFrame): real {
    Max(Abs(f.left), Abs(f.right))
  }

  /** `np.max(np.abs(mixed))`, and 0 for an empty buffer. */
  function Peak(buf: seq<StereoFrame>): real {
    if buf == [] then 0.0 else Max(Peak(buf[..|buf| - 1]), Magnitude(buf[|buf| - 1]))
  }

  /** The peak bounds every frame's magnitude and is attained by one of them. */
  lemma {:induction false} PeakIsMaximum(buf: seq<StereoFrame>)
    ensures Peak(buf) >= 0.0
    ensures forall i :: 0 <= i < |buf| ==> Magnitude(buf[i]) <= Peak(buf)
    ensures buf != [] ==> exists i :: 0 <= i < |buf| && Magnitude(buf[i]) == Peak(buf)
    decreases |buf|
  {
    if buf != [] {
      var front := buf[..|buf| - 1];
      PeakIsMaximum(front);
      assert forall i :: 0 <= i < |front| ==> front[i] == buf[i];
      if front != [] && Peak(front) >= Magnitude(buf[|buf| - 1]) {
        var j :| 0 <= j < |front| && Magnitude(front[j]) == Peak(front);
        assert Magnitude(buf[j]) == Peak(buf);
      } else {
        assert Magnitude(buf[|buf| - 1]) == Peak(buf);
      }
    }
  }

  function ScaleFrame(f: StereoFrame, p: real): StereoFrame
    requires p != 0.0
  {
    StereoFrame(f.left / p, f.right / p)
  }

  /** `mixed /= peak`. */
  function Scale(buf: seq<StereoFrame>, p: real): seq<StereoFrame>
    requires p != 0.0
  {
    seq(|buf|, i requires 0 <= i < |buf| => ScaleFrame(buf[i], p))
  }

  /** `if has_audio: peak = ...; if peak > 1.0: mixed /= peak`. */
  function NormalizePeak(buf: seq<StereoFrame>, hasAudio: bool): seq<StereoFrame> {
    if hasAudio && Peak(buf) > 1.0 then Scale(buf, Peak(buf)) else buf
  }

  /** `get_mixed_audio_chunk(start_time, duration)` over a snapshot of `app.clips`. */
  function Mix(clips: seq<ClipState>, startTime: real, duration: real): Result<Chunk, MixError> {
    if clips == [] then Ok(Chunk(None, DefaultRate))
    else
      var sr := clips[0].sampleRate;
      var n := SampleIndex(duration, sr);
      if n < 0 then Err(NegativeFrameCount)
      else
        var g := SampleIndex(startTime, sr);
        if AnyRefused(clips, sr, g, n) then Err(ChannelMismatch)
        else Ok(Chunk(Some(NormalizePeak(RawMix(clips, sr, g, n), AnyContributes(clips, sr, g, n))), sr))
  }

  // ---------------------------------------------------------------------
  // Properties of the mixer

  /**
   * Inside the clip's span, buffer frame i receives clip frame
   * i + winStart - clipStart; outside it, the clip adds nothing.
   */
  lemma ContributionBySpan(c: ClipState, sr: int, winStart: int, n: nat, i: int)
    requires 0 <= i < n
    ensures Audible(c) && ClipSpan(c, sr, winStart, n).bufStart <= i < ClipSpan(c, sr, winStart, n).bufEnd ==>
      Contribution(c, sr, winStart + i) ==
        FrameAt(c.audio.value, i - ClipSpan(c, sr, winStart, n).bufStart + ClipSpan(c, sr, winStart, n).srcStart)
    ensures !(Audible(c) && ClipSpan(c, sr, winStart, n).bufStart <= i < ClipSpan(c, sr, winStart, n).bufEnd) ==>
      Contribution(c, sr, winStart + i) == Silence
  {
    if Audible(c) {
      OverlapExact(winStart, n, SampleIndex(c.startTime, sr), FrameCount(c.audio.value), i);
    }
  }

  /** Mixing is additive: the sum over a concatenated clip list is the sum of the sums. */
  lemma {:induction false} SumAtAppend(a: seq<ClipState>, b: seq<ClipState>, sr: int, pos: int)
    ensures SumAt(a + b, sr, pos) == Add(SumAt(a, sr, pos), SumAt(b, sr, pos))
    decreases |b|
  {
    if b == [] {
      assert a + b == a;
    } else {
      var b' := b[..|b| - 1];
      assert (a + b)[..|a + b| - 1] == a + b';
      assert (a + b)[|a + b| - 1] == b[|b| - 1];
      SumAtAppend(a, b', sr, pos);
    }
  }

  /** Below the limit the raw buffer of two clip sets is the frame-wise sum of theirs. */
  lemma RawMixAdditive(a: seq<ClipState>, b: seq<ClipState>, sr: int, winStart: int, n: nat)
    ensures forall i :: 0 <= i < n ==>
      RawMix(a + b, sr, winStart, n)[i] == Add(RawMix(a, sr, winStart, n)[i], RawMix(b, sr, winStart, n)[i])
  {
    forall i | 0 <= i < n
      ensures RawMix(a + b, sr, winStart, n)[i] == Add(RawMix(a, sr, winStart, n)[i], RawMix(b, sr, winStart, n)[i])
    {
      var pos := winStart + i;
      assert RawMix(a + b, sr, winStart, n)[i] == SumAt(a + b, sr, pos);
      assert RawMix(a, sr, winStart, n)[i] == SumAt(a, sr, pos);
      assert RawMix(b, sr, winStart, n)[i] == SumAt(b, sr, pos);
      SumAtAppend(a, b, sr, pos);
    }
  }

  /** A muted clip, or one without audio, changes no sample of the raw buffer. */
  lemma MutedClipChangesNothing(clips: seq<ClipState>, k: int, sr: int, winStart: int, n: nat)
    requires 0 <= k < |clips| && !Audible(clips[k])
    ensures RawMix(clips, sr, winStart, n) == RawMix(clips[..k] + clips[k + 1..], sr, winStart, n)
  {
    var front, back := clips[..k], clips[k + 1..];
    assert clips == (front + [clips[k]]) + back;
    forall i | 0 <= i < n
      ensures RawMix(clips, sr, winStart, n)[i] == RawMix(front + back, sr, winStart, n)[i]
    {
      SumAtSkipsSilent(front, clips[k], back, sr, winStart + i);
    }
  }

  lemma SumAtSkipsSilent(front: seq<ClipState>, c: ClipState, back: seq<ClipState>, sr: int, pos: int)
    requires !Audible(c)
    ensures SumAt((front + [c]) + back, sr, pos) == SumAt(front + back, sr, pos)
  {
    var f, b := SumAt(front, sr, pos), SumAt(back, sr, pos);
    assert SumAt([c], sr, pos) == Silence by {
      assert [c][..0] == [];
    }
    assert SumAt(front + [c], sr, pos) == f by {
      SumAtAppend(front, [c], sr, pos);
    }
    calc {
      SumAt((front + [c]) + back, sr, pos);
      { SumAtAppend(front + [c], back, sr, pos); }
      Add(f, b);
      { SumAtAppend(front, back, sr, pos); }
      SumAt(front + back, sr, pos);
    }
  }

  /** With no contributing clip every raw frame is silent. */
  lemma {:induction false} SilentWithoutContributors(clips: seq<ClipState>, sr: int, winStart: int, n: nat, i: int)
    requires 0 <= i < n && !AnyContributes(clips, sr, winStart, n)
    ensures SumAt(clips, sr, winStart + i) == Silence
    decreases |clips|
  {
    if clips != [] {
      var front := clips[..|clips| - 1];
      assert !AnyContributes(front, sr, winStart, n) by {
        forall k | 0 <= k < |front| ensures !Contributes(front[k], sr, winStart, n) {
          assert front[k] == clips[k];
        }
      }
      SilentWithoutContributors(front, sr, winStart, n, i);
      ContributionBySpan(clips[|clips| - 1], sr, winStart, n, i);
    }
  }

  /** If every clip is muted or empty, the chunk is all zeros, with no scaling. */
  lemma AllMutedIsSilent(clips: seq<ClipState>, startTime: real, duration: real)
    requires clips != [] && forall k :: 0 <= k < |clips| ==> !Audible(clips[k])
    requires SampleIndex(duration, clips[0].sampleRate) >= 0
    ensures var n := SampleIndex(duration, clips[0].sampleRate);
      Mix(clips, startTime, duration) == Ok(Chunk(Some(seq(n, _ => Silence)), clips[0].sampleRate))
  {
    var sr := clips[0].sampleRate;
    var n := SampleIndex(duration, sr);
    var g := SampleIndex(startTime, sr);
    assert !AnyContributes(clips, sr, g, n);
    assert !AnyRefused(clips, sr, g, n);
    MixUnfolds(clips, startTime, duration);
    SilentRawMix(clips, sr, g, n);
  }

  lemma SilentRawMix(clips: seq<ClipState>, sr: int, winStart: int, n: nat)
    requires !AnyContributes(clips, sr, winStart, n)
    ensures RawMix(clips, sr, winStart, n) == seq(n, _ => Silence)
  {
    forall i | 0 <= i < n ensures RawMix(clips, sr, winStart, n)[i] == Silence {
      SilentWithoutContributors(clips, sr, winStart, n, i);
    }
  }

  /** One clip whose slice cannot be broadcast makes the whole call fail. */
  lemma MixRefuses(clips: seq<ClipState>, startTime: real, duration: real, k: int)
    requires 0 <= k < |clips| && SampleIndex(duration, clips[0].sampleRate) >= 0
    requires var sr := clips[0].sampleRate;
      Refused(clips[k], sr, SampleIndex(startTime, sr), SampleIndex(duration, sr))
    ensures Mix(clips, startTime, duration) == Err(ChannelMismatch)
  {
  }

  /** Mix, once the error cases are excluded. */
  lemma MixUnfolds(clips: seq<ClipState>, startTime: real, duration: real)
    requires clips != []
    requires var sr := clips[0].sampleRate; var n := SampleIndex(duration, sr);
      n >= 0 && !AnyRefused(clips, sr, SampleIndex(startTime, sr), n)
    ensures var sr := clips[0].sampleRate; var n := SampleIndex(duration, sr); var g := SampleIndex(startTime, sr);
      Mix(clips, startTime, duration) == Ok(Chunk(Some(NormalizePeak(RawMix(clips, sr, g, n), AnyContributes(clips, sr, g, n))), sr))
  {
  }

  /** The `has_audio` guard never changes the result: without contributors the peak is 0. */
  lemma HasAudioGuardIsRedundant(clips: seq<ClipState>, sr: int, winStart: int, n: nat)
    ensures NormalizePeak(RawMix(clips, sr, winStart, n), AnyContributes(clips, sr, winStart, n))
         == NormalizePeak(RawMix(clips, sr, winStart, n), true)
  {
    if !AnyContributes(clips, sr, winStart, n) {
      SilentRawMix(clips, sr, winStart, n);
      SilencePeak(n);
    }
  }

  lemma {:induction false} SilencePeak(n: nat)
    ensures Peak(seq(n, _ => Silence)) == 0.0
  {
    if n > 0 {
      assert seq(n, _ => Silence)[..n - 1] == seq(n - 1, _ => Silence);
      SilencePeak(n - 1);
    }
  }

  /** Dividing every sample by p > 0 divides every frame's magnitude by p. */
  lemma MagnitudeOfScaled(f: StereoFrame, p: real)
    requires p > 0.0
    ensures Magnitude(ScaleFrame(f, p)) == Magnitude(f) / p
  {
    AbsOfQuotient(f.left, p);
    AbsOfQuotient(f.right, p);
    if Abs(f.left) >= Abs(f.right) {
      assert Abs(f.left) / p >= Abs(f.right) / p by { QuotientMonotone(Abs(f.right), Abs(f.left), p); }
    } else {
      assert Abs(f.right) / p >= Abs(f.left) / p by { QuotientMonotone(Abs(f.left), Abs(f.right), p); }
    }
  }

  lemma AbsOfQuotient(x: real, p: real)
    requires p > 0.0
    ensures Abs(x / p) == Abs(x) / p
  {
    if x < 0.0 {
      assert x / p < 0.0;
      assert -(x / p) == (-x) / p;
    } else {
      assert x / p >= 0.0;
    }
  }

  lemma QuotientMonotone(a: real, b: real, p: real)
    requires p > 0.0 && a <= b
    ensures a / p <= b / p
  {
    assert b / p - a / p == (b - a) / p;
  }

  /**
   * Soft limiting: when the raw peak exceeds 1.0, every frame is divided by
   * that same peak and the resulting peak is exactly 1.0.
   */
  lemma NormalizedPeakIsOne(buf: seq<StereoFrame>)
    requires Peak(buf) > 1.0
    ensures var out := NormalizePeak(buf, true);
      |out| == |buf| &&
      (forall i :: 0 <= i < |buf| ==> out[i] == ScaleFrame(buf[i], Peak(buf))) &&
      Peak(out) == 1.0
  {
    var p := Peak(buf);
    var out := Scale(buf, p);
    PeakIsMaximum(buf);
    var j :| 0 <= j < |buf| && Magnitude(buf[j]) == p;
    ScaledMagnitudes(buf, p, j);
    PeakIsMaximum(out);
    var m :| 0 <= m < |out| && Magnitude(out[m]) == Peak(out);
  }

  /** After division by the peak, no frame exceeds 1.0 and the loudest one is exactly 1.0. */
  lemma ScaledMagnitudes(buf: seq<StereoFrame>, p: real, j: int)
    requires p > 0.0 && 0 <= j < |buf| && Magnitude(buf[j]) == p
    requires forall i :: 0 <= i < |buf| ==> Magnitude(buf[i]) <= p
    ensures forall i :: 0 <= i < |buf| ==> Magnitude(Scale(buf, p)[i]) <= 1.0
    ensures Magnitude(Scale(buf, p)[j]) == 1.0
  {
    QuotientOfItself(p);
    forall i | 0 <= i < |buf| ensures Magnitude(Scale(buf, p)[i]) <= 1.0 {
      assert Scale(buf, p)[i] == ScaleFrame(buf[i], p);
      MagnitudeOfScaled(buf[i], p);
      QuotientMonotone(Magnitude(buf[i]), p, p);
    }
    assert Scale(buf, p)[j] == ScaleFrame(buf[j], p);
    MagnitudeOfScaled(buf[j], p);
  }

  lemma QuotientOfItself(p: real)
    requires p > 0.0
    ensures p / p == 1.0
  {
    assert 1.0 * p == p;
  }

  /** At or below the limit, the chunk is exactly the raw sum of the contributions. */
  lemma BelowLimitIsRawSum(clips: seq<ClipState>, startTime: real, duration: real)
    requires clips != []
    requires Mix(clips, startTime, duration).Ok?
    requires var sr := clips[0].sampleRate;
      Peak(RawMix(clips, sr, SampleIndex(startTime, sr), SampleIndex(duration, sr))) <= 1.0
    ensures var sr := clips[0].sampleRate;
      Mix(clips, startTime, duration).value.frames ==
        Some(RawMix(clips, sr, SampleIndex(startTime, sr), SampleIndex(duration, sr)))
  {
  }

  /**
   * The chunk's shape: `(None, 44100)` without clips; otherwise, unless
   * numpy refuses, exactly int(duration * sr) frames at the first clip's rate.
   */
  lemma ChunkShape(clips: seq<ClipState>, startTime: real, duration: real)
    ensures clips == [] ==> Mix(clips, startTime, duration) == Ok(Chunk(None, 44100))
    ensures clips != [] && Mix(clips, startTime, duration).Ok? ==>
      var c := Mix(clips, startTime, duration).value;
      c.rate == clips[0].sampleRate && c.frames.Some? &&
      |c.frames.value| == SampleIndex(duration, clips[0].sampleRate)
    ensures clips != [] ==>
      (Mix(clips, startTime, duration) == Err(NegativeFrameCount) <==> SampleIndex(duration, clips[0].sampleRate) < 0)
  {
  }
}
