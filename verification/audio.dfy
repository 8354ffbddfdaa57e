/**
 * Sample buffers as the studio holds them (numpy arrays of float samples),
 * the stereo frame the mixer produces, and Python's float-to-int conversion.
 */
module Audio {

  /** One frame of the two-channel output buffer. */
  datatype StereoFrame = StereoFrame(left: real, right: real)

  const Silence: StereoFrame := StereoFrame(0.0, 0.0)

  function Add(a: StereoFrame, b: StereoFrame): StereoFrame {
    StereoFrame(a.left + b.left, a.right + b.right)
  }

  /**
   * A clip's samples: a 1-D array (`Mono`) or a 2-D array of frames with
   * `width` channels each (`Frames`).
   */
  datatype AudioData = Mono(samples: seq<real>) | Frames(width: nat, rows: seq<seq<real>>)

  /** numpy arrays are rectangular: every frame of a 2-D array has `width` channels. */
  predicate WellShaped(a: AudioData) {
    a.Frames? ==> forall k :: 0 <= k < |a.rows| ==> |a.rows[k]| == a.width
  }

  /** `len(audio)`: the number of frames (the length of the first axis). */
  function FrameCount(a: AudioData): nat {
    match a
    case Mono(s) => |s|
    case Frames(_, rows) => |rows|
  }

  /**
   * The shapes whose slices can be added into the mixer's (n, 2) buffer:
   * a 1-D array, a single column, or two columns.
   */
  predicate Mixable(a: AudioData) {
    a.Mono? || a.width == 1 || a.width == 2
  }

  /**
   * What frame `k` of `a` adds to the two output channels: a 1-D sample or
   * a single column goes to both channels, two columns go channel by
   * channel. Outside the buffer, or for a shape the mixer refuses, nothing.
   */
  function FrameAt(a: AudioData, k: int): StereoFrame {
    if k < 0 || k >= FrameCount(a) then Silence
    else match a
      case Mono(s) => StereoFrame(s[k], s[k])
      case Frames(w, rows) =>
        if w == 1 && |rows[k]| >= 1 then StereoFrame(rows[k][0], rows[k][0])
        else if w == 2 && |rows[k]| >= 2 then StereoFrame(rows[k][0], rows[k][1])
        else Silence
  }

  /**
   * A 1-D array or a single column sounds the same on both output
   * channels: frame k carries its one sample to the left and to the right.
   */
  lemma MonoFeedsBothChannels(a: AudioData, k: int)
    requires a.Mono? || a.width == 1
    requires WellShaped(a) && 0 <= k < FrameCount(a)
    ensures FrameAt(a, k).left == FrameAt(a, k).right
    ensures FrameAt(a, k).left == if a.Mono? then a.samples[k] else a.rows[k][0]
  {
  }

  /** Python's `int(r)` on a float: truncation toward zero. */
  function TruncToInt(r: real): int {
    if r >= 0.0 then r.Floor else -((-r).Floor)
  }

  /** TruncToInt drops the fractional part: it rounds toward zero, never away from it. */
  lemma TruncToIntRoundsTowardZero(r: real)
    ensures 0.0 <= r ==> TruncToInt(r) as real <= r < TruncToInt(r) as real + 1.0
    ensures r < 0.0 ==> TruncToInt(r) as real - 1.0 < r <= TruncToInt(r) as real
  {
  }
}
