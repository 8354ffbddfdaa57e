/**
 * `_load_wav_file_as_float`: integer PCM is divided by the full-scale
 * maximum of its sample type, and 1-D or single-column data is widened to
 * two identical channels. The file read itself is an input: its sample type
 * and its samples (as numbers) are given.
 */
module WavLoad {
  import opened Audio

  /** The sample types a WAV reader can return. */
  datatype SampleType = UInt8 | Int16 | Int32 | Int64 | Float32 | Float64

  predicate IsInteger(t: SampleType) {
    t != Float32 && t != Float64
  }

  /** `np.iinfo(t).max`. */
  function FullScale(t: SampleType): nat
    requires IsInteger(t)
  {
    match t
    case UInt8 => 255
    case Int16 => 32767
    case Int32 => 2147483647
    case Int64 => 9223372036854775807
  }

  /** `np.iinfo(t).min`. */
  function FullScaleMin(t: SampleType): int
    requires IsInteger(t)
  {
    match t
    case UInt8 => 0
    case Int16 => -32768
    case Int32 => -2147483648
    case Int64 => -9223372036854775808
  }

  /** One sample as a float: integers are divided by the type's maximum. */
  function ToFloat(t: SampleType, x: real): real {
    if IsInteger(t) then x / FullScale(t) as real else x
  }

  function ToFloatRow(t: SampleType, row: seq<real>): seq<real> {
    seq(|row|, i requires 0 <= i < |row| => ToFloat(t, row[i]))
  }

  /** The data as `_load_wav_file_as_float` returns it. */
  function LoadAsFloat(t: SampleType, data: AudioData): (r: AudioData)
    requires WellShaped(data)
    ensures WellShaped(r) && r.Frames?
    ensures FrameCount(r) == FrameCount(data)
    ensures r.width == if data.Mono? || data.width == 1 then 2 else data.width
  {
    match data
    case Mono(s) =>
      Frames(2, seq(|s|, k requires 0 <= k < |s| => [ToFloat(t, s[k]), ToFloat(t, s[k])]))
    case Frames(w, rows) =>
      if w == 1 then
        Frames(2, seq(|rows|, k requires 0 <= k < |rows| && |rows[k]| == 1 =>
          [ToFloat(t, rows[k][0]), ToFloat(t, rows[k][0])]))
      else
        Frames(w, seq(|rows|, k requires 0 <= k < |rows| => ToFloatRow(t, rows[k])))
  }

  /** Every sample of `a` lies in [lo, hi]. */
  ghost predicate SamplesWithin(a: AudioData, lo: real, hi: real) {
    match a
    case Mono(s) => forall k :: 0 <= k < |s| ==> lo <= s[k] <= hi
    case Frames(_, rows) =>
      forall k, c :: 0 <= k < |rows| && 0 <= c < |rows[k]| ==> lo <= rows[k][c] <= hi
  }

  /** One frame divided by the full scale of its sample type, channel by channel. */
  function ToFloatFrame(t: SampleType, f: StereoFrame): StereoFrame {
    StereoFrame(ToFloat(t, f.left), ToFloat(t, f.right))
  }

  /**
   * Widening at load time is inaudible to the mixer: every frame of the
   * loaded two-channel array adds the same stereo frame as the raw 1-D,
   * single-column or two-column data would, only rescaled.
   */
  lemma LoadedFramesMixAsSource(t: SampleType, data: AudioData, k: int)
    requires WellShaped(data) && Mixable(data)
    ensures FrameAt(LoadAsFloat(t, data), k) == ToFloatFrame(t, FrameAt(data, k))
  {
  }

  /**
   * Integer samples within their type's range come out in
   * [min / max, 1.0]: [-1 - 1/max, 1] for the signed types and [0, 1]
   * for unsigned 8-bit data.
   */
  lemma LoadedIntegerSamplesInRange(t: SampleType, data: AudioData)
    requires IsInteger(t) && WellShaped(data)
    requires SamplesWithin(data, FullScaleMin(t) as real, FullScale(t) as real)
    ensures SamplesWithin(LoadAsFloat(t, data), FullScaleMin(t) as real / FullScale(t) as real, 1.0)
  {
    var m := FullScale(t) as real;
    var lo := FullScaleMin(t) as real;
    forall x: real | lo <= x <= m
      ensures lo / m <= ToFloat(t, x) <= 1.0
    {
      DivideMonotone(lo, x, m);
      DivideMonotone(x, m, m);
    }
  }

  lemma DivideMonotone(a: real, b: real, m: real)
    requires 0.0 < m && a <= b
    ensures a / m <= b / m
  {
    assert b / m - a / m == (b - a) / m;
  }

  /** Float data is kept as it is; only its shape is widened. */
  lemma FloatStereoLoadsUnchanged(t: SampleType, data: AudioData)
    requires !IsInteger(t) && WellShaped(data) && data.Frames? && data.width == 2
    ensures LoadAsFloat(t, data) == data
  {
    var r := LoadAsFloat(t, data);
    assert |r.rows| == |data.rows|;
    forall k | 0 <= k < |data.rows|
      ensures r.rows[k] == data.rows[k]
    {
      assert |r.rows[k]| == |data.rows[k]| == 2;
    }
  }
}
