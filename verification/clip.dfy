/**
 * `AudioClip`: one placed stem on the multi-track timeline. The canvas
 * drawing is left out; what is kept is the clip's placement (pixel x, lane,
 * start time), its mute flag and the drag/release gesture that moves it.
 */
module Clips {
  import opened Common
  import opened Audio
  import Mixer

  /** `len(TRACK_CONFIG)`: the number of lanes. */
  const TrackCount: int := 6
  /** `TRACK_HEIGHT`: lane height in pixels. */
  const TrackHeight: int := 70
  /** `PX_PER_SEC`: timeline zoom. */
  const PxPerSec: real := 60.0
  /** The release grid: 0.1 s at 60 px per second. */
  const GridPx: real := 6.0

  /** Python's `round(r)`: to the nearest integer, ties to the even one. */
  function RoundHalfEven(r: real): int {
    var f := r.Floor;
    var frac := r - f as real;
    if frac < 0.5 then f
    else if frac > 0.5 then f + 1
    else if f % 2 == 0 then f
    else f + 1
  }

  /** RoundHalfEven picks a nearest integer, and the even one on a tie. */
  lemma RoundHalfEvenIsNearest(r: real)
    ensures var k := RoundHalfEven(r) as real; r - 0.5 <= k <= r + 0.5
    ensures var k := RoundHalfEven(r); (k as real - r == 0.5 || r - k as real == 0.5) ==> k % 2 == 0
  {
  }

  /** `round(x / grid_px) * grid_px` in on_release. */
  function SnapToGrid(x: real): real {
    RoundHalfEven(x / GridPx) as real * GridPx
  }

  /**
   * Snapping moves x to a multiple of 6 px at most 3 px away, keeps a
   * non-negative x non-negative, and a snapped x does not move again.
   */
  lemma SnapToGridIsNearestGridPoint(x: real)
    ensures (SnapToGrid(x) / GridPx).Floor as real == SnapToGrid(x) / GridPx
    ensures x - 3.0 <= SnapToGrid(x) <= x + 3.0
    ensures x >= 0.0 ==> SnapToGrid(x) >= 0.0
    ensures SnapToGrid(SnapToGrid(x)) == SnapToGrid(x)
  {
    var k := RoundHalfEven(x / GridPx);
    RoundHalfEvenIsNearest(x / GridPx);
    assert SnapToGrid(x) / GridPx == k as real;
    assert RoundHalfEven(k as real) == k;
  }

  /** `int(dy / TRACK_HEIGHT)`: whole lanes moved, truncated toward zero. */
  function TrackOffset(dy: int): int {
    TruncToInt(dy as real / TrackHeight as real)
  }

  /** A vertical drag moves by whole lanes only once the pointer has covered a full lane. */
  lemma TrackOffsetTruncates(dy: int)
    ensures dy >= 0 ==> TrackOffset(dy) >= 0 && TrackOffset(dy) * TrackHeight <= dy < (TrackOffset(dy) + 1) * TrackHeight
    ensures dy < 0 ==> TrackOffset(dy) <= 0 && (TrackOffset(dy) - 1) * TrackHeight < dy <= TrackOffset(dy) * TrackHeight
  {
    TruncToIntRoundsTowardZero(dy as real / 70.0);
  }

  /** `max(0, orig_x + dx)`. */
  function DragX(origX: real, dx: int): (nx: real)
    ensures nx >= 0.0 && nx >= origX + dx as real
    ensures nx == 0.0 || nx == origX + dx as real
  {
    if origX + dx as real >= 0.0 then origX + dx as real else 0.0
  }

  /** `max(0, min(len(TRACK_CONFIG)-1, orig_track + int(dy / TRACK_HEIGHT)))`. */
  function DragTrack(origTrack: int, dy: int): (t: int)
    ensures 0 <= t < TrackCount
    ensures 0 <= origTrack + TrackOffset(dy) < TrackCount ==> t == origTrack + TrackOffset(dy)
    ensures origTrack + TrackOffset(dy) < 0 ==> t == 0
    ensures origTrack + TrackOffset(dy) >= TrackCount ==> t == TrackCount - 1
  {
    var wanted := origTrack + TrackOffset(dy);
    if wanted < 0 then 0 else if wanted > TrackCount - 1 then TrackCount - 1 else wanted
  }

  /** What `on_press` records for the drag that follows. */
  datatype Grab = Grab(startX: int, startY: int, origX: real, origTrack: int)

  class AudioClip {
    var trackIdx: int
    const duration: real
    const name: string
    const audio: Option<AudioData>
    const sampleRate: int
    var muted: bool
    var startTime: real
    var x: real
    var y: int
    /** None until the first press: before it the drag attributes do not exist. */
    var grab: Option<Grab>

    /** The clip's geometry agrees with its start time and lane. */
    ghost predicate Valid()
      reads this
    {
      && x >= 0.0
      && startTime == x / PxPerSec
      && y == trackIdx * TrackHeight
      && (grab.Some? ==> grab.value.origX >= 0.0)
      && (audio.Some? ==> WellShaped(audio.value))
    }

    /** What the mixer reads of this clip. */
    function View(): Mixer.ClipState
      reads this
    {
      Mixer.ClipState(muted, audio, startTime, sampleRate)
    }

    constructor (trackIdx: int, duration: real, name: string, audio: Option<AudioData>, sampleRate: int)
      requires audio.Some? ==> WellShaped(audio.value)
      ensures Valid()
      ensures this.trackIdx == trackIdx && this.duration == duration && this.name == name
      ensures this.audio == audio && this.sampleRate == sampleRate
      ensures !muted && startTime == 0.0 && x == 0.0 && grab == None
    {
      this.trackIdx := trackIdx;
      this.duration := duration;
      this.name := name;
      this.audio := audio;
      this.sampleRate := sampleRate;
      muted := false;
      startTime := 0.0;
      x := 0.0;
      y := trackIdx * TrackHeight;
      grab := None;
    }

    /** `on_press`: remember the pointer and the clip's position. */
    method OnPress(eventX: int, eventY: int)
      requires Valid()
      modifies this`grab
      ensures Valid()
      ensures grab == Some(Grab(eventX, eventY, x, trackIdx))
    {
      grab := Some(Grab(eventX, eventY, x, trackIdx));
    }

    /**
     * `on_drag`: follow the pointer, x clamped at 0 and the lane clamped to
     * the configured lanes; the start time follows x at once. Without a
     * preceding press the handler fails before changing anything.
     */
    method OnDrag(eventX: int, eventY: int)
      requires Valid()
      modifies this`x, this`y, this`trackIdx, this`startTime
      ensures Valid()
      ensures old(grab).None? ==> x == old(x) && trackIdx == old(trackIdx) && startTime == old(startTime)
      ensures old(grab).Some? ==>
        var g := old(grab).value;
        && x == DragX(g.origX, eventX - g.startX)
        && trackIdx == DragTrack(g.origTrack, eventY - g.startY)
        && 0 <= trackIdx < TrackCount
        && startTime == x / PxPerSec
    {
      match grab
      case None =>
      case Some(g) =>
        var newX := DragX(g.origX, eventX - g.startX);
        var newTrack := DragTrack(g.origTrack, eventY - g.startY);
        x := newX;
        y := newTrack * TrackHeight;
        trackIdx := newTrack;
        startTime := x / PxPerSec;
    }

    /** `on_release`: snap x to the 0.1 s grid; the lane is left as it is. */
    method OnRelease()
      requires Valid()
      modifies this`x, this`startTime
      ensures Valid()
      ensures x == SnapToGrid(old(x)) && startTime == x / PxPerSec
    {
      SnapToGridIsNearestGridPoint(x);
      x := SnapToGrid(x);
      startTime := x / PxPerSec;
    }

    /** `toggle_mute`: flip the flag; the samples are untouched. */
    method ToggleMute()
      modifies this`muted
      ensures muted == !old(muted)
    {
      muted := !muted;
    }
  }

  /** The mixer's view of the live clip list, read at one instant. */
  function Snapshot(clips: seq<AudioClip>): seq<Mixer.ClipState>
    reads clips
  {
    seq(|clips|, i requires 0 <= i < |clips| reads clips => clips[i].View())
  }
}
