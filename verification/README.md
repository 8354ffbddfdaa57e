# Separation studio: timeline, mixer and transport, in Dafny

`separation-studio.py` is a desktop tool. It splits a song into stems
(vocals, drums, bass, other) and lays them out as clips on a six-lane
timeline, where they can be dragged, muted, deleted and played back
together. This project models the non-graphical core of that program and
proves properties of it:

- **Window mixer** (`mixer.dfy`, `player.dfy`). `get_mixed_audio_chunk`
  is stated once as a pure function, `Mixer.Mix`, over a snapshot of the
  clips. It is implemented as `Playback.AudioPlayer.GetMixedAudioChunk`,
  which zero-fills an `array`, adds each clip's overlapping slice into it
  in place and divides by the peak in place. Its postcondition ties the
  result to `Mix`. Lemmas about `Mix` cover:
  - the output shape and the empty case;
  - which buffer frames a clip touches and with which source frame;
  - mono and single-column clips feeding both channels (`Audio.MonoFeedsBothChannels`);
  - additivity over clip lists;
  - muted clips changing nothing;
  - the peak normaliser leaving a peak of exactly 1.0.
- **Transport** (`player.dfy`). The `AudioPlayer` flags `playing`,
  `paused`, `current_time` and the stop event are fields of a class.
  `play`, `pause`, `stop` and `seek` are methods, and one iteration of
  `_playback_loop` is `PlaybackStep`, with the device write returned
  instead of performed.
- **Clips** (`clip.dfy`). `AudioClip` is a class.
  - `on_press`/`on_drag`/`on_release`/`toggle_mute` are methods that keep
    its geometry invariant `Valid()`: x ≥ 0, start time = x / 60,
    y = lane × 70.
  - The drag clamps are proved to clamp, and the release snap is proved
    to move to the nearest multiple of 6 px.
- **Application** (`app.dfy`, `names.dfy`):
  - the clip list and `delete`;
  - `_add_clip_safe` with its lane mapping and its failure cases;
  - the timeline-length rule `max(60, d + 5)`;
  - the clamped `rewind`/`forward`/scrub helpers;
  - the discovery and reloading of stems saved as `{base}_{stem}.wav`
    next to the source file, including the `os.path.splitext` round trip.
    The separation saves each stem at `{splitext(file_path)[0]}_{name}.wav`
    (separation-studio.py:728-734 and 766-769), the same expression the
    loader checks, so by `Names.ExistingAmongMembers` a saved stem whose
    file still exists is found again.
- **WAV conversion** (`wav.dfy`). `_load_wav_file_as_float` divides
  integer PCM by the type's maximum and widens mono or one-column data to
  two channels.

Numbers are `real`: samples, seconds and pixels. Python's `int(x)` on a
float is `Audio.TruncToInt` (truncation toward zero) and Python's `round`
is `Clips.RoundHalfEven`. numpy failures are modelled as error results:
- `np.zeros` with a negative length is `NegativeFrameCount`;
- a slice of width other than 1 or 2 that cannot be broadcast into the
  stereo buffer is `ChannelMismatch`;
- a Python `ZeroDivisionError` from a sample rate of 0 is reported by
  each caller in its own way: a playback step ends `Failed`, the stem
  loader ends `ZeroRate`, `_add_clip_safe` returns `None`, and the end of
  `_load_audio_thread` returns `ok == false`.

The file system, the WAV reader and the audio device are parameters:
- the set of paths `os.path.exists` accepts;
- a map from path to what `wavfile.read` returns;
- the frames a playback step would write.

Where the program's documentation and its code differ, the model follows
the code:
- `seek(t)` stores `t` unclamped. Only `rewind`, `forward` and
  `_seek_to_x` clamp.
- When playback reaches the end of the timeline, the loop only clears
  `playing` in its `finally` block. `current_time` stays at or past the
  end, so pressing play again ends the new loop at its first step.
- Every clip is positioned with the sample rate of the first clip
  (separation-studio.py:253). Nothing is resampled.

## Model

| member | source | states |
|---|---|---|
| Audio.FrameAt | separation-studio.py:277-284 | what frame k of a clip adds to the two output channels; its properties are `Audio.MonoFeedsBothChannels` and `Mixer.ContributionBySpan` |
| Audio.MonoFeedsBothChannels | separation-studio.py:277-282 | a 1-D sample or a single-column sample is added to the left and the right channel alike |
| Audio.TruncToIntRoundsTowardZero | separation-studio.py:254-262 | `int(t*sr)` drops the fraction toward zero: k ≤ r < k+1 for r ≥ 0 and k-1 < r ≤ k for r < 0 |
| WavLoad.LoadAsFloat | separation-studio.py:612-627 | the converted array is rectangular, keeps the frame count, and is two channels wide for 1-D or one-column input (wider input keeps its width) |
| WavLoad.LoadedFramesMixAsSource | separation-studio.py:615-625 | for mixable input, each converted frame is the source frame with both channels divided by the type's full scale (mono duplicated to both channels) |
| WavLoad.LoadedIntegerSamplesInRange | separation-studio.py:615-618 | integer PCM within its type's range converts into [min/max, 1.0] |
| WavLoad.FloatStereoLoadsUnchanged | separation-studio.py:619-620 | float stereo data passes through unchanged |
| Mixer.Mix | separation-studio.py:249-290 | the whole `get_mixed_audio_chunk`; its shape, error cases, contents and limiter are stated by `Mixer.ChunkShape`, `Mixer.MixRefuses`, `Mixer.ContributionBySpan`, `Mixer.RawMixAdditive`, `Mixer.NormalizedPeakIsOne` and `Mixer.BelowLimitIsRawSum` |
| Mixer.RawMix | separation-studio.py:255-284 | the buffer after the clip loop, before limiting; `Mixer.RawMixStep`, `Mixer.RawMixAdditive` and `Mixer.MutedClipChangesNothing` state its properties |
| Mixer.NormalizePeak | separation-studio.py:286-288 | the limiter; `Mixer.NormalizedPeakIsOne`, `Mixer.ScaledMagnitudes` and `Mixer.HasAudioGuardIsRedundant` state its properties |
| Mixer.Overlap | separation-studio.py:262-273 | the buffer and source spans have equal length, are offset by winStart - clipStart, and when non-empty lie inside [0, n) and [0, len) |
| Mixer.OverlapExact | separation-studio.py:265-271 | frame i is in the buffer span iff it is inside the window and the clip's sample range covers winStart + i |
| Mixer.ContributionBySpan | separation-studio.py:259-284 | inside an audible clip's span, frame i gains clip frame i - bufStart + srcStart; outside it, or for a muted or empty clip, it gains silence |
| Mixer.RawMixStep | separation-studio.py:259-284 | one pass of the clip loop turns the mix of the first k clips into the mix of the first k + 1 |
| Mixer.SumAtAppend | separation-studio.py:259-284 | the sum over a concatenated clip list is the frame-wise sum of the two sums |
| Mixer.RawMixAdditive | separation-studio.py:277-284 | before limiting, the buffer for clips a + b is the frame-wise sum of the buffers for a and for b |
| Mixer.MutedClipChangesNothing | separation-studio.py:260 | removing a muted or audio-less clip leaves every raw buffer frame unchanged |
| Mixer.SilentWithoutContributors | separation-studio.py:257-269 | when no clip overlaps the window, every raw frame is silence |
| Mixer.AllMutedIsSilent | separation-studio.py:253-290 | if every clip is muted or empty, the chunk is int(duration*sr) zero frames at the first clip's rate |
| Mixer.MixRefuses | separation-studio.py:275-284 | one overlapping clip whose slice is neither 1-D nor 1 or 2 columns wide makes the whole call fail |
| Mixer.HasAudioGuardIsRedundant | separation-studio.py:286-288 | the `has_audio` guard never changes the result, because the peak of an untouched buffer is 0 |
| Mixer.PeakIsMaximum | separation-studio.py:287 | `np.max(np.abs(mixed))` is ≥ 0, bounds every frame's magnitude and is attained by one frame |
| Mixer.NormalizedPeakIsOne | separation-studio.py:286-288 | above 1.0, every frame is divided by the same peak, and the result's peak is exactly 1.0 |
| Mixer.ScaledMagnitudes | separation-studio.py:288 | after dividing by the peak, no frame's magnitude exceeds 1.0 and the loudest frame's is 1.0 |
| Mixer.BelowLimitIsRawSum | separation-studio.py:286-290 | at or below the limit, the chunk is exactly the raw sum of the clips' contributions |
| Mixer.ChunkShape | separation-studio.py:250-255 | no clips gives (None, 44100); otherwise a successful chunk has int(duration*sr) frames at the first clip's rate, and it fails with a negative count exactly when int(duration*sr) < 0 |
| Mixer.SilencePeak | separation-studio.py:255 | a freshly zeroed buffer has peak 0 |
| Playback.LoopRate | separation-studio.py:309 | the rate the playback loop fixes at its start: the first clip's, or 44100 without clips; `Playback.LoopChunkFillsBuffer` states what a step at that rate writes |
| Playback.LoopChunkFillsBuffer | separation-studio.py:309-330 | at the loop's rate, every buffer written to the device has exactly 2048 frames and the mixer reports that same rate |
| Playback.AddClipSlice | separation-studio.py:275-284 | `mixed[buf_start:buf_end] += audio_chunk` updates exactly the span, frame by frame, mono to both channels, and leaves all other frames as they were |
| Playback.PeakOf | separation-studio.py:287 | the loop computes the peak of the buffer |
| Playback.DivideInPlace | separation-studio.py:288 | `mixed /= peak` in place: the array becomes the scaled buffer |
| Playback.NormalizeInPlace | separation-studio.py:286-288 | the in-place limiter leaves the array equal to the normalised buffer |
| Playback.MixClipInto | separation-studio.py:259-284 | one loop pass reports whether the clip overlapped and whether it was refused; when not refused, the array gains the clip's contribution at every frame |
| Playback.AudioPlayer.GetMixedAudioChunk | separation-studio.py:249-290 | the array-based mixer returns exactly `Mix` of the clips as they are at the call |
| Playback.AudioPlayer.constructor | separation-studio.py:239-247 | a new player is stopped, unpaused, at time 0, with no stop request |
| Playback.AudioPlayer.Play | separation-studio.py:292-305 | without a device, nothing changes; playing and paused resumes; playing and not paused is a no-op; otherwise it starts with the stop flag cleared |
| Playback.AudioPlayer.Pause | separation-studio.py:346 | `paused` is set whatever the state |
| Playback.AudioPlayer.Stop | separation-studio.py:347-352 | the stop flag is set, playing and paused are cleared, and the time returns to 0 |
| Playback.AudioPlayer.Seek | separation-studio.py:353 | the time becomes t, unclamped |
| Playback.AudioPlayer.PlaybackStep | separation-studio.py:307-344 | a stop request ends the loop; paused changes nothing; at or past the end the loop ends without moving the time; otherwise the mixed chunk (or 2048 silent frames without clips) is written and the time advances by exactly 2048/sr; a zero rate or a mixer error ends the loop, and every exit clears `playing` |
| Clips.RoundHalfEvenIsNearest | separation-studio.py:206 | Python's `round` lands within 0.5, on the even integer at a tie |
| Clips.SnapToGrid | separation-studio.py:204-206 | `round(x / grid_px) * grid_px`; `Clips.SnapToGridIsNearestGridPoint` states its properties |
| Clips.SnapToGridIsNearestGridPoint | separation-studio.py:204-206 | the snapped x is a multiple of 6 px within 3 px of x, non-negative for non-negative x, and snapping again does not move it |
| Clips.TrackOffsetTruncates | separation-studio.py:191 | `int(dy / TRACK_HEIGHT)` counts whole lanes, truncated toward zero in both directions |
| Clips.DragX | separation-studio.py:190 | `max(0, orig_x + dx)` is ≥ 0 and ≥ orig_x + dx, and equals one of them |
| Clips.DragTrack | separation-studio.py:191 | the lane is always in [0, 5]: the wanted lane when it is in range, 0 below, 5 above |
| Clips.AudioClip.constructor | separation-studio.py:83-101 | a new clip is unmuted at x = 0, start 0, y = lane × 70 |
| Clips.AudioClip.OnPress | separation-studio.py:179-184 | the pointer position, x and lane are recorded for the drag |
| Clips.AudioClip.OnDrag | separation-studio.py:186-201 | x and lane follow the pointer through the clamps and the start time follows x; without a press nothing moves; the geometry invariant holds afterwards |
| Clips.AudioClip.OnRelease | separation-studio.py:203-211 | x snaps to the grid, the start time follows, and the lane is untouched |
| Clips.AudioClip.ToggleMute | separation-studio.py:224-225 | the mute flag flips |
| Names.Lower | separation-studio.py:779 | `lower()` keeps the length and every whitespace position, leaves no capital, turns each capital into its small letter and keeps every other character |
| Names.Upper | separation-studio.py:783-784 | `upper()` keeps the length and every whitespace position, leaves no small letter, turns each small letter into its capital and keeps every other character |
| Names.LowerIdempotent | separation-studio.py:779 | lowering an already lowered name changes nothing |
| Names.LowerIgnoresUpper | separation-studio.py:779-784 | lowering the upper-cased label gives the same string as lowering the name |
| Names.MappedTrackIgnoresCase | separation-studio.py:777-784 | the lane lookup gives the same result for the name, its lowered form and its upper-cased clip label |
| Names.FirstWord | separation-studio.py:779 | `split()[0]`, or no word; `Names.FirstWordNoneIffAllSpace`, `Names.FirstWordIsDelimited` and `Names.FirstWordOfDelimited` characterise it |
| Names.FirstWordNoneIffAllSpace | separation-studio.py:779 | `split()[0]` fails exactly when the name is all whitespace |
| Names.FirstWordIsDelimited | separation-studio.py:779 | the first word is a non-empty run of non-space characters after the leading whitespace, ended by whitespace or the end |
| Names.FirstWordOfDelimited | separation-studio.py:779 | conversely, leading whitespace, a word and a delimiter make that word the first |
| Names.MappedTrack | separation-studio.py:777-779 | `track_map.get(name.lower().split()[0], idx)`; `Names.MappedTrackCases`, `Names.StemNameMaps` and `Names.MappedTrackIgnoresCase` state its properties |
| Names.MappedTrackCases | separation-studio.py:777-779 | the lane lookup fails exactly for an all-whitespace name and otherwise gives a fixed lane 0-3 or the fallback idx |
| Names.StemNameMaps | separation-studio.py:777-779 | a stem name in any letter case, after leading blanks and before further words, maps to its own lane |
| Names.SplitExtBase | separation-studio.py:634 | POSIX `os.path.splitext(p)[0]`; `Names.StemPathSplits` and `Names.LastIndexIsLast` state its properties |
| Names.StemPathSplits | separation-studio.py:634-639 | `splitext` of a stem file `{base}_{stem}.wav` drops exactly `.wav`: when a saved stem is itself opened as the source, the loader looks for `{base}_{stem}_{other}.wav` |
| Names.StemPathInjective | separation-studio.py:639 | distinct stems use distinct files |
| Names.LastIndexIsLast | separation-studio.py:634 | the `rfind` underlying `splitext` finds the last occurrence |
| Names.ExistingStems | separation-studio.py:636-641 | the stems found next to the source, in stem order; `Names.ExistingAmongSelects`, `Names.ExistingAmongMembers` and `Names.FindExistingStems` state its properties |
| Names.ExistingAmongSelects | separation-studio.py:636-641 | the found stems are a sub-sequence of the stem order: strictly increasing positions, each paired with its path, and a position is skipped exactly when its file is missing |
| Names.ExistingAmongMembers | separation-studio.py:636-641 | (stem, path) is found iff stem is listed, path is its sibling file name and that file exists |
| Names.FindExistingStems | separation-studio.py:636-641 | the search loop returns exactly the existing stems in order |
| Studio.TimelineLength | separation-studio.py:584 | `max(60, d + 5)` is at least 60 and at least d + 5, and is one of them |
| Studio.ExtendedTimeline | separation-studio.py:666-668 | the stem loader's timeline never shrinks, covers the longest stem plus 5 s, and is unchanged when that already fits |
| Studio.RewindTarget | separation-studio.py:816-819 | five seconds back, never below 0 |
| Studio.ForwardTarget | separation-studio.py:821-824 | five seconds on, never past the timeline end |
| Studio.ScrubTime | separation-studio.py:826-831 | the time under x is clamped into [0, total]: itself when inside, 0 left of the start, total past the end |
| Studio.ConfigSlot | separation-studio.py:780 | the colour lookup succeeds iff the capped lane is ≥ -6 and yields a slot in [0, 5]: the lane itself in range, the last slot above |
| Studio.RemoveFirst | separation-studio.py:233-234 | `list.remove`; `Studio.RemoveFirstDeletesFirst`, `Studio.RemoveFirstCounts` and `Studio.RemoveFirstAbsent` state its properties |
| Studio.FirstIndex | separation-studio.py:233-234 | the first position of x in the list |
| Studio.RemoveFirstDeletesFirst | separation-studio.py:233-234 | `list.remove` deletes exactly the first occurrence; the elements around it keep their order |
| Studio.RemoveFirstCounts | separation-studio.py:233-234 | the list gets one shorter and loses one copy of the clip |
| Studio.RemoveFirstAbsent | separation-studio.py:233 | an absent clip leaves the list unchanged |
| Studio.ReadStems | separation-studio.py:650-659 | no more stems are read than were found |
| Studio.Longest | separation-studio.py:649-660 | `max_dur` after the read loop; `Studio.LongestIsMaximum` states that it is the maximum duration |
| Studio.LongestIsMaximum | separation-studio.py:649-660 | `max_dur` is ≥ 0, bounds every stem's duration and is 0 or one of them |
| Studio.ReadStemsKeepNames | separation-studio.py:650-659 | every stem read carries the name of a found stem |
| Studio.ReadStemsAllReadable | separation-studio.py:650-659 | when every found file reads, each becomes one converted stem, in order |
| Studio.ReadFoundStems | separation-studio.py:649-661 | the read loop fails iff some readable file has rate 0; otherwise it returns the converted readable stems and the longest duration |
| Studio.StemOrderLanes | separation-studio.py:670-672 | each stem name maps to its own lane 0-3 through both `idx_map` and the `_add_clip_safe` lookup |
| Studio.StemsComeFromOrder | separation-studio.py:636-659 | every stem read is one of the four stem names and its audio is rectangular |
| Studio.StudioApp.constructor | separation-studio.py:365-372 | a new window has no clips, a 60 s timeline, no source and a stopped player |
| Studio.StudioApp.ClearClips | separation-studio.py:606-608 | the clip list becomes empty |
| Studio.StudioApp.DeleteClip | separation-studio.py:231-234 | the clip is removed (first occurrence) if present; otherwise nothing changes |
| Studio.StudioApp.AddClipSafe | separation-studio.py:776-785 | fails, appending nothing, iff sr is 0, the name has no word, or the capped lane is below -6; otherwise appends one fresh clip on the uncapped mapped lane, with the upper-cased name, duration len/sr and the given audio |
| Studio.StudioApp.SourceLoaded | separation-studio.py:583-584 | a non-zero rate sets the duration to frames/sr and the timeline to `max(60, d + 5)`; rate 0 changes neither |
| Studio.StudioApp.TryLoadExistingStems | separation-studio.py:629-675 | the outcome is determined by the source path, the stems found, a zero rate and the stems readable; early returns keep the clips; on success there is one fresh clip per readable stem, in order, on its lane, and the timeline is extended |
| Studio.StudioApp.AddStemClips | separation-studio.py:670-673 | appends one clip per loaded stem, in order, keeping the clips before |
| Studio.StudioApp.OnAudioLoaded | separation-studio.py:589-603 | a new source clears the clips, then the stem reload runs: its outcome is classified by the source path, the stems found, a zero rate and the stems readable exactly as for `TryLoadExistingStems`; every outcome but a reload leaves no clips and the timeline as it was; a reload leaves one fresh clip per readable stem, in order, and the timeline at `ExtendedTimeline(old total, longest stem)` |
| Studio.StudioApp.Rewind | separation-studio.py:816-819 | the playhead moves to `RewindTarget` |
| Studio.StudioApp.Forward | separation-studio.py:821-824 | the playhead moves to `ForwardTarget` |
| Studio.StudioApp.SeekToX | separation-studio.py:826-831 | the playhead moves to the clamped time under x, inside [0, total] for a non-negative timeline |

## Left out

- All Tk drawing, canvas items, menus, status text, message boxes and event binding. The `root.after(0, …)` deferrals are modelled as happening at once, including the clip append in `_add_clip_safe`.
- PyAudio: opening, writing and closing the stream, and `time.sleep` while paused. A playback step returns the frames it would write.
- Threads. The play, load and separation threads run concurrently with the UI; the model is sequential and covers only the flag semantics. `PlaybackStep` takes the loop rate as a parameter; the rate the loop fixes at its start is `Playback.LoopRate`, and `Playback.LoopChunkFillsBuffer` states what a step at that rate writes.
- Demucs/torch separation, the Butterworth fallback and the int16 export with its 0.99 headroom: foreign models and floating-point DSP.
- `_load_audio_thread` beyond its duration and timeline rule (`Studio.StudioApp.SourceLoaded`). That covers the torchaudio path and its own normalisation, `_draw_waveform` and `_fmt_time`.
- The window's `play_pause` and `stop`: UI dispatch to the player methods that are modelled.
- `AudioPlayer.cleanup` (a `stop` followed by terminating PyAudio) and the window's `on_close`, which calls it and exits the process: device and process teardown.
- File I/O. `os.path.exists` is a set of paths; `wavfile.read` is a map from path to rate, sample type and array, and a missing path is a failed read.
- IEEE float32/float64 rounding. Samples, seconds and pixels are exact reals.
- Names.Lower, Names.Upper: only ASCII letters change case. Python's Unicode `lower`/`upper` also change other letters. `upper` can lengthen a name, e.g. "ß" becomes "SS", which only affects the clip's label.
- Names.SplitExtBase: POSIX `os.path.splitext` only; the Windows rules with `\` and drive letters are not modelled.
- `canvas.canvasx` (the scroll offset) is not modelled; `SeekToX` takes the canvas coordinate.
- Arrays of more than two dimensions. Audio is 1-D or a rectangular 2-D array; widths other than 1 and 2 are kept and are refused by the mixer.
- Mixer.Mix: the buffer is float32 in the program; the model sums exact reals, so the float32 rounding of each `+=` and of `/= peak` is not captured.
