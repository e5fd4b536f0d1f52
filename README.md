# Audio player core in Dafny

A verified model of the playback core of a small local-file audio player
(`src/slint_app.rs`). It covers three parts:

- **The equalizer.** The 10-band gain table (`Equalizer`) and the biquad step.
  `EqSource` is the sample adapter. It pushes every decoded sample through the
  ten bands in order, with one filter-state bank for the left channel and one
  for the right. It alternates between the banks, starting on the left.
- **The playback controller (`AudioEngine`).** Its timeline is kept in the
  sink, path, duration, start instant, frozen position and offset fields.
  Its operations are stop, play-from, play-file, pause, resume, seek,
  is-playing, total duration and current position. `Timeline` states each
  operation as a function on an `Engine` value, and proves the timeline
  properties about those functions. The class `Playback.AudioEngine` holds
  the same fields as mutable state, and each method is proved to perform the
  matching `Timeline` transition.
- **The playlist navigator.** This logic sits inline in the UI event handlers.
  It covers the search filter, the current-track rule (the selection, else
  the first filtered track), next and previous with and without shuffle,
  auto-advance with repeat-one, and the two toggles. The rules are pure
  functions in `Playlist`. `App.Player` holds the handlers' shared state and
  has one method per handler.

Time is counted in whole milliseconds, and the clock is an explicit `now`
argument. Outside effects are passed in as arguments:

- **`Load`**: whether the file opens and decodes. It also carries the
  container's duration and the fallback probe's result.
- **`draw`**: the random choices of the shuffle.
- **`design`**: the per-band coefficient formula.

`EqSource.Output` is everything the adapter produces from its input.
`ChannelSplit` proves that this output equals filtering the even-position
samples with the left bank and the odd-position samples with the right bank,
then interleaving the two results.

Some behaviour is kept exactly as the code has it, even where it looks
unintended:

- **Reload while paused.** The new sink is paused, but the position is not
  frozen and the clock is restarted (lines 120-124). So the reported position
  keeps advancing while paused, and `resume` brings it back to the seek
  target (`Timeline.PausedReloadClockRuns`).
- **Failed load.** The old sink is already dropped, but the track, duration
  and clock are kept (`Timeline.FailedLoadKeepsTimeline`). Selecting that
  track again then does nothing (`App.Select`).
- **Shuffle wraps.** In shuffle mode, "next" wraps to the first entry of the
  shuffle order and "previous" wraps to the last. Without shuffle neither
  wraps.
- **Repeat-one.** Only auto-advance looks at it. The "next" button ignores it.
- **Search leaves the shuffle order alone.** A shuffle order taken before a
  narrower search can still lead to tracks the filter hides
  (`Playlist.StaleShuffleOrder`).
- **Selection.** The next, previous and timer handlers only return the index
  they highlight. They never write the selection: their frame is the engine
  alone.

`App.Player.Valid` is the invariant every handler keeps. The filtered list is
always the filter applied to the current search text. Neither the filtered
list nor the shuffle order has repeats. So the navigation lemmas that need a
list without repeats apply to both lists as the handlers hold them.

## Model

| member | source | states |
|---|---|---|
| `Equalizer.ProcessAtRest` | src/slint_app.rs:17-22 | One band step: silence into a band at rest leaves it silent and at rest, and the flat band (b0 = 1, all else 0) passes a sample through unchanged from rest. |
| `Equalizer.ProcessAdditive` | src/slint_app.rs:17-22 | The band step is linear: from the sum of two register states, the sum of two inputs gives the sum of the two outputs and the sum of the two new states. |
| `Equalizer.CascadeUpTo` | src/slint_app.rs:17-22 | Band k of the cascade runs the transposed direct-form-II step on the output of band k-1, in band order. The bank keeps its ten entries, and bands not yet reached are untouched. |
| `Equalizer.Run` | src/slint_app.rs:61 | The adapter yields exactly one output sample per input sample. The two banks swap roles after every sample. |
| `Equalizer.EvensOddsAt` | src/slint_app.rs:58-61 | Input sample k is sample k/2 of the left channel when k is even, and sample k/2 of the right channel when k is odd. |
| `Equalizer.ChannelSplit` | src/slint_app.rs:58-61 | Alternating banks starting on the left equal the left bank run over the even samples interleaved with the right bank run over the odd samples. Neither channel's state sees the other channel's samples. |
| `Equalizer.Equalizer.constructor` | src/slint_app.rs:41 | The gain table starts with ten bands at 0 dB. |
| `Equalizer.Equalizer.SetGains` | src/slint_app.rs:42 | Overwrites the whole ten-band table. |
| `Equalizer.Equalizer.Snapshot` | src/slint_app.rs:42 | Returns a ten-entry copy equal to the current table. |
| `Equalizer.DesignBands` | src/slint_app.rs:52-57 | Band i gets the coefficients designed from the sample rate, centre frequency i, Q = 1 and gain i. |
| `Equalizer.FilterSample` | src/slint_app.rs:61 | The in-place loop over one bank gives the bank and output of the full cascade on that sample. |
| `Equalizer.EqSource.constructor` | src/slint_app.rs:52-58 | Both banks start at rest and the first sample is a left sample. The whole output is the left/right interleaving of the two channels filtered separately. |
| `Equalizer.EqSource.Next` | src/slint_app.rs:61 | With input left: returns the next output sample, consumes one input and flips the channel, leaving the other bank unchanged. With the input exhausted: returns `None` and changes nothing. Samples emitted plus samples left always equals the total output. |
| `Equalizer.EqSource.StepLeft` | src/slint_app.rs:61 | The non-empty case of `Next` on a left sample: output sample number `|Emitted|`, filtered with the left bank, then the right channel is next. The class invariant is kept. |
| `Equalizer.EqSource.StepRight` | src/slint_app.rs:61 | The non-empty case of `Next` on a right sample: output sample number `|Emitted|`, filtered with the right bank, then the left channel is next. The class invariant is kept. |
| `Timeline.Position` | src/slint_app.rs:141-145 | The frozen position while paused. Otherwise never below the offset, never more than the offset plus the time since the clock started, and exactly the offset with no clock. |
| `Timeline.IsPlaying` | src/slint_app.rs:139 | Playing implies a sink exists, is not paused and has not drained. In a state satisfying the invariant, a playing engine's clock is running and the position is not frozen. |
| `Timeline.NewDuration` | src/slint_app.rs:107-110 | Reloading the same track with a known duration keeps it. The result is unknown only when nothing was cached and neither the container nor the probe gives a duration. Otherwise the container's figure wins. |
| `Timeline.PlayFrom` | src/slint_app.rs:101-126 | Succeeds exactly when the file opens and decodes. On an open or decode error it returns that error, and only the sink is gone. On success it loads the path, puts the position exactly on `position`, and builds a sink for that path and start with the current gains and the requested pause flag. The clock starts at `now` and the position is not frozen; an unpaused reload is playing. It keeps the timeline invariant. |
| `Timeline.Pause` | src/slint_app.rs:129 | Does nothing without a sink or with a sink already paused. It keeps the timeline invariant. |
| `Timeline.Resume` | src/slint_app.rs:130 | Does nothing unless the sink is paused. It keeps the timeline invariant. |
| `Timeline.Clamp` | src/slint_app.rs:132 | The target, limited to the known duration: never above the target or the duration, and equal to the target when within it. |
| `Timeline.SeekTo` | src/slint_app.rs:131-138 | Returns `Ok` and changes nothing when no track is loaded or the clamped target is within 10 ms of the position. It keeps the timeline invariant. |
| `Timeline.Drain` | src/slint_app.rs:139 | The sink running out of queued audio keeps the timeline invariant. |
| `Timeline.StoppedIsReset` | src/slint_app.rs:92-99 | After stop: no track, no duration, not playing, position 0, invariant holds. |
| `Timeline.PositionMonotone` | src/slint_app.rs:141-145 | The position never decreases with time. It is constant while frozen by a pause or while the clock is not running. |
| `Timeline.PositionAdvances` | src/slint_app.rs:143 | While the clock runs, the position grows exactly with elapsed time. |
| `Timeline.PauseFreezesPosition` | src/slint_app.rs:129 | Pausing an unpaused sink freezes the position reached at that instant. Every later reading returns it. |
| `Timeline.PauseResumeContinues` | src/slint_app.rs:129-130 | After pause then resume, the position right after resuming is the one reached at the pause, and it advances from there with real time. |
| `Timeline.SeekLandsOnTarget` | src/slint_app.rs:131-138 | A seek that reloads and succeeds lands exactly on the clamped target. It keeps the track, the pause state and a known duration, and never goes past the duration. |
| `Timeline.ReloadAdvances` | src/slint_app.rs:117-122 | A successful reload that does not start paused is playing, and its position advances from the requested position with real time. |
| `Timeline.PausedReloadClockRuns` | src/slint_app.rs:120-124 | A reload that starts paused leaves the sink paused and not playing. The reported position still advances from the start position. `pause` is then a no-op, and `resume` brings the position back to the start position. |
| `Timeline.FailedLoadKeepsTimeline` | src/slint_app.rs:103-106 | A failed load leaves no sink and nothing playing. Track, duration and position at every instant are as before. |
| `Timeline.DurationCache` | src/slint_app.rs:107-110 | Reloading the same track with a known duration keeps it. Otherwise the duration is the container's, else the probe's. |
| `Playback.AudioEngine.constructor` | src/slint_app.rs:77-90 | A new engine is stopped with a flat equalizer. |
| `Playback.AudioEngine.Stop` | src/slint_app.rs:92-99 | Fields become the stopped state: no sink, path, duration, start or frozen position, and offset 0. |
| `Playback.AudioEngine.PlayFrom` | src/slint_app.rs:101-126 | The field updates perform `Timeline.PlayFrom` with the equalizer's current snapshot, and return its result. |
| `Playback.AudioEngine.PlayFile` | src/slint_app.rs:128 | Is `PlayFrom` at position 0, not paused. |
| `Playback.AudioEngine.Pause` | src/slint_app.rs:129 | Performs `Timeline.Pause`. |
| `Playback.AudioEngine.Resume` | src/slint_app.rs:130 | Performs `Timeline.Resume`. |
| `Playback.AudioEngine.SeekTo` | src/slint_app.rs:131-138 | Performs `Timeline.SeekTo` and returns its result. |
| `Playback.AudioEngine.QueueDrained` | src/slint_app.rs:139 | The audio thread emptying the sink sets its `empty` flag and nothing else. |
| `Playlist.Contains` | src/slint_app.rs:384 | A query never occurs in a shorter title, and a prefix always occurs. |
| `Playlist.ContainsIsSubstring` | src/slint_app.rs:384 | `Contains` is substring search: the query occurs exactly when it is a prefix of some suffix of the title. |
| `Playlist.Matches` | src/slint_app.rs:384 | The empty query passes every track. A query longer than the title never passes. |
| `Playlist.Filtered` | src/slint_app.rs:380-385 | The indices listed for a query are valid track indices, at most one per track (no repeats). |
| `Playlist.FilterIndices` | src/slint_app.rs:380-385 | The clear-and-push loop over the tracks yields exactly `Filtered(songs, lower(query))`. |
| `Playlist.FilteredMembership` | src/slint_app.rs:383-384 | An index is listed if and only if it is a track whose lower-cased title contains the lower-cased query, or the query is empty. |
| `Playlist.FilteredIncreasing` | src/slint_app.rs:383-385 | The filtered list is strictly increasing, so it has no repeats. |
| `Playlist.FilteredEmptyQuery` | src/slint_app.rs:217 | The empty query lists every track: `0, 1, ..., n-1`, the initial list. |
| `Playlist.IndexOf` | src/slint_app.rs:307 | Returns the first position holding the index, or `None` exactly when the index is absent. |
| `Playlist.Current` | src/slint_app.rs:292-295 | The selected track when there is one. Otherwise the first filtered track, or nothing when the filtered list is empty. |
| `Playlist.Successor` | src/slint_app.rs:336 | A next track exists exactly when the index is present and not last. It is then the element right after the index's first position, and is in the list. |
| `Playlist.Predecessor` | src/slint_app.rs:307 | A previous track exists exactly when the index is present and not first. It is then the element right before the index's first position, and is in the list. |
| `Playlist.ShuffleNext` | src/slint_app.rs:334 | Finds a track exactly when the shuffle order is non-empty, always one of the order. An index missing from the order goes to its first entry. |
| `Playlist.ShufflePrev` | src/slint_app.rs:304-305 | Finds a track exactly when the shuffle order is non-empty, always one of the order. An index missing from the order goes to its last entry. |
| `Playlist.NextTrack` | src/slint_app.rs:332-337 | The "next" target is always a track of the active order: the shuffle order in shuffle mode, else the filtered list. In shuffle mode one is found exactly when the order is non-empty. Otherwise one is found exactly when the current track is listed and not last. |
| `Playlist.PrevTrack` | src/slint_app.rs:302-307 | The "previous" target is always a track of the active order. In shuffle mode one is found exactly when the order is non-empty. Otherwise one is found exactly when the current track is listed and not first. |
| `Playlist.AutoNext` | src/slint_app.rs:421-428 | With repeat-one, auto-advance returns the current track whatever the shuffle state. Without it, auto-advance is exactly the "next" button's rule, which has no repeat-one input. The result is the current track or a track of the active order. |
| `Playlist.PrevDecision` | src/slint_app.rs:298-308 | "Previous" restarts the track exactly when the position is past 3 s. Otherwise it changes to the previous track of the active order. |
| `Playlist.NextPrevRoundTrip` | src/slint_app.rs:307 | On a list without repeats, y follows x exactly when x is in the list and precedes y. Next then previous gives back the track, and so does previous then next. |
| `Playlist.PlainNoWrap` | src/slint_app.rs:336 | Without shuffle, the last track has no next and the first has no previous. |
| `Playlist.ShuffleWraps` | src/slint_app.rs:304-305 | In a non-empty shuffle order, next and previous always find a track of the order. Next wraps from the last entry to the first, and previous from the first to the last. An index missing from the order goes to the first entry (next) or the last (previous). |
| `Playlist.ShuffleEmpty` | src/slint_app.rs:334 | With an empty shuffle order, shuffle next and previous find nothing. |
| `Playlist.ScenarioFilteredNavigation` | src/slint_app.rs:332-337 | On the filtered list [0, 2, 5] without shuffle or repeat, next of 2 is 5 and next of 5 is nothing. "Previous" at 5 s restarts, and at 1 s goes from 2 to 0. |
| `Playlist.StaleShuffleTarget` | src/slint_app.rs:454-461 | A shuffle order captured under one query only leads to tracks that matched that query. Under a later query such a track is listed exactly when it also matches the later one. |
| `Playlist.StaleShuffleOrder` | src/slint_app.rs:454-461 | Tracks "a" and "b": shuffle is captured under the empty query, then the search narrows to "a". Shuffle-next from track 0 still leads to track 1, which the filtered list `[0]` no longer holds. |
| `Playlist.ShuffleWith` | src/slint_app.rs:458-459 | Whatever the random choices, the shuffled order has the same length and the same multiset of indices as the filtered list, and has no repeats when the list has none. |
| `TimeText.Decimal` | src/slint_app.rs:186 | Decimal digits only, one digit below 10, at least two from 10, at most two below 100. |
| `TimeText.Pad2` | src/slint_app.rs:186 | At least two digits, exactly two below 100. |
| `TimeText.FormatTime` | src/slint_app.rs:186 | The text is digits with a colon three characters from the end. It is exactly five characters ("MM:SS") below 100 minutes. |
| `TimeText.DecimalRoundTrip` | src/slint_app.rs:186 | Reading the printed digits back gives the number. |
| `TimeText.FormatTimeRoundTrip` | src/slint_app.rs:186 | The text is digits, a colon, then two digits of seconds below 60. Minutes times 60 plus seconds read back gives the whole seconds of the duration. |
| `App.SliderGain` | src/slint_app.rs:475 | Slider positions in [0, 1] map into [-12, +12] dB. The centre is exactly 0 dB, and the left half cuts. |
| `App.SetBand` | src/slint_app.rs:475 | Only band `index` changes, and only when 0 <= index < 10. Every other band keeps its gain. |
| `App.StartTrack` | src/slint_app.rs:252-253 | An index past the track list changes nothing. A track that loads plays from 0. A failed load only drops the old sink. It keeps the timeline invariant. |
| `App.Select` | src/slint_app.rs:241-255 | The loaded track is never reloaded: track and duration are kept, and with no sink (after a failed reload) nothing changes. Playing toggles to paused and paused to playing. Any other valid track that loads plays from 0. It keeps the timeline invariant. |
| `App.PlayPause` | src/slint_app.rs:268-276 | With a live sink it only toggles: the track and duration are kept, playing becomes paused and paused becomes playing. With no sink or a drained one, it does nothing when there is no current track, and otherwise starts the current track from 0 when it loads. It keeps the timeline invariant. |
| `App.Drained` | src/slint_app.rs:417 | A drained sink is neither playing nor paused. |
| `App.EqReloadKeepsPlace` | src/slint_app.rs:477-483 | A band change with a track loaded reloads it on the same track, at the same position at that instant, with the same pause state. The new sink filters with the new gains. |
| `App.Player.constructor` | src/slint_app.rs:217-228 | Initially every track is listed, the shuffle order is empty, both modes are off, nothing is selected, gains are flat and the engine is stopped. The handler invariant holds. |
| `App.Player.OnSelect` | src/slint_app.rs:236-257 | Selects the index. The loaded track toggles pause/resume; any other valid track starts from 0. |
| `App.Player.OnPlayPause` | src/slint_app.rs:266-279 | With no sink or a drained one, it starts the selected track, else the first filtered one. Otherwise it toggles pause/resume. |
| `App.Player.OnPrev` | src/slint_app.rs:290-314 | From the current track: past 3 s it seeks to 0. Otherwise it starts and highlights the previous track of the active order, if any. The selection is never changed. |
| `App.Player.OnNext` | src/slint_app.rs:325-340 | From the current track, it starts and highlights the next track of the active order, if any. It ignores repeat-one and never changes the selection. |
| `App.Player.OnStop` | src/slint_app.rs:346-349 | The engine is stopped. |
| `App.Player.OnSeek` | src/slint_app.rs:355-367 | Seeks only when the duration is known. |
| `App.Player.OnSearchChanged` | src/slint_app.rs:375-390 | The filtered list becomes `Filtered(songs, lower(text))`, so it stays free of repeats. Shuffle order, selection, modes and gains are unchanged. |
| `App.Player.OnTick` | src/slint_app.rs:404-436 | Only when the sink has drained unpaused, it starts and highlights the auto-advance track. It never changes the selection. |
| `App.Player.OnToggleRepeat` | src/slint_app.rs:443-447 | Flips repeat-one. Every other field (shuffle flag and order, filtered list, selection, gains, search text) is unchanged. |
| `App.Player.OnToggleShuffle` | src/slint_app.rs:454-463 | Flips shuffle. Turning it on makes the order a repeat-free permutation of the filtered list; turning it off leaves the order as it was. Repeat-one, filtered list, selection, gains and search text are unchanged. |
| `App.Player.OnEqBandChanged` | src/slint_app.rs:474-488 | Changes one band's gain (only for 0-9) and hands the whole table to the engine's equalizer. A loaded track is reloaded at its current position with its pause state. Selection, filtered list, shuffle flag and order, repeat-one and search text are unchanged. |

## Left out

- `peaking_eq` (lines 24-37) uses single-precision `powf`, `sin` and `cos`. The coefficients come from the `design` argument instead.
- `Equalizer.CascadeUpTo`: the biquad step uses exact real arithmetic, not `f32`. Rounding, and the spectral behaviour of the filter, are not modelled.
- `probe_duration_with_symphonia` (lines 148-181) does its own file I/O and decoding. Its result is the `probed` field of `Load`.
- `Timeline.SeekTo`: the 0.01 s test compares `f32` seconds. It is modelled as an integer tolerance of 10 ms. Durations are whole milliseconds, not nanoseconds.
- `App.Player.OnSeek`: the slider-to-duration mapping (line 358) is floating point. The handler takes the target position directly.
- The progress ratio and the time/status texts shown by the timer and the handlers (lines 406-415) are display only. `format_time` itself is modelled in `TimeText`.
- `AudioEngine::new` can fail when no output device opens (lines 77-79). Device binding is platform I/O, so the model's constructor always succeeds.
- The rodio `Sink` is reduced to a record of what it plays and its `paused`/`empty` flags. Audio output, `skip_duration` and the link from sink to `EqSource` are not modelled. The sink's `gains` field records which table its filter was built from.
- `EqSource`'s `Source` delegation of channels, sample rate, span length and total duration (line 62) just forwards to the inner stream.
- `Playlist.Lower`: only ASCII letters are lower-cased. Rust's Unicode `to_lowercase` is not modelled.
- `Playlist.ShuffleWith`: the shuffle is a Fisher-Yates pass driven by the `draw` choices. Uniform randomness is not modelled, only that the result is a permutation.
- `App.Player.OnSelect`: the UI passes an `i32` index. The model takes a natural number, so a negative index cast to `usize` is not modelled.
- `Arc`/`Mutex` locking, poisoned locks and the zero-gain fallback of `snapshot` are not modelled. Handlers are modelled as running one at a time.
- Timer scheduling is not modelled: each `OnTick` call is one tick.
- The directory scan, extension filter and title sort (lines 193-215) are file-system I/O. The track list is given to `App.Player`'s constructor.
- The EQ panel toggle (lines 467-469) and every other UI setter change display state only.
- `examples/android_main.rs` is platform bootstrap: logging and an environment variable.
