/** The playback controller's timeline. `Engine` is the controller's state as
    a value and the functions below are its operations; the class
    `Playback.AudioEngine` holds the same state in mutable fields and its
    methods are proved to perform exactly these transitions. Durations and
    instants are whole milliseconds; the clock is the `now` argument. */
module Timeline {
  import opened Common

  type Path = string

  /** Milliseconds: a duration, or an instant on the monotonic clock. */
  type Millis = nat

  /** Why loading a file failed. */
  datatype LoadError = OpenFailed | DecodeFailed

  /** What the file system and the decoder yield for one load: the file
      cannot be opened, cannot be decoded, or decodes; then the container's
      reported total duration and what the fallback probe would compute. */
  datatype Load = OpenError | DecodeError | Decoded(reported: Option<Millis>, probed: Option<Millis>)

  /** The output sink: what it plays (track, start position, the equalizer
      gains its filter was built with) and its two observable flags. */
  datatype Sink = Sink(path: Path, from: Millis, gains: seq<real>, paused: bool, empty: bool)

  datatype Engine = Engine(
    sink: Option<Sink>,
    currentPath: Option<Path>,
    duration: Option<Millis>,
    startInstant: Option<Millis>,
    pausedAt: Option<Millis>,
    positionOffset: Millis)

  /** The state of a new controller, and of one that was stopped. */
  const Stopped: Engine := Engine(None, None, None, None, None, 0)

  /** Two seek targets closer than this are the same position. */
  const SeekTolerance: Millis := 10

  /** Time since `start`; an instant in the future counts as no time. */
  function Elapsed(start: Millis, now: Millis): Millis {
    if now >= start then now - start else 0
  }

  /** The reported playback position at instant `now`: the frozen position
      while paused, else the offset plus the time the clock has run. It is
      never below the offset unless frozen, and never runs ahead of real
      time. */
  function Position(e: Engine, now: Millis): (p: Millis)
    ensures e.pausedAt.Some? ==> p == e.pausedAt.value
    ensures e.pausedAt.None? ==> e.positionOffset <= p
    ensures e.pausedAt.None? && e.startInstant.Some? ==>
              p <= e.positionOffset + Elapsed(e.startInstant.value, now)
    ensures e.pausedAt.None? && e.startInstant.None? ==> p == e.positionOffset
  {
    if e.pausedAt.Some? then e.pausedAt.value
    else if e.startInstant.Some? then e.positionOffset + Elapsed(e.startInstant.value, now)
    else e.positionOffset
  }

  /** A sink exists, is not paused and still has audio queued. In a
      reachable state a playing engine's clock is running. */
  predicate IsPlaying(e: Engine)
    ensures IsPlaying(e) ==> e.sink.Some? && !SinkPaused(e) && !e.sink.value.empty
    ensures IsPlaying(e) && Inv(e) ==> e.startInstant.Some? && e.pausedAt.None?
  {
    e.sink.Some? && !e.sink.value.paused && !e.sink.value.empty
  }

  /** A sink exists and is paused. */
  predicate SinkPaused(e: Engine) {
    e.sink.Some? && e.sink.value.paused
  }

  /** The invariant every reachable state keeps: the clock is never both
      running and frozen; a sink always plays the current track; an
      unpaused sink has a running clock; with no track everything is reset. */
  predicate Inv(e: Engine) {
    !(e.startInstant.Some? && e.pausedAt.Some?) &&
    (e.sink.Some? ==> e.currentPath == Some(e.sink.value.path)) &&
    (e.sink.Some? && !e.sink.value.paused ==> e.startInstant.Some?) &&
    (e.currentPath.None? ==> e == Stopped)
  }

  /** The duration known after loading `path`: the cached one when the same
      track is reloaded and its duration is known, otherwise the container's
      figure, otherwise the probe's. */
  function NewDuration(e: Engine, path: Path, reported: Option<Millis>, probed: Option<Millis>): (d: Option<Millis>)
    ensures e.currentPath == Some(path) && e.duration.Some? ==> d == e.duration
    ensures d.None? <==> !(e.currentPath == Some(path) && e.duration.Some?) && reported.None? && probed.None?
    ensures reported.Some? && !(e.currentPath == Some(path) && e.duration.Some?) ==> d == reported
  {
    if e.currentPath == Some(path) && e.duration.Some? then e.duration
    else reported.OrElse(probed)
  }

  /** Tears down the current sink, loads `path` and starts it at `position`
      with an equalizer built from `gains`; when `resumePaused` the new sink
      is paused straight away (the clock is left running). */
  function PlayFrom(e: Engine, path: Path, position: Millis, resumePaused: bool, now: Millis,
                    gains: seq<real>, load: Load): (r: (Engine, Outcome<LoadError>))
    ensures r.1 == Ok <==> load.Decoded?
    ensures load == OpenError ==> r.1 == Err(OpenFailed)
    ensures load == DecodeError ==> r.1 == Err(DecodeFailed)
    ensures r.1.Err? ==> r.0 == e.(sink := None)
    ensures r.1.Ok? ==>
              r.0.currentPath == Some(path) && Position(r.0, now) == position &&
              r.0.sink == Some(Sink(path, position, gains, resumePaused, false)) &&
              r.0.startInstant == Some(now) && r.0.pausedAt == None
    ensures r.1.Ok? && !resumePaused ==> IsPlaying(r.0)
    ensures Inv(e) ==> Inv(r.0)
  {
    match load
    case OpenError => (e.(sink := None), Err(OpenFailed))
    case DecodeError => (e.(sink := None), Err(DecodeFailed))
    case Decoded(reported, probed) =>
      (Engine(Some(Sink(path, position, gains, resumePaused, false)),
              Some(path),
              NewDuration(e, path, reported, probed),
              Some(now), None, position),
       Ok)
  }

  /** Pauses a sink that is playing or drained but not yet paused, freezing
      the position reached at `now`; otherwise does nothing. */
  function Pause(e: Engine, now: Millis): (r: Engine)
    ensures e.sink.None? || e.sink.value.paused ==> r == e
    ensures Inv(e) ==> Inv(r)
  {
    if e.sink.Some? && !e.sink.value.paused then
      e.(sink := Some(e.sink.value.(paused := true)),
         pausedAt := Some(Position(e, now)),
         startInstant := None)
    else e
  }

  /** Resumes a paused sink: a frozen position becomes the new offset and the
      clock restarts at `now`; otherwise does nothing. */
  function Resume(e: Engine, now: Millis): (r: Engine)
    ensures !SinkPaused(e) ==> r == e
    ensures Inv(e) ==> Inv(r)
  {
    if SinkPaused(e) then
      e.(sink := Some(e.sink.value.(paused := false)),
         positionOffset := if e.pausedAt.Some? then e.pausedAt.value else e.positionOffset,
         pausedAt := None,
         startInstant := Some(now))
    else e
  }

  /** A seek target limited to the known duration. */
  function Clamp(target: Millis, duration: Option<Millis>): (c: Millis)
    ensures c <= target && (duration.Some? ==> c <= duration.value)
    ensures (duration.None? || target <= duration.value) ==> c == target
    ensures duration.Some? && duration.value < target ==> c == duration.value
  {
    if duration.Some? && duration.value < target then duration.value else target
  }

  function Distance(a: Millis, b: Millis): Millis {
    if a >= b then a - b else b - a
  }

  /** Whether a seek to `target` rebuilds the session: a track is loaded and
      the clamped target is at least the tolerance away from the position. */
  predicate SeekReloads(e: Engine, target: Millis, now: Millis) {
    e.currentPath.Some? && Distance(Position(e, now), Clamp(target, e.duration)) >= SeekTolerance
  }

  /** Moves playback of the current track to `target` (clamped to the known
      duration), keeping the pause state of the sink. */
  function SeekTo(e: Engine, target: Millis, now: Millis, gains: seq<real>, load: Load)
    : (r: (Engine, Outcome<LoadError>))
    ensures !SeekReloads(e, target, now) ==> r == (e, Ok)
    ensures Inv(e) ==> Inv(r.0)
  {
    if SeekReloads(e, target, now) then
      PlayFrom(e, e.currentPath.value, Clamp(target, e.duration), SinkPaused(e), now, gains, load)
    else (e, Ok)
  }

  /** The audio thread has played everything queued on the sink. */
  function Drain(e: Engine): (r: Engine)
    ensures Inv(e) ==> Inv(r)
  {
    if e.sink.Some? then e.(sink := Some(e.sink.value.(empty := true))) else e
  }

  // ---- Properties of the timeline ----

  /** Stopping forgets the track and resets the position to zero. */
  lemma StoppedIsReset(now: Millis)
    ensures Inv(Stopped) && Position(Stopped, now) == 0 && !IsPlaying(Stopped)
    ensures Stopped.currentPath.None? && Stopped.duration.None?
  {
  }

  /** The position never goes backwards as time passes, and stands still
      while it is frozen by a pause. */
  lemma PositionMonotone(e: Engine, t1: Millis, t2: Millis)
    requires t1 <= t2
    ensures Position(e, t1) <= Position(e, t2)
    ensures e.pausedAt.Some? || e.startInstant.None? ==> Position(e, t1) == Position(e, t2)
  {
  }

  /** While the clock runs, the position advances exactly with real time. */
  lemma PositionAdvances(e: Engine, t: Millis, d: Millis)
    requires e.pausedAt.None? && e.startInstant.Some? && e.startInstant.value <= t
    ensures Position(e, t + d) == Position(e, t) + d
  {
  }

  /** Pausing a sink that is not paused freezes the position reached at that
      instant: every later reading returns it. */
  lemma PauseFreezesPosition(e: Engine, t: Millis, later: Millis)
    requires e.sink.Some? && !e.sink.value.paused
    ensures SinkPaused(Pause(e, t)) && Pause(e, t).pausedAt == Some(Position(e, t))
    ensures Position(Pause(e, t), later) == Position(e, t)
  {
  }

  /** Pause then resume: right after resuming the position is the one
      reached at the pause, and from there it advances with real time. */
  lemma PauseResumeContinues(e: Engine, t1: Millis, t2: Millis, d: Millis)
    requires e.sink.Some? && !e.sink.value.paused
    ensures var r := Resume(Pause(e, t1), t2);
            r.sink.Some? && !r.sink.value.paused && Position(r, t2 + d) == Position(e, t1) + d
  {
  }

  /** A seek that rebuilds the session and loads lands exactly on the clamped
      target, keeps the track and the pause state, and never goes past the
      known duration. */
  lemma SeekLandsOnTarget(e: Engine, target: Millis, now: Millis, gains: seq<real>, load: Load)
    requires SeekReloads(e, target, now) && load.Decoded?
    ensures var r := SeekTo(e, target, now, gains, load);
            r.1 == Ok && Position(r.0, now) == Clamp(target, e.duration) &&
            r.0.currentPath == e.currentPath && SinkPaused(r.0) == SinkPaused(e) &&
            (e.duration.Some? ==> r.0.duration == e.duration && Position(r.0, now) <= e.duration.value)
  {
  }

  /** A reload that starts playing advances from the requested position
      with real time. */
  lemma ReloadAdvances(e: Engine, path: Path, position: Millis, now: Millis, d: Millis,
                       gains: seq<real>, load: Load)
    requires load.Decoded?
    ensures var r := PlayFrom(e, path, position, false, now, gains, load).0;
            IsPlaying(r) && Position(r, now + d) == position + d
  {
  }

  /** A reload that starts paused leaves the clock running: while the sink
      stays paused the reported position keeps moving forward from the start
      position, and a later resume jumps it back to that start position. */
  lemma PausedReloadClockRuns(e: Engine, path: Path, position: Millis, now: Millis, d: Millis,
                              gains: seq<real>, load: Load)
    requires load.Decoded?
    ensures var r := PlayFrom(e, path, position, true, now, gains, load).0;
            SinkPaused(r) && !IsPlaying(r) &&
            Position(r, now + d) == position + d &&
            Pause(r, now + d) == r &&
            Position(Resume(r, now + d), now + d) == position
  {
  }

  /** A failed load has already dropped the old sink, but keeps the track,
      the duration and the clock: nothing plays while the position goes on
      counting. */
  lemma FailedLoadKeepsTimeline(e: Engine, path: Path, position: Millis, resumePaused: bool,
                                now: Millis, gains: seq<real>, load: Load)
    requires !load.Decoded?
    ensures var r := PlayFrom(e, path, position, resumePaused, now, gains, load).0;
            r.sink.None? && !IsPlaying(r) &&
            r.currentPath == e.currentPath && r.duration == e.duration &&
            (forall t :: Position(r, t) == Position(e, t))
  {
  }

  /** The duration is looked up again unless the same track is reloaded with
      a known duration; then it is kept. */
  lemma DurationCache(e: Engine, path: Path, position: Millis, resumePaused: bool, now: Millis,
                      gains: seq<real>, reported: Option<Millis>, probed: Option<Millis>)
    ensures var r := PlayFrom(e, path, position, resumePaused, now, gains, Decoded(reported, probed)).0;
            (e.currentPath == Some(path) && e.duration.Some? ==> r.duration == e.duration) &&
            (e.currentPath != Some(path) || e.duration.None? ==>
               r.duration == (if reported.Some? then reported else probed))
  {
  }
}
