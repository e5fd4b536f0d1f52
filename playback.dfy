/** The Rust player's playback controller (`AudioEngine` in
    `src/slint_app.rs`): one object whose methods update its fields in place. Each method is proved to perform the
    matching transition of `Timeline`. */
module Playback {
  import opened Common
  import opened Timeline
  import Equalizer

  class AudioEngine {
    var sink: Option<Sink>
    var currentPath: Option<Path>
    var duration: Option<Millis>
    var startInstant: Option<Millis>
    var pausedAt: Option<Millis>
    var positionOffset: Millis
    const eq: Equalizer.Equalizer

    /** The fields as one value. */
    function State(): Engine
      reads this
    {
      Engine(sink, currentPath, duration, startInstant, pausedAt, positionOffset)
    }

    ghost predicate Valid()
      reads this, eq
    {
      eq.Valid() && Inv(State())
    }

    /** A controller with no track and a flat equalizer. */
    constructor ()
      ensures Valid() && State() == Stopped && fresh(eq)
      ensures eq.gainsDb == seq(Equalizer.Bands, _ => 0.0)
    {
      sink, currentPath, duration := None, None, None;
      startInstant, pausedAt, positionOffset := None, None, 0;
      eq := new Equalizer.Equalizer();
    }

    method Stop()
      requires Valid()
      modifies this
      ensures Valid() && State() == Stopped
    {
      sink := None;
      currentPath := None;
      duration := None;
      startInstant := None;
      pausedAt := None;
      positionOffset := 0;
    }

    method PlayFrom(path: Path, position: Millis, resumePaused: bool, now: Millis, load: Load)
      returns (r: Outcome<LoadError>)
      requires Valid()
      modifies this
      ensures Valid()
      ensures (State(), r) == Timeline.PlayFrom(old(State()), path, position, resumePaused, now, eq.gainsDb, load)
    {
      sink := None;
      if load == OpenError {
        return Err(OpenFailed);
      }
      if load == DecodeError {
        return Err(DecodeFailed);
      }
      var sameTrack := currentPath == Some(path);
      if !sameTrack || duration.None? {
        duration := load.reported.OrElse(load.probed);
      }
      var gains := eq.Snapshot();
      sink := Some(Sink(path, position, gains, false, false));
      currentPath := Some(path);
      positionOffset := position;
      pausedAt := None;
      startInstant := Some(now);
      if resumePaused {
        sink := Some(sink.value.(paused := true));
      }
      r := Ok;
    }

    method PlayFile(path: Path, now: Millis, load: Load) returns (r: Outcome<LoadError>)
      requires Valid()
      modifies this
      ensures Valid()
      ensures (State(), r) == Timeline.PlayFrom(old(State()), path, 0, false, now, eq.gainsDb, load)
    {
      r := PlayFrom(path, 0, false, now, load);
    }

    method Pause(now: Millis)
      requires Valid()
      modifies this
      ensures Valid() && State() == Timeline.Pause(old(State()), now)
    {
      if sink.Some? && !sink.value.paused {
        sink := Some(sink.value.(paused := true));
        pausedAt := Some(Position(State(), now));
        startInstant := None;
      }
    }

    method Resume(now: Millis)
      requires Valid()
      modifies this
      ensures Valid() && State() == Timeline.Resume(old(State()), now)
    {
      if sink.Some? && sink.value.paused {
        sink := Some(sink.value.(paused := false));
        if pausedAt.Some? {
          positionOffset := pausedAt.value;
          pausedAt := None;
        }
        startInstant := Some(now);
      }
    }

    method SeekTo(target: Millis, now: Millis, load: Load) returns (r: Outcome<LoadError>)
      requires Valid()
      modifies this
      ensures Valid()
      ensures (State(), r) == Timeline.SeekTo(old(State()), target, now, eq.gainsDb, load)
    {
      var clamped := if duration.Some? && duration.value < target then duration.value else target;
      if currentPath.Some? {
        var path := currentPath.value;
        var wasPaused := sink.Some? && sink.value.paused;
        if Distance(Position(State(), now), clamped) < SeekTolerance {
          return Ok;
        }
        r := PlayFrom(path, clamped, wasPaused, now, load);
      } else {
        r := Ok;
      }
    }

    /** The audio thread finishing the queued audio. The Rust player never
        calls this: the sink's `empty` flag changes under it. */
    method QueueDrained()
      requires Valid()
      modifies this
      ensures Valid() && State() == Drain(old(State()))
    {
      if sink.Some? {
        sink := Some(sink.value.(empty := true));
      }
    }
  }
}
