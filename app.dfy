/** The player behind the user interface: the shared state the event
    handlers capture (track list, filtered list, shuffle order, repeat and
    shuffle flags, band gains, selection, search text, the engine) and one
    method per handler. What a handler shows in the interface is left out,
    except the index it highlights, which the navigation handlers return. */
module App {
  import opened Common
  import opened Timeline
  import opened Playlist
  import Playback
  import Equalizer

  /** The gain in dB a band slider position in [0, 1] stands for. */
  function SliderGain(value: real): (g: real)
    ensures 0.0 <= value <= 1.0 ==> -12.0 <= g <= 12.0
    ensures value == 0.5 <==> g == 0.0
    ensures value < 0.5 <==> g < 0.0
  {
    (value - 0.5) * 24.0
  }

  /** The gain table after a band change: band `index` takes `gain` when it
      is one of the ten bands; every other band, and every band for an
      out-of-range index, keeps its gain. */
  function SetBand(gains: seq<real>, index: int, gain: real): (r: seq<real>)
    requires |gains| == Equalizer.Bands
    ensures |r| == Equalizer.Bands
    ensures forall j :: 0 <= j < |r| && j != index ==> r[j] == gains[j]
    ensures 0 <= index < Equalizer.Bands ==> r[index] == gain
  {
    if 0 <= index < Equalizer.Bands then gains[index := gain] else gains
  }

  /** The engine after starting track `index` from the beginning, when the
      index names a track; otherwise unchanged. A track that loads plays
      from 0; one that fails leaves only the old sink dropped. */
  function StartTrack(e: Engine, songs: seq<Song>, index: nat, now: Millis, gains: seq<real>, load: Load)
    : (r: Engine)
    ensures index >= |songs| ==> r == e
    ensures index < |songs| && load.Decoded? ==>
              r.currentPath == Some(songs[index].path) && Position(r, now) == 0 && IsPlaying(r)
    ensures index < |songs| && !load.Decoded? ==> r == e.(sink := None)
    ensures Inv(e) ==> Inv(r)
  {
    if index < |songs| then PlayFrom(e, songs[index].path, 0, false, now, gains, load).0 else e
  }

  /** Track `index` is the one the engine has loaded. */
  predicate IsLoaded(e: Engine, songs: seq<Song>, index: nat) {
    e.currentPath.Some? && index < |songs| && songs[index].path == e.currentPath.value
  }

  /** Selecting a track: the loaded track toggles between pause and resume
      and is never reloaded (so after a failed reload, with the sink gone,
      selecting it does nothing); any other track starts from the
      beginning. */
  function Select(e: Engine, songs: seq<Song>, index: nat, now: Millis, gains: seq<real>, load: Load)
    : (r: Engine)
    ensures IsLoaded(e, songs, index) ==> r.currentPath == e.currentPath && r.duration == e.duration
    ensures IsLoaded(e, songs, index) && e.sink.None? ==> r == e
    ensures IsLoaded(e, songs, index) && IsPlaying(e) ==> SinkPaused(r)
    ensures IsLoaded(e, songs, index) && SinkPaused(e) ==> r.sink.Some? && !SinkPaused(r)
    ensures !IsLoaded(e, songs, index) && index < |songs| && load.Decoded? ==>
              r.currentPath == Some(songs[index].path) && Position(r, now) == 0 && IsPlaying(r)
    ensures index >= |songs| ==> r == e
    ensures Inv(e) ==> Inv(r)
  {
    if IsLoaded(e, songs, index) then
      (if IsPlaying(e) then Pause(e, now) else Resume(e, now))
    else StartTrack(e, songs, index, now, gains, load)
  }

  /** The play/pause button: with no sink, or a drained one, start the
      selected track (else the first filtered one); otherwise toggle. */
  function PlayPause(e: Engine, songs: seq<Song>, selected: Option<nat>, fi: seq<nat>, now: Millis,
                     gains: seq<real>, load: Load): (r: Engine)
    ensures e.sink.Some? && !e.sink.value.empty ==>
              r.currentPath == e.currentPath && r.duration == e.duration
    ensures IsPlaying(e) ==> SinkPaused(r)
    ensures SinkPaused(e) && !e.sink.value.empty ==> r.sink.Some? && !SinkPaused(r)
    ensures (e.sink.None? || e.sink.value.empty) && Current(selected, fi).None? ==> r == e
    ensures var t := Current(selected, fi);
            (e.sink.None? || e.sink.value.empty) && t.Some? && t.value < |songs| && load.Decoded? ==>
              r.currentPath == Some(songs[t.value].path) && Position(r, now) == 0 && IsPlaying(r)
    ensures Inv(e) ==> Inv(r)
  {
    if e.sink.None? || e.sink.value.empty then
      var target := Current(selected, fi);
      if target.Some? then StartTrack(e, songs, target.value, now, gains, load) else e
    else if IsPlaying(e) then Pause(e, now)
    else Resume(e, now)
  }

  /** The condition the timer checks before auto-advancing: a sink that is
      not paused and has played everything. */
  predicate Drained(e: Engine)
    ensures Drained(e) ==> !IsPlaying(e) && !SinkPaused(e)
  {
    e.sink.Some? && !e.sink.value.paused && e.sink.value.empty
  }

  // ---- Properties of the handlers' rules ----

  /** A band change while a track is loaded reloads it where it was: same
      track, same position at that instant, same pause state, and the new
      sink filters with the new gains. */
  lemma EqReloadKeepsPlace(e: Engine, now: Millis, gains: seq<real>, load: Load)
    requires Inv(e) && e.currentPath.Some? && load.Decoded?
    ensures var r := PlayFrom(e, e.currentPath.value, Position(e, now), SinkPaused(e), now, gains, load).0;
            r.currentPath == e.currentPath && Position(r, now) == Position(e, now) &&
            SinkPaused(r) == SinkPaused(e) && r.sink.value.gains == gains &&
            (e.duration.Some? ==> r.duration == e.duration)
  {
  }

  class Player {
    const songs: seq<Song>
    var filteredIndices: seq<nat>
    var shuffleOrder: seq<nat>
    var repeatOne: bool
    var shuffle: bool
    var eqGains: seq<real>
    var selected: Option<nat>
    var search: string
    const engine: Playback.AudioEngine

    ghost predicate Valid()
      reads this, engine, engine.eq
    {
      engine.Valid() && |eqGains| == Equalizer.Bands &&
      filteredIndices == Filtered(songs, Lower(search)) &&
      Distinct(filteredIndices) && Distinct(shuffleOrder)
    }

    /** The state before any event: every track listed, nothing selected,
        both modes off, flat gains, engine stopped. */
    constructor (tracks: seq<Song>)
      ensures Valid() && fresh(engine) && fresh(engine.eq)
      ensures songs == tracks && filteredIndices == Range(|tracks|) && shuffleOrder == []
      ensures !repeatOne && !shuffle && selected == None && search == []
      ensures eqGains == seq(Equalizer.Bands, _ => 0.0) && engine.State() == Stopped
    {
      songs := tracks;
      filteredIndices := Range(|tracks|);
      shuffleOrder := [];
      repeatOne, shuffle := false, false;
      eqGains := seq(Equalizer.Bands, _ => 0.0);
      selected := None;
      search := [];
      engine := new Playback.AudioEngine();
      new;
      FilteredEmptyQuery(tracks);
      assert Lower([]) == [];
    }

    /** A track in the list was clicked. */
    method OnSelect(index: nat, now: Millis, load: Load)
      requires Valid()
      modifies this, engine
      ensures Valid() && selected == Some(index)
      ensures filteredIndices == old(filteredIndices) && shuffleOrder == old(shuffleOrder)
      ensures repeatOne == old(repeatOne) && shuffle == old(shuffle) && eqGains == old(eqGains)
      ensures search == old(search)
      ensures engine.State() == Select(old(engine.State()), songs, index, now, engine.eq.gainsDb, load)
    {
      selected := Some(index);
      if engine.currentPath.Some? && index < |songs| && songs[index].path == engine.currentPath.value {
        if IsPlaying(engine.State()) {
          engine.Pause(now);
        } else {
          engine.Resume(now);
        }
        return;
      }
      if index < |songs| {
        var _ := engine.PlayFile(songs[index].path, now, load);
      }
    }

    /** The play/pause button. */
    method OnPlayPause(now: Millis, load: Load)
      requires Valid()
      modifies engine
      ensures Valid()
      ensures engine.State() ==
                PlayPause(old(engine.State()), songs, selected, filteredIndices, now, engine.eq.gainsDb, load)
    {
      if engine.sink.None? || engine.sink.value.empty {
        if selected.Some? {
          if selected.value < |songs| {
            var _ := engine.PlayFile(songs[selected.value].path, now, load);
          }
        } else if filteredIndices != [] {
          var first := filteredIndices[0];
          if first < |songs| {
            var _ := engine.PlayFile(songs[first].path, now, load);
          }
        }
      } else if IsPlaying(engine.State()) {
        engine.Pause(now);
      } else {
        engine.Resume(now);
      }
    }

    /** The "previous" button; `shown` is the index it highlights. It never
        changes the selection. */
    method OnPrev(now: Millis, load: Load) returns (shown: Option<nat>)
      requires Valid()
      modifies engine
      ensures Valid()
      ensures var cur := Current(selected, filteredIndices);
              var e := old(engine.State());
              var g := engine.eq.gainsDb;
              if cur.None? then shown == None && engine.State() == e
              else match PrevDecision(Position(e, now), shuffle, shuffleOrder, filteredIndices, cur.value)
                   case RestartTrack =>
                     shown == None && engine.State() == SeekTo(e, 0, now, g, load).0
                   case ChangeTrack(target) =>
                     shown == target &&
                     engine.State() == (if target.Some? then StartTrack(e, songs, target.value, now, g, load) else e)
    {
      shown := None;
      var fi := filteredIndices;
      var cur := Current(selected, fi);
      if cur.Some? {
        if Position(engine.State(), now) > RestartThreshold {
          var _ := engine.SeekTo(0, now, load);
        } else {
          var idx := if shuffle then ShufflePrev(shuffleOrder, cur.value) else Predecessor(fi, cur.value);
          if idx.Some? {
            if idx.value < |songs| {
              var _ := engine.PlayFile(songs[idx.value].path, now, load);
            }
            shown := idx;
          }
        }
      }
    }

    /** The "next" button; `shown` is the index it highlights. It never
        changes the selection and ignores repeat-one. */
    method OnNext(now: Millis, load: Load) returns (shown: Option<nat>)
      requires Valid()
      modifies engine
      ensures Valid()
      ensures var cur := Current(selected, filteredIndices);
              var target := if cur.Some? then NextTrack(shuffle, shuffleOrder, filteredIndices, cur.value) else None;
              shown == target &&
              engine.State() == (if target.Some? then StartTrack(old(engine.State()), songs, target.value, now, engine.eq.gainsDb, load)
                                 else old(engine.State()))
    {
      shown := None;
      var fi := filteredIndices;
      var cur := Current(selected, fi);
      if cur.Some? {
        var idx := if shuffle then ShuffleNext(shuffleOrder, cur.value) else Successor(fi, cur.value);
        if idx.Some? {
          if idx.value < |songs| {
            var _ := engine.PlayFile(songs[idx.value].path, now, load);
          }
          shown := idx;
        }
      }
    }

    /** The stop button. */
    method OnStop()
      requires Valid()
      modifies engine
      ensures Valid() && engine.State() == Stopped
    {
      engine.Stop();
    }

    /** The progress slider was moved to the position `target`; it only acts
        when the duration is known. */
    method OnSeek(target: Millis, now: Millis, load: Load)
      requires Valid()
      modifies engine
      ensures Valid()
      ensures engine.State() ==
                if old(engine.State()).duration.Some?
                then SeekTo(old(engine.State()), target, now, engine.eq.gainsDb, load).0
                else old(engine.State())
    {
      if engine.duration.Some? {
        var _ := engine.SeekTo(target, now, load);
      }
    }

    /** The search text changed: the filtered list is recomputed; the
        shuffle order, the selection and playback are left alone. */
    method OnSearchChanged(text: string)
      requires Valid()
      modifies this
      ensures Valid() && search == text
      ensures filteredIndices == Filtered(songs, Lower(text))
      ensures shuffleOrder == old(shuffleOrder) && selected == old(selected)
      ensures shuffle == old(shuffle) && repeatOne == old(repeatOne) && eqGains == old(eqGains)
    {
      search := text;
      filteredIndices := FilterIndices(songs, search);
      FilteredIncreasing(songs, Lower(search));
    }

    /** The periodic timer's auto-advance: once the sink has drained
        unpaused, start the next track by the repeat/shuffle rules; `shown`
        is the index it highlights. It never changes the selection. */
    method OnTick(now: Millis, load: Load) returns (shown: Option<nat>)
      requires Valid()
      modifies engine
      ensures Valid()
      ensures var e := old(engine.State());
              var cur := Current(selected, filteredIndices);
              var target := if Drained(e) && cur.Some?
                            then AutoNext(repeatOne, shuffle, shuffleOrder, filteredIndices, cur.value)
                            else None;
              shown == target &&
              engine.State() == (if target.Some? then StartTrack(e, songs, target.value, now, engine.eq.gainsDb, load) else e)
    {
      shown := None;
      if engine.sink.Some? && !engine.sink.value.paused && engine.sink.value.empty {
        var fi := filteredIndices;
        var cur := Current(selected, fi);
        if cur.Some? {
          var next := if repeatOne then Some(cur.value)
                      else if shuffle then ShuffleNext(shuffleOrder, cur.value)
                      else Successor(fi, cur.value);
          if next.Some? {
            if next.value < |songs| {
              var _ := engine.PlayFile(songs[next.value].path, now, load);
            }
            shown := next;
          }
        }
      }
    }

    /** The repeat button flips repeat-one and nothing else. */
    method OnToggleRepeat()
      requires Valid()
      modifies this
      ensures Valid() && repeatOne == !old(repeatOne)
      ensures shuffle == old(shuffle) && shuffleOrder == old(shuffleOrder)
      ensures filteredIndices == old(filteredIndices) && selected == old(selected)
      ensures eqGains == old(eqGains) && search == old(search)
    {
      repeatOne := !repeatOne;
    }

    /** The shuffle button flips shuffle mode; switching it on captures a
        fresh permutation of the filtered list (the random choices are
        `draw`), switching it off keeps the old order. */
    method OnToggleShuffle(draw: nat -> nat)
      requires Valid()
      modifies this
      ensures Valid() && shuffle == !old(shuffle)
      ensures shuffle ==> |shuffleOrder| == |filteredIndices| &&
                          multiset(shuffleOrder) == multiset(filteredIndices)
      ensures !shuffle ==> shuffleOrder == old(shuffleOrder)
      ensures repeatOne == old(repeatOne) && filteredIndices == old(filteredIndices)
      ensures selected == old(selected) && eqGains == old(eqGains) && search == old(search)
    {
      shuffle := !shuffle;
      if shuffle {
        shuffleOrder := ShuffleWith(filteredIndices, draw);
      }
    }

    /** A band slider moved to `value`: the band's gain changes (only for
        bands 0-9), the engine's equalizer takes the whole table, and a
        loaded track is reloaded at its current position with its pause
        state. */
    method OnEqBandChanged(index: int, value: real, now: Millis, load: Load)
      requires Valid()
      modifies this, engine, engine.eq
      ensures Valid()
      ensures eqGains == SetBand(old(eqGains), index, SliderGain(value))
      ensures engine.eq.gainsDb == eqGains
      ensures var e := old(engine.State());
              engine.State() ==
                if e.currentPath.Some?
                then PlayFrom(e, e.currentPath.value, Position(e, now), SinkPaused(e), now, eqGains, load).0
                else e
      ensures selected == old(selected) && filteredIndices == old(filteredIndices)
      ensures shuffle == old(shuffle) && shuffleOrder == old(shuffleOrder)
      ensures repeatOne == old(repeatOne) && search == old(search)
    {
      if 0 <= index < Equalizer.Bands {
        eqGains := eqGains[index := SliderGain(value)];
      }
      if engine.currentPath.Some? {
        var path := engine.currentPath.value;
        var pos := Position(engine.State(), now);
        var paused := engine.sink.Some? && engine.sink.value.paused;
        engine.eq.SetGains(eqGains);
        var _ := engine.PlayFrom(path, pos, paused, now, load);
      } else {
        engine.eq.SetGains(eqGains);
      }
    }
  }
}
