/** Properties of the worker model: what each command does, the translation of engine
    events, and how `run` ends. */
module WorkerProperties {
  import opened Wrappers
  import opened Numeric
  import opened Commands
  import opened Events
  import Engine
  import Sequences
  import opened Worker

  // ---------------------------------------------------------------------------
  // Single commands

  /** `SetVolume(v)` records v and reports exactly one `VolumeChanged(v)`, with or
      without a player; nothing else changes. */
  lemma SetVolumeAlwaysReported(s: WorkerState, v: u16, env: Env, tick: nat)
    ensures CommandOutcome(s, SetVolume(v), env, tick)
         == Applied(s.(currentVolume := v, eventTx := s.eventTx + [VolumeChanged(v)]), Continue)
  {
  }

  /** A command that, on an initialised worker, makes at most one engine call: `Load`,
      `Play`, `Pause`, `Stop` or `Seek`. */
  predicate IsTransport(cmd: PlayerCommand) {
    cmd.Load? || cmd.Play? || cmd.Pause? || cmd.Stop? || cmd.Seek?
  }

  /** The engine call such a command stands for. */
  function TransportCall(cmd: PlayerCommand): Engine.EngineCall
    requires IsTransport(cmd)
  {
    match cmd
    case Load(uri, startPlaying, positionMs) => Engine.Load(uri, startPlaying, positionMs)
    case Play => Engine.Play
    case Pause => Engine.Pause
    case Stop => Engine.Stop
    case Seek(p) => Engine.Seek(p)
  }

  /** `Play`, `Pause` and `Seek(p)` reach the engine only when there is a player; without
      one they change nothing. They never send an event. */
  lemma TransportNeedsPlayer(s: WorkerState, cmd: PlayerCommand, env: Env, tick: nat)
    requires cmd.Play? || cmd.Pause? || cmd.Seek?
    ensures s.player.None? ==> CommandOutcome(s, cmd, env, tick) == Applied(s, Continue)
    ensures s.player.Some? ==>
              CommandOutcome(s, cmd, env, tick) == Applied(s.(engineCalls := s.engineCalls + [TransportCall(cmd)]), Continue)
  {
  }

  /** `Stop` clears the current track whether or not there is a player, and stops the
      engine only if there is one; a second `Stop` changes nothing but the call log, and
      neither sends an event. */
  lemma StopIdempotent(s: WorkerState, env: Env, tick: nat, tick': nat)
    ensures var once := CommandOutcome(s, Stop, env, tick).state;
            var twice := CommandOutcome(once, Stop, env, tick').state;
            && once.currentTrackUri.None?
            && once.engineCalls == (if s.player.Some? then s.engineCalls + [Engine.Stop] else s.engineCalls)
            && once == s.(currentTrackUri := None, engineCalls := once.engineCalls)
            && twice == once.(engineCalls := twice.engineCalls)
            && twice.eventTx == s.eventTx
  {
  }

  /** `Load` parses the URI before it checks for a player. On success it records the URI
      and makes exactly one engine load with the given flag and position; on failure it
      sends exactly one `Error` whose message starts with "Failed to load track: " and leaves
      everything else, the current track included, as it was. */
  lemma LoadChecksUriFirst(s: WorkerState, uri: string, startPlaying: bool, positionMs: u32, env: Env, tick: nat)
    ensures var a := CommandOutcome(s, Load(uri, startPlaying, positionMs), env, tick);
            && a.step == Continue
            && (env.parses(uri) && s.player.Some? ==>
                  a.state == s.(currentTrackUri := Some(uri),
                                engineCalls := s.engineCalls + [Engine.Load(uri, startPlaying, positionMs)]))
            && (!env.parses(uri) ==>
                  a.state == Send(s, Error(LOAD_ERROR_PREFIX + InvalidUriMessage(uri, env))))
            && (env.parses(uri) && s.player.None? ==>
                  a.state == Send(s, Error(LOAD_ERROR_PREFIX + NOT_INITIALIZED)))
  {
  }

  /** Every failed `Load` reports one error with the load prefix and makes no engine call. */
  lemma LoadFailureReported(s: WorkerState, uri: string, startPlaying: bool, positionMs: u32, env: Env, tick: nat)
    requires !env.parses(uri) || s.player.None?
    ensures var a := CommandOutcome(s, Load(uri, startPlaying, positionMs), env, tick);
            && |a.state.eventTx| == |s.eventTx| + 1
            && a.state.eventTx[..|s.eventTx|] == s.eventTx
            && a.state.eventTx[|s.eventTx|].Error?
            && LOAD_ERROR_PREFIX <= a.state.eventTx[|s.eventTx|].message
            && a.state.engineCalls == s.engineCalls
            && a.state.currentTrackUri == s.currentTrackUri
  {
    var a := CommandOutcome(s, Load(uri, startPlaying, positionMs), env, tick);
    var msg := a.state.eventTx[|s.eventTx|].message;
    assert msg == LOAD_ERROR_PREFIX + msg[|LOAD_ERROR_PREFIX|..];
  }

  /** A `Preload` whose URI does not parse is an error of `handle_command`; one that parses
      preloads on the player if there is one and is otherwise a silent no-op. */
  lemma PreloadOutcomes(s: WorkerState, uri: string, env: Env, tick: nat)
    ensures !env.parses(uri) ==> CommandOutcome(s, Preload(uri), env, tick) == Applied(s, Failed)
    ensures env.parses(uri) && s.player.None? ==> CommandOutcome(s, Preload(uri), env, tick) == Applied(s, Continue)
    ensures env.parses(uri) && s.player.Some? ==>
              CommandOutcome(s, Preload(uri), env, tick) == Applied(s.(engineCalls := s.engineCalls + [Engine.Preload(uri)]), Continue)
  {
  }

  /** `Shutdown` stops the engine if there is one, sends nothing itself and asks the loop to stop. */
  lemma ShutdownStopsEngine(s: WorkerState, env: Env, tick: nat)
    ensures CommandOutcome(s, PlayerCommand.Shutdown, env, tick)
         == Applied(s.(engineCalls := if s.player.Some? then s.engineCalls + [Engine.Stop] else s.engineCalls), Exit)
  {
  }

  /** `initialize` ignores the client id and port it is given: the outcome of an
      `Initialize` command depends on neither. */
  lemma InitializeIgnoresClientId(s: WorkerState, id1: string, port1: u16, id2: string, port2: u16, env: Env, tick: nat)
    ensures CommandOutcome(s, Initialize(id1, port1), env, tick) == CommandOutcome(s, Initialize(id2, port2), env, tick)
  {
  }

  /** `Initialize` sends `Initialized` exactly when it creates a player, and otherwise one
      `InitializationFailed` carrying the error; a failure leaves the player as it was, but a
      failure after the connect (no backend, no mixer) leaves the new session stored. */
  lemma InitializeOutcomes(s: WorkerState, clientId: string, port: u16, env: Env, tick: nat)
    ensures var o := env.initOutcome(tick);
            var a := CommandOutcome(s, Initialize(clientId, port), env, tick);
            && a.step == Continue
            && a.state.engineCalls == s.engineCalls
            && a.state.currentTrackUri == s.currentTrackUri
            && a.state.session == (if o.Connected? then Some(Session) else s.session)
            && (InitError(s.config, o).None? ==> a.state.player == Some(Player) && a.state.eventTx == s.eventTx + [Initialized])
            && (InitError(s.config, o).Some? ==>
                  a.state.player == s.player
                  && a.state.eventTx == s.eventTx + [InitializationFailed(InitError(s.config, o).value)])
  {
  }

  // ---------------------------------------------------------------------------
  // Engine events

  /** The bridge event's track slot always carries the current track, or "" without one;
      `Playing` reports duration 0, positions pass through, `Unavailable` becomes an
      `Error` naming the track, and every other event has its own namesake. */
  lemma TranslationTable(track: Option<string>, e: Engine.EngineEvent)
    ensures var r := Translate(track, e);
            && (e.Playing? ==> r == Some(PlayerEvent.Playing(track.UnwrapOr(""), e.positionMs, 0)))
            && (e.Paused? ==> r == Some(PlayerEvent.Paused(track.UnwrapOr(""), e.positionMs)))
            && (e.Stopped? ==> r == Some(PlayerEvent.Stopped))
            && (e.EndOfTrack? ==> r == Some(TrackEnded(track.UnwrapOr(""))))
            && (e.TimeToPreloadNextTrack? ==> r == Some(PlayerEvent.TimeToPreloadNextTrack))
            && (e.Loading? ==> r == Some(PlayerEvent.Loading(track.UnwrapOr(""))))
            && (e.Unavailable? ==> r == Some(Error("Track unavailable: " + e.trackId)))
            && (e.Unhandled? ==> r.None?)
  {
  }

  /** Translated events that name a track name the current one. */
  lemma TranslateNamesCurrentTrack(track: Option<string>, e: Engine.EngineEvent)
    ensures var r := Translate(track, e);
            (r.Some? && (r.value.Playing? || r.value.Paused? || r.value.TrackEnded? || r.value.Loading?) ==>
               r.value.trackUri == track.UnwrapOr(""))
  {
  }

  /** Draining two batches one after the other sends what draining them together
      sends: how the engine's events are split across loop iterations does not matter
      while the current track stays the same. */
  lemma {:induction false} TranslateAllSplit(track: Option<string>, xs: seq<Engine.EngineEvent>, ys: seq<Engine.EngineEvent>)
    ensures TranslateAll(track, xs + ys) == TranslateAll(track, xs) + TranslateAll(track, ys)
    decreases |xs|
  {
    if xs == [] {
      assert xs + ys == ys;
    } else {
      assert (xs + ys)[1..] == xs[1..] + ys;
      TranslateAllSplit(track, xs[1..], ys);
    }
  }

  /** A drain sends nothing exactly when every engine event in it is unhandled. */
  lemma {:induction false} TranslateAllEmpty(track: Option<string>, batch: seq<Engine.EngineEvent>)
    ensures TranslateAll(track, batch) == [] <==> forall i :: 0 <= i < |batch| ==> batch[i].Unhandled?
    decreases |batch|
  {
    if batch != [] {
      TranslateAllEmpty(track, batch[1..]);
      assert forall i :: 1 <= i < |batch| ==> batch[i] == batch[1..][i - 1];
    }
  }

  /** An `Unavailable` engine event for a loaded track yields exactly one `Error` naming
      it, and the playback state is unchanged. */
  lemma UnavailableReportsOneError(s: WorkerState, trackId: string)
    ensures Drained(s, true, [Engine.Unavailable(trackId)])
         == s.(eventTx := s.eventTx + [Error("Track unavailable: " + trackId)])
  {
  }

  // ---------------------------------------------------------------------------
  // The loop

  /** A disconnected command channel ends the loop with one `Shutdown` event. */
  lemma DisconnectEndsRun(s: WorkerState, acquired: bool, tick: nat, env: Env)
    requires s.commandRx == []
    ensures RunFrom(s, acquired, tick, env) == RunEnd(s.(eventTx := s.eventTx + [PlayerEvent.Shutdown]), true)
  {
  }

  /** A `Shutdown` command ends the loop at once: the engine is stopped if there is one,
      no engine events are drained, and one `Shutdown` event is sent. */
  lemma ShutdownCommandEndsRun(s: WorkerState, acquired: bool, tick: nat, env: Env)
    requires s.commandRx != [] && s.commandRx[0] == Received(PlayerCommand.Shutdown)
    ensures var s0 := s.(commandRx := s.commandRx[1..]);
            var calls := if s.player.Some? then s.engineCalls + [Engine.Stop] else s.engineCalls;
            RunFrom(s, acquired, tick, env) == RunEnd(s0.(engineCalls := calls, eventTx := s.eventTx + [PlayerEvent.Shutdown]), true)
  {
  }

  /** A `Preload` of an unparseable URI ends the loop with an error and without a
      `Shutdown` event. */
  lemma BadPreloadAbortsRun(s: WorkerState, acquired: bool, tick: nat, env: Env, uri: string)
    requires s.commandRx != [] && s.commandRx[0] == Received(Preload(uri)) && !env.parses(uri)
    ensures RunFrom(s, acquired, tick, env) == RunEnd(s.(commandRx := s.commandRx[1..]), false)
  {
  }

  /** No event from `i` on (up to `hi`) is `Shutdown`. */
  ghost predicate NoShutdown(x: seq<PlayerEvent>, lo: int, hi: int) {
    forall i :: lo <= i < hi && 0 <= i < |x| ==> !x[i].Shutdown?
  }

  /** Whatever the commands, `run` only appends events; when it returns `Ok` the last event
      it sends is `Shutdown` and it sends no other `Shutdown`; when it fails it sends none. */
  lemma {:induction false} RunShutdownEvents(s: WorkerState, acquired: bool, tick: nat, env: Env)
    ensures ShutdownShape(s.eventTx, RunFrom(s, acquired, tick, env))
    decreases |s.commandRx|
  {
    if s.commandRx != [] {
      if s.commandRx[0].Received?
         && CommandOutcome(s.(commandRx := s.commandRx[1..]), s.commandRx[0].cmd, env, tick).step != Continue {
        FinalIteration(s, acquired, tick, env);
        return;
      }
      var next, acq := QuietIteration(s, acquired, tick, env);
      RunShutdownEvents(next, acq, tick + 1, env);
      var r := RunFrom(next, acq, tick + 1, env);
      NoShutdownJoin(next.eventTx, r.state.eventTx, |s.eventTx|, if r.ok then |r.state.eventTx| - 1 else |r.state.eventTx|);
    }
  }

  /** A run that started with `before` sent only appends to it; when it returns `Ok` its
      last event is `Shutdown` and it sent no other; when it fails it sent none. */
  ghost predicate ShutdownShape(before: seq<PlayerEvent>, r: RunEnd) {
    && before <= r.state.eventTx
    && (r.ok ==> |r.state.eventTx| > |before|
                 && r.state.eventTx[|r.state.eventTx| - 1].Shutdown?
                 && NoShutdown(r.state.eventTx, |before|, |r.state.eventTx| - 1))
    && (!r.ok ==> NoShutdown(r.state.eventTx, |before|, |r.state.eventTx|))
  }

  /** The iteration that receives `Shutdown` or a bad `Preload` ends the run in shape. */
  lemma FinalIteration(s: WorkerState, acquired: bool, tick: nat, env: Env)
    requires s.commandRx != [] && s.commandRx[0].Received?
    requires CommandOutcome(s.(commandRx := s.commandRx[1..]), s.commandRx[0].cmd, env, tick).step != Continue
    ensures ShutdownShape(s.eventTx, RunFrom(s, acquired, tick, env))
  {
    var a := CommandOutcome(s.(commandRx := s.commandRx[1..]), s.commandRx[0].cmd, env, tick);
    assert NoShutdown(a.state.eventTx, |s.eventTx|, |a.state.eventTx|);
  }

  /** A loop iteration that neither ends the loop nor fails appends events, none of them
      `Shutdown`. */
  lemma QuietIteration(s: WorkerState, acquired: bool, tick: nat, env: Env) returns (next: WorkerState, acq: bool)
    requires s.commandRx != []
    requires s.commandRx[0].Received? ==>
               CommandOutcome(s.(commandRx := s.commandRx[1..]), s.commandRx[0].cmd, env, tick).step == Continue
    ensures RunFrom(s, acquired, tick, env) == RunFrom(next, acq, tick + 1, env)
    ensures |next.commandRx| < |s.commandRx|
    ensures s.eventTx <= next.eventTx && NoShutdown(next.eventTx, |s.eventTx|, |next.eventTx|)
  {
    var s0 := s.(commandRx := s.commandRx[1..]);
    if s.commandRx[0].Empty? {
      next, acq := Drained(s0, acquired, env.engineEvents(tick)), acquired;
      DrainedSendsNoShutdown(s0, acquired, env.engineEvents(tick));
    } else {
      var a := CommandOutcome(s0, s.commandRx[0].cmd, env, tick);
      acq := acquired || (s0.player.None? && a.state.player.Some?);
      next := Drained(a.state, acq, env.engineEvents(tick));
      DrainedSendsNoShutdown(a.state, acq, env.engineEvents(tick));
      assert NoShutdown(a.state.eventTx, |s.eventTx|, |a.state.eventTx|);
      NoShutdownJoin(a.state.eventTx, next.eventTx, |s.eventTx|, |next.eventTx|);
    }
  }

  lemma NoShutdownJoin(x: seq<PlayerEvent>, y: seq<PlayerEvent>, lo: int, hi: int)
    requires x <= y && NoShutdown(x, lo, |x|) && NoShutdown(y, |x|, hi)
    ensures NoShutdown(y, lo, hi)
  {
    forall i | lo <= i < hi && 0 <= i < |y|
      ensures !y[i].Shutdown?
    {
      if i < |x| {
        assert y[i] == x[i];
      }
    }
  }

  /** A drain never sends `Shutdown`. */
  lemma DrainedSendsNoShutdown(s: WorkerState, acquired: bool, batch: seq<Engine.EngineEvent>)
    ensures NoShutdown(Drained(s, acquired, batch).eventTx, |s.eventTx|, |Drained(s, acquired, batch).eventTx|)
  {
    var t := TranslateAll(s.currentTrackUri, batch);
    if acquired {
      forall i | |s.eventTx| <= i < |s.eventTx| + |t|
        ensures !(s.eventTx + t)[i].Shutdown?
      {
        assert (s.eventTx + t)[i] == t[i - |s.eventTx|];
      }
    }
  }

  /** A command that makes `handle_command` fail. */
  ghost predicate IsBadPreload(p: Poll, env: Env) {
    p.Received? && p.cmd.Preload? && !env.parses(p.cmd.uri)
  }

  /** `run` returns an error only when some command it received was a `Preload` of an
      unparseable URI. */
  lemma {:induction false} RunFailsOnlyOnBadPreload(s: WorkerState, acquired: bool, tick: nat, env: Env)
    ensures !RunFrom(s, acquired, tick, env).ok ==> exists i :: 0 <= i < |s.commandRx| && IsBadPreload(s.commandRx[i], env)
    decreases |s.commandRx|
  {
    if s.commandRx != [] {
      var s0 := s.(commandRx := s.commandRx[1..]);
      match s.commandRx[0]
      case Empty =>
        var next := Drained(s0, acquired, env.engineEvents(tick));
        RunFailsOnlyOnBadPreload(next, acquired, tick + 1, env);
        if !RunFrom(s, acquired, tick, env).ok {
          var i :| 0 <= i < |next.commandRx| && IsBadPreload(next.commandRx[i], env);
          assert s.commandRx[i + 1] == next.commandRx[i];
        }
      case Received(cmd) =>
        var a := CommandOutcome(s0, cmd, env, tick);
        if a.step == Failed {
          assert IsBadPreload(s.commandRx[0], env);
        } else if a.step == Continue {
          var acq := acquired || (s0.player.None? && a.state.player.Some?);
          var next := Drained(a.state, acq, env.engineEvents(tick));
          RunFailsOnlyOnBadPreload(next, acq, tick + 1, env);
          if !RunFrom(s, acquired, tick, env).ok {
            var i :| 0 <= i < |next.commandRx| && IsBadPreload(next.commandRx[i], env);
            assert s.commandRx[i + 1] == next.commandRx[i];
          }
        }
    }
  }

  /** A worker that starts from `PlayerWorker::new` sends exactly one `Shutdown`, as its
      last event, when `run` returns `Ok`, and none when `run` fails. */
  lemma FreshRunShutdown(commandRx: seq<Poll>, config: PlayerWorkerConfig, env: Env)
    ensures var r := RunFrom(NewWorker(commandRx, config), false, 0, env);
            && (r.ok ==> |r.state.eventTx| > 0
                         && r.state.eventTx[|r.state.eventTx| - 1].Shutdown?
                         && NoShutdown(r.state.eventTx, 0, |r.state.eventTx| - 1))
            && (!r.ok ==> NoShutdown(r.state.eventTx, 0, |r.state.eventTx|))
  {
    RunShutdownEvents(NewWorker(commandRx, config), false, 0, env);
  }

  /** No command looks at the engine's pending events. */
  lemma CommandIgnoresEngineEvents(s: WorkerState, cmd: PlayerCommand, env: Env, tick: nat,
                                   other: nat -> seq<Engine.EngineEvent>)
    ensures CommandOutcome(s, cmd, env.(engineEvents := other), tick) == CommandOutcome(s, cmd, env, tick)
  {
  }

  /** A worker without a player gets one only from an `Initialize` that succeeds. */
  lemma PlayerOnlyFromInitialize(s: WorkerState, cmd: PlayerCommand, env: Env, tick: nat)
    requires s.player.None?
    ensures CommandOutcome(s, cmd, env, tick).state.player.Some? <==>
              cmd.Initialize? && InitError(s.config, env.initOutcome(tick)).None?
  {
  }

  /** `run` reads the engine's pending events only at the iteration it is in and later
      ones: events pending at earlier iterations make no difference. */
  lemma {:induction false} RunReadsLaterEventsOnly(s: WorkerState, acquired: bool, tick: nat, env: Env,
                                                   other: nat -> seq<Engine.EngineEvent>)
    requires forall t :: tick <= t ==> other(t) == env.engineEvents(t)
    ensures RunFrom(s, acquired, tick, env) == RunFrom(s, acquired, tick, env.(engineEvents := other))
    decreases |s.commandRx|
  {
    var env' := env.(engineEvents := other);
    if s.commandRx != [] {
      var s0 := s.(commandRx := s.commandRx[1..]);
      assert other(tick) == env.engineEvents(tick);
      var next: WorkerState, acq: bool;
      if s.commandRx[0].Empty? {
        next, acq := Drained(s0, acquired, env.engineEvents(tick)), acquired;
      } else {
        var cmd := s.commandRx[0].cmd;
        var a := CommandOutcome(s0, cmd, env, tick);
        CommandIgnoresEngineEvents(s0, cmd, env, tick, other);
        if a.step != Continue {
          return;
        }
        acq := acquired || (s0.player.None? && a.state.player.Some?);
        next := Drained(a.state, acq, env.engineEvents(tick));
      }
      assert RunFrom(s, acquired, tick, env) == RunFrom(next, acq, tick + 1, env);
      assert RunFrom(s, acquired, tick, env') == RunFrom(next, acq, tick + 1, env');
      RunReadsLaterEventsOnly(next, acq, tick + 1, env, other);
    }
  }

  /** Every `Initialize` the channel delivers before iteration `k` fails, when the first
      poll is that of iteration `tick`. */
  ghost predicate InitializesFailBefore(polls: seq<Poll>, tick: nat, k: nat, config: PlayerWorkerConfig, env: Env) {
    forall i :: (0 <= i < |polls| && tick + i < k && polls[i].Received? && polls[i].cmd.Initialize?)
                ==> InitError(config, env.initOutcome(tick + i)).Some?
  }

  /** The condition holds of the first poll and passes on to the rest of the channel. */
  lemma InitializesFailBeforeRest(polls: seq<Poll>, tick: nat, k: nat, config: PlayerWorkerConfig, env: Env)
    requires polls != [] && InitializesFailBefore(polls, tick, k, config, env)
    ensures InitializesFailBefore(polls[1..], tick + 1, k, config, env)
    ensures tick < k && polls[0].Received? && polls[0].cmd.Initialize? ==> InitError(config, env.initOutcome(tick)).Some?
  {
    forall i | 0 <= i < |polls[1..]|
      ensures polls[1..][i] == polls[i + 1]
    {
    }
  }

  /** The engine's events are drained only once a command has taken the player from none
      to some. A worker with no player, such as one fresh from `PlayerWorker::new`, gets a
      player only from an `Initialize` that succeeds; if every `Initialize` received before
      iteration `k` fails, the events pending before `k` make no difference to the run. */
  lemma {:induction false} EngineEventsIgnoredBeforeInitialize(s: WorkerState, tick: nat, k: nat, env: Env,
                                                               other: nat -> seq<Engine.EngineEvent>)
    requires s.player.None?
    requires InitializesFailBefore(s.commandRx, tick, k, s.config, env)
    requires forall t :: k <= t ==> other(t) == env.engineEvents(t)
    ensures RunFrom(s, false, tick, env) == RunFrom(s, false, tick, env.(engineEvents := other))
    decreases |s.commandRx|
  {
    var env' := env.(engineEvents := other);
    if s.commandRx != [] {
      var s0 := s.(commandRx := s.commandRx[1..]);
      if s.commandRx[0].Empty? {
        assert RunFrom(s, false, tick, env) == RunFrom(s0, false, tick + 1, env);
        assert RunFrom(s, false, tick, env') == RunFrom(s0, false, tick + 1, env');
        InitializesFailBeforeRest(s.commandRx, tick, k, s.config, env);
        EngineEventsIgnoredBeforeInitialize(s0, tick + 1, k, env, other);
      } else {
        var cmd := s.commandRx[0].cmd;
        var a := CommandOutcome(s0, cmd, env, tick);
        CommandIgnoresEngineEvents(s0, cmd, env, tick, other);
        if a.step != Continue {
          return;
        }
        PlayerOnlyFromInitialize(s0, cmd, env, tick);
        if a.state.player.None? {
          assert RunFrom(s, false, tick, env) == RunFrom(a.state, false, tick + 1, env);
          assert RunFrom(s, false, tick, env') == RunFrom(a.state, false, tick + 1, env');
          InitializesFailBeforeRest(s.commandRx, tick, k, s.config, env);
          EngineEventsIgnoredBeforeInitialize(a.state, tick + 1, k, env, other);
        } else {
          assert k <= tick by {
            InitializesFailBeforeRest(s.commandRx, tick, k, s.config, env);
          }
          assert other(tick) == env.engineEvents(tick);
          var next := Drained(a.state, true, env.engineEvents(tick));
          assert RunFrom(s, false, tick, env) == RunFrom(next, true, tick + 1, env);
          assert RunFrom(s, false, tick, env') == RunFrom(next, true, tick + 1, env');
          RunReadsLaterEventsOnly(next, true, tick + 1, env, other);
        }
      }
    }
  }

  /** For instance, two idle iterations and then an `Initialize` that succeeds: whatever
      the engine had pending in those first two iterations is never read. */
  lemma IdleThenInitialize(config: PlayerWorkerConfig, clientId: string, port: u16, env: Env,
                           other: nat -> seq<Engine.EngineEvent>)
    requires forall t :: 2 <= t ==> other(t) == env.engineEvents(t)
    ensures var s := NewWorker([Empty, Empty, Received(Initialize(clientId, port))], config);
            RunFrom(s, false, 0, env) == RunFrom(s, false, 0, env.(engineEvents := other))
  {
    var s := NewWorker([Empty, Empty, Received(Initialize(clientId, port))], config);
    EngineEventsIgnoredBeforeInitialize(s, 0, 2, env, other);
  }

  // ---------------------------------------------------------------------------
  // The current track

  /** The track of the last engine load in a call log. */
  function LastLoad(calls: seq<Engine.EngineCall>): Option<string>
    decreases |calls|
  {
    if calls == [] then None
    else if calls[|calls| - 1].Load? then Some(calls[|calls| - 1].trackUri)
    else LastLoad(calls[..|calls| - 1])
  }

  lemma LastLoadAppend(calls: seq<Engine.EngineCall>, c: Engine.EngineCall)
    ensures LastLoad(calls + [c]) == if c.Load? then Some(c.trackUri) else LastLoad(calls)
  {
    assert (calls + [c])[..|calls|] == calls;
  }

  /** A current track is only ever one that was loaded on a player: there is a player, and
      the last engine load was of that track. */
  ghost predicate TrackConsistent(s: WorkerState) {
    s.currentTrackUri.Some? ==> s.player.Some? && LastLoad(s.engineCalls) == s.currentTrackUri
  }

  /** Every command keeps the current track consistent with the engine calls. */
  lemma CommandKeepsTrackConsistent(s: WorkerState, cmd: PlayerCommand, env: Env, tick: nat)
    requires TrackConsistent(s)
    ensures TrackConsistent(CommandOutcome(s, cmd, env, tick).state)
  {
    var a := CommandOutcome(s, cmd, env, tick);
    if a.state.engineCalls != s.engineCalls {
      var c := a.state.engineCalls[|s.engineCalls|];
      assert a.state.engineCalls == s.engineCalls + [c];
      LastLoadAppend(s.engineCalls, c);
    }
  }

  /** `run` keeps the current track consistent from start to end. */
  lemma {:induction false} RunKeepsTrackConsistent(s: WorkerState, acquired: bool, tick: nat, env: Env)
    requires TrackConsistent(s)
    ensures TrackConsistent(RunFrom(s, acquired, tick, env).state)
    decreases |s.commandRx|
  {
    if s.commandRx != [] {
      var s0 := s.(commandRx := s.commandRx[1..]);
      match s.commandRx[0]
      case Empty =>
        RunKeepsTrackConsistent(Drained(s0, acquired, env.engineEvents(tick)), acquired, tick + 1, env);
      case Received(cmd) =>
        CommandKeepsTrackConsistent(s0, cmd, env, tick);
        var a := CommandOutcome(s0, cmd, env, tick);
        if a.step == Continue {
          var acq := acquired || (s0.player.None? && a.state.player.Some?);
          RunKeepsTrackConsistent(Drained(a.state, acq, env.engineEvents(tick)), acq, tick + 1, env);
        }
    }
  }

  // ---------------------------------------------------------------------------
  // Ordering

  /** Commands are applied in the order they were sent: on an initialised worker,
      `[Load(a), Play, Pause, Load(b)]` reaches the engine as exactly those four calls,
      leaves b as the current track and ends, on disconnect, with `Shutdown`. */
  lemma CommandsAppliedInOrder(s: WorkerState, a: string, b: string, env: Env)
    requires s.player.Some? && env.parses(a) && env.parses(b)
    requires s.commandRx == [Received(LoadCommand(a)), Received(Play), Received(Pause), Received(LoadCommand(b))]
    ensures var r := RunFrom(s, true, 0, env);
            && r.ok
            && r.state.engineCalls == s.engineCalls + [Engine.Load(a, true, 0), Engine.Play, Engine.Pause, Engine.Load(b, true, 0)]
            && r.state.currentTrackUri == Some(b)
            && |r.state.eventTx| > 0
            && r.state.eventTx[|r.state.eventTx| - 1].Shutdown?
  {
    var cmds := [LoadCommand(a), Play, Pause, LoadCommand(b)];
    assert s.commandRx == AsPolls(cmds);
    TransportAppliedInOrder(s, true, 0, cmds, env);
    TransportSetsTrack(s, true, 0, cmds, env);
    LoadPlayPauseLoad(s.currentTrackUri, a, b);
    RunShutdownEvents(s, true, 0, env);
  }

  lemma LoadPlayPauseLoad(track: Option<string>, a: string, b: string)
    ensures TransportCalls([LoadCommand(a), Play, Pause, LoadCommand(b)])
         == [Engine.Load(a, true, 0), Engine.Play, Engine.Pause, Engine.Load(b, true, 0)]
    ensures TrackAfter(track, [LoadCommand(a), Play, Pause, LoadCommand(b)]) == Some(b)
  {
    var c3 := [LoadCommand(b)];
    var c2 := [Pause] + c3;
    var c1 := [Play] + c2;
    var cmds := [LoadCommand(a)] + c1;
    assert cmds[1..] == c1 && c1[1..] == c2 && c2[1..] == c3 && c3[1..] == [];
    assert TransportCalls(c3) == [Engine.Load(b, true, 0)];
    assert TransportCalls(c2) == [Engine.Pause] + TransportCalls(c3);
    assert TransportCalls(c1) == [Engine.Play] + TransportCalls(c2);
    assert TransportCalls(cmds) == [Engine.Load(a, true, 0)] + TransportCalls(c1);
    assert TrackAfter(Some(a), c3) == Some(b);
    assert TrackAfter(Some(a), c1) == TrackAfter(Some(a), c2) == TrackAfter(Some(a), c3);
    assert TrackAfter(track, cmds) == TrackAfter(Some(a), c1);
    assert cmds == [LoadCommand(a), Play, Pause, LoadCommand(b)];
  }

  /** The polls of a channel that delivers `cmds`, one per iteration, and is then closed. */
  function AsPolls(cmds: seq<PlayerCommand>): (polls: seq<Poll>)
    ensures |polls| == |cmds|
    ensures forall i :: 0 <= i < |cmds| ==> polls[i] == Received(cmds[i])
    decreases |cmds|
  {
    if cmds == [] then [] else [Received(cmds[0])] + AsPolls(cmds[1..])
  }

  /** The engine calls a sequence of transport commands stands for, in order. */
  function TransportCalls(cmds: seq<PlayerCommand>): (calls: seq<Engine.EngineCall>)
    requires forall i :: 0 <= i < |cmds| ==> IsTransport(cmds[i])
    ensures |calls| == |cmds|
  {
    if cmds == [] then [] else [TransportCall(cmds[0])] + TransportCalls(cmds[1..])
  }

  /** On an initialised worker a transport command whose URI, if any, parses makes its one
      engine call and continues the loop. */
  lemma TransportStep(s: WorkerState, cmd: PlayerCommand, env: Env, tick: nat)
    requires s.player.Some? && IsTransport(cmd) && (cmd.Load? ==> env.parses(cmd.uri))
    ensures var a := CommandOutcome(s, cmd, env, tick);
            && a.step == Continue && a.state.player.Some?
            && a.state.engineCalls == s.engineCalls + [TransportCall(cmd)]
            && a.state.currentTrackUri == TrackAfterOne(s.currentTrackUri, cmd)
  {
  }

  /** The current track after a sequence of commands: a `Load` makes its URI current, a
      `Stop` clears it, and the others leave it as it was. */
  function TrackAfter(track: Option<string>, cmds: seq<PlayerCommand>): Option<string>
    decreases |cmds|
  {
    if cmds == [] then track else TrackAfter(TrackAfterOne(track, cmds[0]), cmds[1..])
  }

  function TrackAfterOne(track: Option<string>, cmd: PlayerCommand): Option<string> {
    if cmd.Load? then Some(cmd.uri) else if cmd.Stop? then None else track
  }

  /** Commands are applied first in, first out: on an initialised worker, any sequence of
      transport commands whose loads all parse reaches the engine as their calls, in the
      order they were sent, and `run` returns `Ok` once the channel closes. */
  lemma {:induction false} TransportAppliedInOrder(s: WorkerState, acquired: bool, tick: nat,
                                                   cmds: seq<PlayerCommand>, env: Env)
    requires s.player.Some? && s.commandRx == AsPolls(cmds)
    requires AllTransport(cmds, env)
    ensures RunFrom(s, acquired, tick, env).ok
    ensures RunFrom(s, acquired, tick, env).state.engineCalls == s.engineCalls + TransportCalls(cmds)
    decreases |cmds|
  {
    if cmds != [] {
      var next := TransportIteration(s, acquired, tick, cmds, env);
      TransportAppliedInOrder(next, acquired, tick + 1, cmds[1..], env);
      Sequences.ConcatAssociative(s.engineCalls, [TransportCall(cmds[0])], TransportCalls(cmds[1..]));
    }
  }

  /** After such a sequence the current track is the one its last `Load` named, unless a
      `Stop` came later; with neither, it is the track current before. */
  lemma {:induction false} TransportSetsTrack(s: WorkerState, acquired: bool, tick: nat,
                                              cmds: seq<PlayerCommand>, env: Env)
    requires s.player.Some? && s.commandRx == AsPolls(cmds)
    requires AllTransport(cmds, env)
    ensures RunFrom(s, acquired, tick, env).state.currentTrackUri == TrackAfter(s.currentTrackUri, cmds)
    decreases |cmds|
  {
    if cmds != [] {
      var next := TransportIteration(s, acquired, tick, cmds, env);
      TransportSetsTrack(next, acquired, tick + 1, cmds[1..], env);
    }
  }

  /** Every command is a transport command, and every `Load` among them names a URI that
      parses. */
  predicate AllTransport(cmds: seq<PlayerCommand>, env: Env) {
    forall i :: 0 <= i < |cmds| ==> IsTransport(cmds[i]) && (cmds[i].Load? ==> env.parses(cmds[i].uri))
  }

  /** The state after the loop iteration that applies the first of the transport commands. */
  lemma TransportIteration(s: WorkerState, acquired: bool, tick: nat, cmds: seq<PlayerCommand>, env: Env)
    returns (next: WorkerState)
    requires cmds != [] && s.player.Some? && s.commandRx == AsPolls(cmds) && AllTransport(cmds, env)
    ensures RunFrom(s, acquired, tick, env) == RunFrom(next, acquired, tick + 1, env)
    ensures next.player.Some? && next.commandRx == AsPolls(cmds[1..]) && AllTransport(cmds[1..], env)
    ensures IsTransport(cmds[0]) && TransportCalls(cmds) == [TransportCall(cmds[0])] + TransportCalls(cmds[1..])
    ensures next.engineCalls == s.engineCalls + [TransportCall(cmds[0])]
    ensures next.currentTrackUri == TrackAfterOne(s.currentTrackUri, cmds[0])
  {
    var s0 := s.(commandRx := s.commandRx[1..]);
    assert s.commandRx[0] == Received(cmds[0]);
    assert IsTransport(cmds[0]) && (cmds[0].Load? ==> env.parses(cmds[0].uri));
    var a := CommandOutcome(s0, cmds[0], env, tick);
    TransportStep(s0, cmds[0], env, tick);
    next := Drained(a.state, acquired, env.engineEvents(tick));
    RunContinues(s, acquired, tick, env);
    assert next.commandRx == AsPolls(cmds[1..]);
  }

  /** One loop iteration that receives a command which neither shuts down nor fails. */
  lemma RunContinues(s: WorkerState, acquired: bool, tick: nat, env: Env)
    requires s.commandRx != [] && s.commandRx[0].Received?
    requires CommandOutcome(s.(commandRx := s.commandRx[1..]), s.commandRx[0].cmd, env, tick).step == Continue
    ensures var s0 := s.(commandRx := s.commandRx[1..]);
            var a := CommandOutcome(s0, s.commandRx[0].cmd, env, tick);
            var acq := acquired || (s0.player.None? && a.state.player.Some?);
            RunFrom(s, acquired, tick, env) == RunFrom(Drained(a.state, acq, env.engineEvents(tick)), acq, tick + 1, env)
  {
  }
}
