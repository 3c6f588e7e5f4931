/** The local-player worker (src/player/worker.rs): the state it owns, the effect of each
    command and engine event on that state, and its polling loop.

    The pure functions below (CommandOutcome, LoadOutcome, Translate, RunFrom) give the
    meaning of one step on a `WorkerState` value; the class `PlayerWorker` is the worker
    itself, with the fields of the Rust struct, and each of its methods is proved to do to
    its fields what the matching function says. */
module Worker {
  import opened Wrappers
  import opened Numeric
  import opened Commands
  import opened Events
  import Engine
  import Sequences

  /** `PlayerWorkerConfig` */
  datatype PlayerWorkerConfig = PlayerWorkerConfig(
    audioBackend: Option<string>,
    audioDevice: Option<string>,
    bitrate: Engine.Bitrate,
    normalizeVolume: bool,
    cachePath: Option<string>,
    cacheSize: Option<u64>)

  /** `PlayerWorkerConfig::default`: default backend and device, 320 kbps, normalisation
      on, no cache directory and a 1 GiB cache cap. */
  function DefaultConfig(): (c: PlayerWorkerConfig)
    ensures c.audioBackend.None? && c.audioDevice.None? && c.cachePath.None?
    ensures Engine.Kbps(c.bitrate) == 320
    ensures c.normalizeVolume
    ensures c.cacheSize == Some(0x4000_0000)
  {
    PlayerWorkerConfig(None, None, Engine.Bitrate320, true, None, Some(1024 * 1024 * 1024))
  }

  /** A live engine session and a live engine player; the worker only cares whether it holds one. */
  datatype Session = Session
  datatype Player = Player

  /** What one non-blocking receive on the command channel yields. The end of the
      sequence of polls is the point where the channel reports `Disconnected`. */
  datatype Poll = Received(cmd: PlayerCommand) | Empty

  /** How `initialize` ends. Everything up to and including `Session::connect` (cache
      set-up, the OAuth flow, connecting) either fails with a message or connects; after
      the session is stored, `create_player` looks up an audio backend and a mixer. */
  datatype InitOutcome =
    | SessionFailed(message: string)
    | Connected(backendFound: bool, mixerFound: bool)

  /** The parts of the world the worker consults but that are not modelled:
      `parses` is whether `SpotifyId::from_uri` accepts a URI and `uriError` the debug text
      of its error; `initOutcome(t)` and `engineEvents(t)` are how an `initialize` run in
      loop iteration t ends and which engine events are pending in iteration t. */
  datatype Env = Env(
    parses: string -> bool,
    uriError: string -> string,
    initOutcome: nat -> InitOutcome,
    engineEvents: nat -> seq<Engine.EngineEvent>)

  /** The worker's complete state: the commands its receiver has still to deliver, the
      events it has sent, its own fields, and the calls it has made on the engine. */
  datatype WorkerState = WorkerState(
    commandRx: seq<Poll>,
    eventTx: seq<PlayerEvent>,
    session: Option<Session>,
    player: Option<Player>,
    config: PlayerWorkerConfig,
    currentTrackUri: Option<string>,
    currentVolume: u16,
    engineCalls: seq<Engine.EngineCall>)

  /** `PlayerWorker::new`: no session, no player, no track, half volume, nothing sent. */
  function NewWorker(commandRx: seq<Poll>, config: PlayerWorkerConfig): (s: WorkerState)
    ensures s.session.None? && s.player.None? && s.currentTrackUri.None?
    ensures s.currentVolume == 32767
    ensures s.commandRx == commandRx && s.config == config
    ensures s.eventTx == [] && s.engineCalls == []
  {
    WorkerState(commandRx, [], None, None, config, None, U16_MAX / 2, [])
  }

  /** The prefix of every `Error` event reporting a failed `Load`. */
  const LOAD_ERROR_PREFIX := "Failed to load track: "
  const NOT_INITIALIZED := "Player not initialized"

  const INVALID_URI_PREFIX := "Invalid Spotify URI '"

  /** The error of a URI that does not parse: it quotes the URI, then gives the parser's
      own description of the error. */
  function InvalidUriMessage(uri: string, env: Env): (m: string)
    ensures |m| == |INVALID_URI_PREFIX| + |uri| + 3 + |env.uriError(uri)|
    ensures INVALID_URI_PREFIX <= m
    ensures m[|INVALID_URI_PREFIX|..|INVALID_URI_PREFIX| + |uri|] == uri
    ensures m[|INVALID_URI_PREFIX| + |uri|..|INVALID_URI_PREFIX| + |uri| + 3] == "': "
    ensures m[|m| - |env.uriError(uri)|..] == env.uriError(uri)
  {
    INVALID_URI_PREFIX + uri + "': " + env.uriError(uri)
  }

  const BACKEND_PREFIX := "Audio backend '"

  /** The error of a missing audio backend: it quotes the configured backend's name, or
      "default" when none is configured. */
  function BackendNotFoundMessage(config: PlayerWorkerConfig): (m: string)
    ensures var name := if config.audioBackend.Some? then config.audioBackend.value else "default";
            && |m| == |BACKEND_PREFIX| + |name| + 11
            && BACKEND_PREFIX <= m
            && m[|BACKEND_PREFIX|..|BACKEND_PREFIX| + |name|] == name
            && m[|BACKEND_PREFIX| + |name|..] == "' not found"
  {
    BACKEND_PREFIX + config.audioBackend.UnwrapOr("default") + "' not found"
  }

  const NO_MIXER := "No mixer available"

  /** The error `initialize` returns, if any. */
  function InitError(config: PlayerWorkerConfig, o: InitOutcome): (err: Option<string>)
    ensures err.None? <==> o.Connected? && o.backendFound && o.mixerFound
  {
    match o
    case SessionFailed(m) => Some(m)
    case Connected(backendFound, mixerFound) =>
      if !backendFound then Some(BackendNotFoundMessage(config))
      else if !mixerFound then Some(NO_MIXER)
      else None
  }

  function Send(s: WorkerState, e: PlayerEvent): WorkerState {
    s.(eventTx := s.eventTx + [e])
  }

  function CallIfPlayer(s: WorkerState, c: Engine.EngineCall): WorkerState {
    if s.player.Some? then s.(engineCalls := s.engineCalls + [c]) else s
  }

  /** The result of `load_track`: the new state, or the error it returns (state unchanged). */
  datatype LoadResult = Loaded(state: WorkerState) | LoadFailed(reason: string)

  /** `load_track`: the URI is parsed first; only then is the player checked. */
  function LoadOutcome(s: WorkerState, uri: string, startPlaying: bool, positionMs: u32, env: Env): (r: LoadResult)
    ensures r.Loaded? <==> env.parses(uri) && s.player.Some?
    ensures r.Loaded? ==> r.state.currentTrackUri == Some(uri)
  {
    if !env.parses(uri) then LoadFailed(InvalidUriMessage(uri, env))
    else if s.player.None? then LoadFailed(NOT_INITIALIZED)
    else Loaded(s.(currentTrackUri := Some(uri),
                   engineCalls := s.engineCalls + [Engine.Load(uri, startPlaying, positionMs)]))
  }

  /** What `handle_command` returns: `Ok(false)`, `Ok(true)` (shut down) or an error. */
  datatype Step = Continue | Exit | Failed
  datatype Applied = Applied(state: WorkerState, step: Step)

  /** `handle_command`, applied to a state. Each command sends at most one event, makes at
      most one engine call, never sends `Shutdown` itself, and leaves the receiver and the
      configuration alone. */
  function CommandOutcome(s: WorkerState, cmd: PlayerCommand, env: Env, tick: nat): (a: Applied)
    ensures a.state.commandRx == s.commandRx && a.state.config == s.config
    ensures a.step == Exit <==> cmd.Shutdown?
    ensures a.step == Failed <==> cmd.Preload? && !env.parses(cmd.uri)
    ensures s.eventTx <= a.state.eventTx && |a.state.eventTx| <= |s.eventTx| + 1
    ensures forall i :: |s.eventTx| <= i < |a.state.eventTx| ==> !a.state.eventTx[i].Shutdown?
    ensures s.engineCalls <= a.state.engineCalls && |a.state.engineCalls| <= |s.engineCalls| + 1
    ensures s.player.Some? ==> a.state.player.Some?
  {
    match cmd
    case Initialize(_, _) =>
      var o := env.initOutcome(tick);
      var connected := if o.Connected? then s.(session := Some(Session)) else s;
      var created := if InitError(s.config, o).None? then connected.(player := Some(Player)) else connected;
      var err := InitError(s.config, o);
      Applied(Send(created, if err.None? then Initialized else InitializationFailed(err.value)), Continue)
    case Load(uri, startPlaying, positionMs) =>
      (match LoadOutcome(s, uri, startPlaying, positionMs, env)
       case Loaded(t) => Applied(t, Continue)
       case LoadFailed(e) => Applied(Send(s, Error(LOAD_ERROR_PREFIX + e)), Continue))
    case Play => Applied(CallIfPlayer(s, Engine.Play), Continue)
    case Pause => Applied(CallIfPlayer(s, Engine.Pause), Continue)
    case Stop => Applied(CallIfPlayer(s, Engine.Stop).(currentTrackUri := None), Continue)
    case Seek(positionMs) => Applied(CallIfPlayer(s, Engine.Seek(positionMs)), Continue)
    case SetVolume(volume) => Applied(Send(s.(currentVolume := volume), VolumeChanged(volume)), Continue)
    case Preload(uri) =>
      if !env.parses(uri) then Applied(s, Failed)
      else Applied(CallIfPlayer(s, Engine.Preload(uri)), Continue)
    case Shutdown => Applied(CallIfPlayer(s, Engine.Stop), Exit)
  }

  /** `handle_player_event`'s translation of one engine event, given the current track. */
  function Translate(track: Option<string>, e: Engine.EngineEvent): (r: Option<PlayerEvent>)
    ensures r.None? <==> e.Unhandled?
    ensures r.Some? ==> !r.value.Position? && !r.value.SessionDisconnected? && !r.value.Shutdown?
    ensures r.Some? ==> !r.value.Initialized? && !r.value.InitializationFailed? && !r.value.VolumeChanged?
  {
    match e
    case Playing(positionMs) => Some(PlayerEvent.Playing(track.UnwrapOr(""), positionMs, 0))
    case Paused(positionMs) => Some(PlayerEvent.Paused(track.UnwrapOr(""), positionMs))
    case Stopped => Some(PlayerEvent.Stopped)
    case EndOfTrack => Some(TrackEnded(track.UnwrapOr("")))
    case TimeToPreloadNextTrack => Some(PlayerEvent.TimeToPreloadNextTrack)
    case Loading(_) => Some(PlayerEvent.Loading(track.UnwrapOr("")))
    case Unavailable(trackId) => Some(Error("Track unavailable: " + trackId))
    case Unhandled(_) => None
  }

  function AsSeq(o: Option<PlayerEvent>): seq<PlayerEvent> {
    if o.Some? then [o.value] else []
  }

  /** The events one drain of the engine's event channel sends, in order. */
  function TranslateAll(track: Option<string>, batch: seq<Engine.EngineEvent>): (r: seq<PlayerEvent>)
    ensures |r| <= |batch|
    ensures forall i :: 0 <= i < |r| ==> !r[i].Position? && !r[i].SessionDisconnected? && !r[i].Shutdown?
    decreases |batch|
  {
    if batch == [] then [] else AsSeq(Translate(track, batch[0])) + TranslateAll(track, batch[1..])
  }

  /** One drain of the engine's events, if the loop holds the engine's event channel. */
  function Drained(s: WorkerState, acquired: bool, batch: seq<Engine.EngineEvent>): (r: WorkerState)
    ensures !acquired ==> r == s
    ensures r == s.(eventTx := r.eventTx)
    ensures s.eventTx <= r.eventTx && |r.eventTx| <= |s.eventTx| + |batch|
  {
    if acquired then s.(eventTx := s.eventTx + TranslateAll(s.currentTrackUri, batch)) else s
  }

  /** How `run` ends: the final state and whether it returned `Ok`. */
  datatype RunEnd = RunEnd(state: WorkerState, ok: bool)

  /** `run` from loop iteration `tick` on, where `acquired` says whether the loop already
      holds the engine's event channel. */
  function RunFrom(s: WorkerState, acquired: bool, tick: nat, env: Env): (r: RunEnd)
    ensures r.state.config == s.config
    ensures |r.state.commandRx| <= |s.commandRx|
    ensures r.ok ==> |r.state.eventTx| > |s.eventTx|
    ensures s.player.Some? ==> r.state.player.Some?
    decreases |s.commandRx|
  {
    if s.commandRx == [] then RunEnd(Send(s, PlayerEvent.Shutdown), true)
    else
      var s0 := s.(commandRx := s.commandRx[1..]);
      match s.commandRx[0]
      case Empty => RunFrom(Drained(s0, acquired, env.engineEvents(tick)), acquired, tick + 1, env)
      case Received(cmd) =>
        var a := CommandOutcome(s0, cmd, env, tick);
        if a.step == Exit then RunEnd(Send(a.state, PlayerEvent.Shutdown), true)
        else if a.step == Failed then RunEnd(a.state, false)
        else
          var acq := acquired || (s0.player.None? && a.state.player.Some?);
          RunFrom(Drained(a.state, acq, env.engineEvents(tick)), acq, tick + 1, env)
  }

  /** `PlayerWorker`. `commandRx` holds what the receiver is still to deliver, `eventTx`
      what has been sent on the event channel (sends whose receiver is gone are dropped by
      the source, and still appear here), `engineCalls` the calls made on the engine. */
  class PlayerWorker {
    var commandRx: seq<Poll>
    var eventTx: seq<PlayerEvent>
    var session: Option<Session>
    var player: Option<Player>
    const config: PlayerWorkerConfig
    var currentTrackUri: Option<string>
    var currentVolume: u16
    var engineCalls: seq<Engine.EngineCall>

    function State(): WorkerState
      reads this
    {
      WorkerState(commandRx, eventTx, session, player, config, currentTrackUri, currentVolume, engineCalls)
    }

    /** `PlayerWorker::new` */
    constructor (commandRx: seq<Poll>, config: PlayerWorkerConfig)
      ensures State() == NewWorker(commandRx, config)
    {
      this.commandRx := commandRx;
      this.eventTx := [];
      this.session := None;
      this.player := None;
      this.config := config;
      this.currentTrackUri := None;
      this.currentVolume := U16_MAX / 2;
      this.engineCalls := [];
    }

    /** `initialize`, whose steps up to the session connect are the opaque `outcome`; the
      client id and port it is given are not used. The session is stored before the player
      is created, so a failing `create_player` leaves the session set. */
    method Initialize(clientId: string, redirectPort: u16, outcome: InitOutcome) returns (err: Option<string>)
      modifies this`session, this`player
      ensures err == InitError(config, outcome)
      ensures session == if outcome.Connected? then Some(Session) else old(session)
      ensures player == if err.None? then Some(Player) else old(player)
    {
      if outcome.SessionFailed? {
        return Some(outcome.message);
      }
      session := Some(Session);
      err := CreatePlayer(outcome.backendFound, outcome.mixerFound);
    }

    /** `create_player`: the backend lookup, then the mixer lookup, then the player. */
    method CreatePlayer(backendFound: bool, mixerFound: bool) returns (err: Option<string>)
      modifies this`player
      ensures err == InitError(config, Connected(backendFound, mixerFound))
      ensures player == if err.None? then Some(Player) else old(player)
    {
      if !backendFound {
        return Some(BackendNotFoundMessage(config));
      }
      if !mixerFound {
        return Some(NO_MIXER);
      }
      player := Some(Player);
      err := None;
    }

    /** `load_track` */
    method LoadTrack(uri: string, startPlaying: bool, positionMs: u32, env: Env) returns (err: Option<string>)
      modifies this
      ensures match LoadOutcome(old(State()), uri, startPlaying, positionMs, env)
              case Loaded(t) => err.None? && State() == t
              case LoadFailed(reason) => err == Some(reason) && State() == old(State())
    {
      if !env.parses(uri) {
        return Some(InvalidUriMessage(uri, env));
      }
      if player.Some? {
        currentTrackUri := Some(uri);
        engineCalls := engineCalls + [Engine.Load(uri, startPlaying, positionMs)];
      } else {
        return Some(NOT_INITIALIZED);
      }
      err := None;
    }

    /** `preload_track`: `false` is the parse error it propagates with `?`. */
    method PreloadTrack(uri: string, env: Env) returns (ok: bool)
      modifies this`engineCalls
      ensures ok == env.parses(uri)
      ensures engineCalls == if ok && player.Some? then old(engineCalls) + [Engine.Preload(uri)] else old(engineCalls)
    {
      if !env.parses(uri) {
        return false;
      }
      if player.Some? {
        engineCalls := engineCalls + [Engine.Preload(uri)];
      }
      ok := true;
    }

    /** `handle_command` */
    method HandleCommand(cmd: PlayerCommand, env: Env, tick: nat) returns (step: Step)
      modifies this
      ensures State() == CommandOutcome(old(State()), cmd, env, tick).state
      ensures step == CommandOutcome(old(State()), cmd, env, tick).step
    {
      step := Continue;
      match cmd {
        case Initialize(clientId, redirectPort) =>
          var err := Initialize(clientId, redirectPort, env.initOutcome(tick));
          if err.None? {
            eventTx := eventTx + [Initialized];
          } else {
            eventTx := eventTx + [InitializationFailed(err.value)];
          }
        case Load(uri, startPlaying, positionMs) =>
          var err := LoadTrack(uri, startPlaying, positionMs, env);
          if err.Some? {
            eventTx := eventTx + [Error(LOAD_ERROR_PREFIX + err.value)];
          }
        case Play =>
          if player.Some? {
            engineCalls := engineCalls + [Engine.Play];
          }
        case Pause =>
          if player.Some? {
            engineCalls := engineCalls + [Engine.Pause];
          }
        case Stop =>
          if player.Some? {
            engineCalls := engineCalls + [Engine.Stop];
          }
          currentTrackUri := None;
        case Seek(positionMs) =>
          if player.Some? {
            engineCalls := engineCalls + [Engine.Seek(positionMs)];
          }
        case SetVolume(volume) =>
          currentVolume := volume;
          eventTx := eventTx + [VolumeChanged(volume)];
        case Preload(uri) =>
          var ok := PreloadTrack(uri, env);
          if !ok {
            return Failed;
          }
        case Shutdown =>
          if player.Some? {
            engineCalls := engineCalls + [Engine.Stop];
          }
          return Exit;
      }
    }

    /** `handle_player_event` */
    method HandlePlayerEvent(e: Engine.EngineEvent)
      modifies this`eventTx
      ensures eventTx == old(eventTx) + AsSeq(Translate(currentTrackUri, e))
    {
      var translated := Translate(currentTrackUri, e);
      if translated.Some? {
        eventTx := eventTx + [translated.value];
      }
    }

    /** The `while let` in `run` that empties the engine's event channel. */
    method DrainPlayerEvents(batch: seq<Engine.EngineEvent>)
      modifies this`eventTx
      ensures eventTx == old(eventTx) + TranslateAll(currentTrackUri, batch)
    {
      var i := 0;
      while i < |batch|
        invariant 0 <= i <= |batch|
        invariant eventTx + TranslateAll(currentTrackUri, batch[i..]) == old(eventTx) + TranslateAll(currentTrackUri, batch)
      {
        assert batch[i..][1..] == batch[i + 1..];
        ghost var sent, rest := eventTx, TranslateAll(currentTrackUri, batch[i + 1..]);
        HandlePlayerEvent(batch[i]);
        Sequences.ConcatAssociative(sent, AsSeq(Translate(currentTrackUri, batch[i])), rest);
        i := i + 1;
      }
    }

    /** `run`: one command per iteration, then a drain of the engine's events once a
      command has taken the player from none to some; `Shutdown` and a disconnected
      channel end the loop with a final `Shutdown` event, an error ends it without one. */
    method Run(env: Env) returns (ok: bool)
      modifies this
      ensures RunEnd(State(), ok) == RunFrom(old(State()), false, 0, env)
    {
      var acquired := false;
      var tick: nat := 0;
      while true
        invariant RunFrom(State(), acquired, tick, env) == RunFrom(old(State()), false, 0, env)
        decreases |commandRx|
      {
        if commandRx == [] {
          break;
        }
        var poll := commandRx[0];
        commandRx := commandRx[1..];
        if poll.Received? {
          var wasUninitialized := player.None?;
          var step := HandleCommand(poll.cmd, env, tick);
          if step == Failed {
            return false;
          }
          if step == Exit {
            break;
          }
          if wasUninitialized && player.Some? {
            acquired := true;
          }
        }
        if acquired {
          DrainPlayerEvents(env.engineEvents(tick));
        }
        tick := tick + 1;
      }
      eventTx := eventTx + [PlayerEvent.Shutdown];
      ok := true;
    }
  }
}
