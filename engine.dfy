/** The surface of the external playback engine (librespot) that the worker touches.
    The engine itself is not modelled: a call to it is recorded in a log, and the events
    it produces are supplied from outside. */
module Engine {
  import opened Numeric

  /** One call the worker makes on the engine's `Player`. A track is addressed by the
      URI it was parsed from, since the parse itself is external. */
  datatype EngineCall =
    | Load(trackUri: string, startPlaying: bool, positionMs: u32)
    | Play
    | Pause
    | Stop
    | Seek(positionMs: u32)
    | Preload(trackUri: string)

  /** The engine's own events, as far as the worker distinguishes them; every other
      engine event (position corrections, volume changes, session events, ...) is one
      `Unhandled` value. */
  datatype EngineEvent =
    | Playing(positionMs: u32)
    | Paused(positionMs: u32)
    | Stopped
    | EndOfTrack
    | TimeToPreloadNextTrack
    | Loading(trackId: string)
    | Unavailable(trackId: string)
    | Unhandled(kind: string)

  /** The audio bitrates the engine offers. */
  datatype Bitrate = Bitrate96 | Bitrate160 | Bitrate320

  /** The bitrate in kilobits per second. */
  function Kbps(b: Bitrate): (k: nat)
    ensures k in {96, 160, 320}
  {
    match b
    case Bitrate96 => 96
    case Bitrate160 => 160
    case Bitrate320 => 320
  }
}
