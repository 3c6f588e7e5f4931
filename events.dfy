/** Events the player worker sends back to the UI thread (src/player/events.rs). */
module Events {
  import opened Numeric

  datatype PlayerEvent =
    | Initialized
    | InitializationFailed(message: string)
    | Playing(trackUri: string, positionMs: u32, durationMs: u32)
    | Paused(trackUri: string, positionMs: u32)
    | Stopped
    | TrackEnded(trackUri: string)
    | Position(positionMs: u32, durationMs: u32)
    | VolumeChanged(volume: u16)
    | TimeToPreloadNextTrack
    | Loading(trackUri: string)
    | Error(message: string)
    | SessionDisconnected
    | Shutdown

  /** `is_error` */
  function IsError(e: PlayerEvent): (r: bool)
    ensures r <==> exists m :: e == Error(m)
  {
    match e
    case Error(_) => true
    case _ => false
  }

  /** `is_playing` */
  function IsPlaying(e: PlayerEvent): (r: bool)
    ensures r <==> exists u, p, d :: e == Playing(u, p, d)
  {
    match e
    case Playing(_, _, _) => true
    case _ => false
  }

  /** `is_paused` */
  function IsPaused(e: PlayerEvent): (r: bool)
    ensures r <==> exists u, p :: e == Paused(u, p)
  {
    match e
    case Paused(_, _) => true
    case _ => false
  }

  /** At most one classifier holds for an event, and none holds for the lifecycle events. */
  lemma ClassifiersExclusive(e: PlayerEvent)
    ensures !(IsError(e) && IsPlaying(e))
    ensures !(IsError(e) && IsPaused(e))
    ensures !(IsPlaying(e) && IsPaused(e))
    ensures e.Shutdown? || e.Stopped? || e.Initialized? ==> !IsError(e) && !IsPlaying(e) && !IsPaused(e)
  {
  }
}
