/** The UI side of the local player (src/player/mod.rs): the playback mode, the handle
    over the command and event channels, and the state the UI keeps about the player. */
module LocalPlayback {
  import opened Wrappers
  import opened Numeric
  import opened Commands
  import opened Events

  /** Where playback goes: this machine (only with the `librespot` feature) or a remote
      device, possibly not yet chosen. */
  datatype PlaybackMode = Local | Remote(deviceId: Option<string>)

  /** `PlaybackMode::default` */
  function DefaultPlaybackMode(): (m: PlaybackMode)
    ensures m.Remote? && m.deviceId.None?
  {
    Remote(None)
  }

  /** `LocalPlayerState` */
  datatype LocalPlayerState = LocalPlayerState(
    isInitialized: bool,
    isPlaying: bool,
    currentTrackUri: Option<string>,
    positionMs: u32,
    durationMs: u32,
    volume: u16)

  /** The derived `LocalPlayerState::default`: every field at its type's default. */
  function DefaultLocalPlayerState(): (st: LocalPlayerState)
    ensures !st.isInitialized && !st.isPlaying && st.currentTrackUri.None?
    ensures st.positionMs == 0 && st.durationMs == 0 && st.volume == 0
  {
    LocalPlayerState(false, false, None, 0, 0, 0)
  }

  /** The result of `Sender::send`: a send to a channel whose receiver is gone hands the
      command back. */
  datatype SendResult = Sent | SendError(cmd: PlayerCommand)

  /** `LocalPlayer`. `commandTx` holds the commands sent and not yet taken by the worker,
      `eventRx` the events the worker has sent and the UI has not yet taken;
      `workerListening` says whether the worker still holds the command receiver. */
  class LocalPlayer {
    var commandTx: seq<PlayerCommand>
    const workerListening: bool
    var eventRx: seq<PlayerEvent>
    var state: LocalPlayerState

    /** `LocalPlayer::new` over the given channels. */
    constructor (commandTx: seq<PlayerCommand>, workerListening: bool, eventRx: seq<PlayerEvent>)
      ensures this.commandTx == commandTx && this.workerListening == workerListening && this.eventRx == eventRx
      ensures state == DefaultLocalPlayerState()
    {
      this.commandTx := commandTx;
      this.workerListening := workerListening;
      this.eventRx := eventRx;
      this.state := DefaultLocalPlayerState();
    }

    /** `send_command`: the command joins the back of the command queue, unless the worker
      is gone; the event queue is not touched. */
    method SendCommand(cmd: PlayerCommand) returns (r: SendResult)
      modifies this`commandTx
      ensures workerListening ==> r == Sent && commandTx == old(commandTx) + [cmd]
      ensures !workerListening ==> r == SendError(cmd) && commandTx == old(commandTx)
    {
      if workerListening {
        commandTx := commandTx + [cmd];
        r := Sent;
      } else {
        r := SendError(cmd);
      }
    }

    /** `try_recv_event`: nothing when no event is waiting, otherwise the oldest one,
      which is removed; the command queue is not touched. */
    method TryRecvEvent() returns (r: Option<PlayerEvent>)
      modifies this`eventRx
      ensures old(eventRx) == [] ==> r.None? && eventRx == []
      ensures old(eventRx) != [] ==> r == Some(old(eventRx)[0]) && eventRx == old(eventRx)[1..]
    {
      if eventRx == [] {
        r := None;
      } else {
        r := Some(eventRx[0]);
        eventRx := eventRx[1..];
      }
    }
  }

  /** Events come out of the handle in the order they went into the channel. */
  method ReceiveInOrder(p: LocalPlayer, e1: PlayerEvent, e2: PlayerEvent)
    returns (first: Option<PlayerEvent>, second: Option<PlayerEvent>, third: Option<PlayerEvent>)
    requires p.eventRx == [e1, e2]
    modifies p`eventRx
    ensures first == Some(e1) && second == Some(e2) && third.None?
    ensures p.eventRx == []
  {
    first := p.TryRecvEvent();
    second := p.TryRecvEvent();
    third := p.TryRecvEvent();
  }
}
