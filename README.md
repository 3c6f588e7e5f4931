# Local player worker and device menu of a Spotify terminal client — Dafny model

This project models the local-playback core of a terminal Spotify client written in Rust:

- the **player worker** (`src/player/worker.rs`). It runs librespot on a background thread. It takes `PlayerCommand`s from one channel, drives the engine, and sends `PlayerEvent`s back on another channel;
- the **message types** the worker exchanges with the UI (`src/player/commands.rs`, `src/player/events.rs`);
- the **UI-side handle** `LocalPlayer` with its default state and the `PlaybackMode` (`src/player/mod.rs`);
- the **device-selection menu** handler (`src/handlers/select_device.rs`). With the `librespot` feature, it puts this machine at index 0 in front of the remote devices.

Files and modules:

| file | module | models |
|---|---|---|
| `base.dfy` | `Wrappers`, `Numeric`, `Sequences` | `Option`, `u16`/`u32`/`u64` as integer ranges, and the associativity of concatenation the loop proofs use |
| `commands.dfy` | `Commands` | `PlayerCommand` and its `load`, `load_at`, `load_paused` constructors |
| `events.dfy` | `Events` | `PlayerEvent` and its `is_error`, `is_playing`, `is_paused` classifiers |
| `engine.dfy` | `Engine` | the parts of librespot the worker uses: its player calls, its event kinds, its bitrates |
| `worker.dfy` | `Worker` | the worker's state, the effect of every command and engine event, the `run` loop, and the class `PlayerWorker` |
| `worker_properties.dfy` | `WorkerProperties` | lemmas about the commands, the event translation, and how the loop ends |
| `select_device.dfy` | `SelectDevice` | `get_device_count`, the key handler as class `App`, and its navigation/dispatch lemmas |
| `local_player.dfy` | `LocalPlayback` | `PlaybackMode`, `LocalPlayerState`, and `LocalPlayer` as a pair of FIFO queues |

How the worker is modelled:

- Pure functions give the meaning of one step on a `WorkerState` value: `CommandOutcome` for `handle_command`, `LoadOutcome` for `load_track`, `Translate`/`TranslateAll` for `handle_player_event` and the drain loop, and `RunFrom` for `run`.
- The class `PlayerWorker` has the fields of the Rust struct. Each of its methods is proved to change those fields exactly as the matching function says.
- The engine is a log: `engineCalls` records every call made on the librespot `Player`.
- The outgoing channel is `eventTx`, the sequence of events sent.
- The incoming channel is `commandRx`, a sequence of polls. Each poll is `Received(cmd)` or `Empty`. Reaching the end of the sequence is the `Disconnected` case.
- Everything external comes in through the `Env` value:
  - whether `SpotifyId::from_uri` accepts a URI, and the debug text of its error;
  - how `initialize` ends in each loop iteration (`InitOutcome`). The outcome is either a failure before the session is stored, with its message, or a connected session plus the results of the backend and mixer lookups in `create_player`;
  - which engine events are pending in each iteration.

Behaviour of the code that a reader might not expect, and that the model follows:

- `Stop` and `Shutdown` never clear the session or the player.
- Commands other than `Initialize` are handled before initialisation. For example, `SetVolume` reports `VolumeChanged`, and `Stop` clears the track.
- A `Preload` of a bad URI is not turned into an `Error` event. It ends `run` with an error, and no `Shutdown` event is sent.
- A failing `create_player` leaves the new session stored and keeps the old player, if there was one.
- `initialize` ignores the client id and port it is given.

## Model

| member | source | states |
|---|---|---|
| `Commands.LoadCommand` | src/player/commands.rs:50-56 | `load(u)` is a `Load` of u that starts playing at position 0 |
| `Commands.LoadAt` | src/player/commands.rs:59-65 | `load_at(u, p)` is a `Load` of u that starts playing at p |
| `Commands.LoadPaused` | src/player/commands.rs:68-74 | `load_paused(u)` is a `Load` of u at 0 that does not start playing |
| `Commands.LoadConstructorsAgree` | src/player/commands.rs:50-74 | `load(u) == load_at(u, 0)`; `load_paused(u)` differs from `load(u)` in `start_playing` alone |
| `Events.IsError` | src/player/events.rs:83-85 | holds exactly for the `Error` events |
| `Events.IsPlaying` | src/player/events.rs:88-90 | holds exactly for the `Playing` events |
| `Events.IsPaused` | src/player/events.rs:93-95 | holds exactly for the `Paused` events |
| `Events.ClassifiersExclusive` | src/player/events.rs:81-96 | at most one classifier holds; none holds for `Shutdown`, `Stopped`, `Initialized` |
| `Worker.DefaultConfig` | src/player/worker.rs:41-52 | default backend and device, 320 kbps, normalisation on, no cache path, 1 GiB cache cap |
| `Worker.NewWorker` | src/player/worker.rs:74-88 | a new worker has no session, player or track, volume 32767 (`u16::MAX / 2`), and has sent and called nothing |
| `Worker.PlayerWorker.constructor` | src/player/worker.rs:74-88 | the object's state is `NewWorker` of its receiver and configuration |
| `Worker.InvalidUriMessage` | src/player/worker.rs:587-589 | the parse error is "Invalid Spotify URI '", the URI, "': " and the parser's own description of the error, with nothing else |
| `Worker.BackendNotFoundMessage` | src/player/worker.rs:369-374 | the missing-backend error quotes the configured backend's name, or "default" when none is configured |
| `Worker.InitError` | src/player/worker.rs:92-190 | `initialize` succeeds exactly when the session connects and both the backend and the mixer are found |
| `Worker.PlayerWorker.Initialize` | src/player/worker.rs:92-190 | the session is stored once connected, before `create_player`; the player is set only on success |
| `Worker.PlayerWorker.CreatePlayer` | src/player/worker.rs:365-420 | backend lookup, then mixer lookup, each failing with its own message; the player is set only when both succeed |
| `Worker.LoadOutcome` | src/player/worker.rs:585-607 | loading succeeds exactly when the URI parses and a player exists, and then the current track is that URI |
| `Worker.PlayerWorker.LoadTrack` | src/player/worker.rs:585-607 | the fields change as `LoadOutcome` says; a failure returns its reason and changes nothing |
| `Worker.PlayerWorker.PreloadTrack` | src/player/worker.rs:609-617 | fails exactly on an unparseable URI; otherwise preloads on the player if there is one |
| `Worker.CommandOutcome` | src/player/worker.rs:474-539 | each command sends at most one event and never `Shutdown`, makes at most one engine call, keeps an existing player; only `Shutdown` exits; only a bad `Preload` fails |
| `Worker.PlayerWorker.HandleCommand` | src/player/worker.rs:474-539 | the fields and the returned step are those of `CommandOutcome` |
| `Worker.Translate` | src/player/worker.rs:541-583 | only `Unhandled` engine events are dropped; never produces `Position`, `SessionDisconnected`, `Shutdown`, `Initialized`, `InitializationFailed` or `VolumeChanged` |
| `Worker.PlayerWorker.HandlePlayerEvent` | src/player/worker.rs:541-583 | sends the translated event, if any |
| `Worker.TranslateAll` | src/player/worker.rs:456-462 | a drain sends at most one event per engine event, and never `Position`, `SessionDisconnected` or `Shutdown` |
| `Worker.Drained` | src/player/worker.rs:455-462 | without the event channel nothing changes; with it, only events are appended, at most one per engine event |
| `Worker.PlayerWorker.DrainPlayerEvents` | src/player/worker.rs:456-462 | the `while let` loop sends exactly `TranslateAll` of the pending engine events |
| `Worker.RunFrom` | src/player/worker.rs:423-472 | the loop keeps the configuration and an existing player, consumes commands, and an `Ok` run always sends at least one event |
| `Worker.PlayerWorker.Run` | src/player/worker.rs:423-472 | the loop ends in the state and with the result that `RunFrom` gives |
| `WorkerProperties.SetVolumeAlwaysReported` | src/player/worker.rs:523-527 | `SetVolume(v)` sets the volume and sends exactly one `VolumeChanged(v)`, with or without a player |
| `WorkerProperties.TransportNeedsPlayer` | src/player/worker.rs:502-522 | `Play`, `Pause`, `Seek` call the engine only if a player exists, otherwise change nothing, and never send an event |
| `WorkerProperties.StopIdempotent` | src/player/worker.rs:512-517 | `Stop` always clears the track and stops the engine only with a player; `Stop;Stop` equals `Stop` apart from the call log; no event is sent |
| `WorkerProperties.LoadChecksUriFirst` | src/player/worker.rs:585-607 | a bad URI is reported as invalid even with no player; a good URI without a player is "Player not initialized"; success records the URI and makes one engine load |
| `WorkerProperties.LoadFailureReported` | src/player/worker.rs:489-501 | a failed load sends exactly one `Error` starting "Failed to load track: ", makes no engine call and keeps the previous track |
| `WorkerProperties.PreloadOutcomes` | src/player/worker.rs:609-617 | a bad preload URI fails `handle_command`; a good one with no player is a silent no-op; with a player it preloads |
| `WorkerProperties.ShutdownStopsEngine` | src/player/worker.rs:531-536 | `Shutdown` stops the engine if there is one, sends nothing itself and exits |
| `WorkerProperties.InitializeIgnoresClientId` | src/player/worker.rs:92-99 | the outcome of `Initialize` does not depend on the client id or port |
| `WorkerProperties.InitializeOutcomes` | src/player/worker.rs:476-488 | success sends `Initialized` and sets the player; failure sends one `InitializationFailed` and keeps the player; a later failure keeps the new session |
| `WorkerProperties.TranslationTable` | src/player/worker.rs:542-578 | the engine-to-bridge table: current track or "", `Playing` with duration 0, `Unavailable` to `Error`, the rest dropped |
| `WorkerProperties.TranslateNamesCurrentTrack` | src/player/worker.rs:543-564 | every translated event that names a track names the current one, or "" |
| `WorkerProperties.TranslateAllSplit` | src/player/worker.rs:457-461 | draining two batches in turn sends the same as draining them at once |
| `WorkerProperties.TranslateAllEmpty` | src/player/worker.rs:574-582 | a drain sends nothing exactly when every pending engine event is unhandled |
| `WorkerProperties.UnavailableReportsOneError` | src/player/worker.rs:565-573 | an `Unavailable` engine event yields exactly one `Error` naming the track and changes nothing else |
| `WorkerProperties.DisconnectEndsRun` | src/player/worker.rs:449-453 | a disconnected command channel ends the loop with `Ok` and one `Shutdown` event |
| `WorkerProperties.ShutdownCommandEndsRun` | src/player/worker.rs:436-438 | a `Shutdown` command ends the loop at once: engine stopped if present, no drain, one `Shutdown` event |
| `WorkerProperties.BadPreloadAbortsRun` | src/player/worker.rs:436 | a bad `Preload` ends the loop with an error and no `Shutdown` event |
| `WorkerProperties.RunShutdownEvents` | src/player/worker.rs:430-471 | the loop only appends events; an `Ok` run's last event is its only `Shutdown`; a failed run sends none |
| `WorkerProperties.RunFailsOnlyOnBadPreload` | src/player/worker.rs:436 | `run` fails only if it received a `Preload` of an unparseable URI |
| `WorkerProperties.FreshRunShutdown` | src/player/worker.rs:468-469 | from a new worker, an `Ok` run sends exactly one `Shutdown`, as its last event |
| `WorkerProperties.CommandIgnoresEngineEvents` | src/player/worker.rs:474-539 | no command depends on the engine's pending events |
| `WorkerProperties.PlayerOnlyFromInitialize` | src/player/worker.rs:476-488 | a worker without a player gets one exactly from an `Initialize` whose `initialize` succeeds |
| `WorkerProperties.RunReadsLaterEventsOnly` | src/player/worker.rs:430-466 | the loop reads the engine's pending events only at the current and later iterations |
| `WorkerProperties.EngineEventsIgnoredBeforeInitialize` | src/player/worker.rs:435-462 | starting with no player, as `PlayerWorker::new` does, if every `Initialize` received before iteration `k` fails, events pending before `k` make no difference to the run |
| `WorkerProperties.IdleThenInitialize` | src/player/worker.rs:435-462 | a new worker polled empty twice and then sent `Initialize`: the events pending in the two idle iterations are never read, whatever `initialize` would have returned there |
| `WorkerProperties.RunContinues` | src/player/worker.rs:432-462 | an iteration whose command neither exits nor fails applies it, drains if the channel is held, and goes on |
| `WorkerProperties.LastLoadAppend` | src/player/worker.rs:599 | the last loaded track after one more call |
| `WorkerProperties.CommandKeepsTrackConsistent` | src/player/worker.rs:512-517 | after any command, a current track implies a player and is the track of the last engine load |
| `WorkerProperties.RunKeepsTrackConsistent` | src/player/worker.rs:430-466 | the loop keeps that invariant from start to end |
| `WorkerProperties.DrainedSendsNoShutdown` | src/player/worker.rs:456-462 | a drain sends no `Shutdown` |
| `WorkerProperties.TransportStep` | src/player/worker.rs:488-522 | on an initialised worker a `Load` of a parsing URI, `Play`, `Pause`, `Stop` or `Seek` makes its one engine call, continues, and sets, clears or keeps the current track |
| `WorkerProperties.TransportAppliedInOrder` | src/player/worker.rs:430-448 | any sequence of such commands reaches the engine as their calls in the order they were sent, and the run returns `Ok` |
| `WorkerProperties.TransportSetsTrack` | src/player/worker.rs:430-448 | after such a sequence the current track is the last `Load`'s URI unless a `Stop` followed, or else the track current before |
| `WorkerProperties.CommandsAppliedInOrder` | src/player/worker.rs:430-448 | `[Load(a), Play, Pause, Load(b)]` reaches the engine as those four calls in that order, leaves b current, ends with `Shutdown` |
| `SelectDevice.DeviceCount` | src/handlers/select_device.rs:13-23 | the remote devices (0 without a list) plus 1 with the feature, so at least 1 with it |
| `SelectDevice.DownIndex` | src/handlers/select_device.rs:34-38 | down always lands inside the menu, on 0 exactly when leaving the last index or beyond |
| `SelectDevice.UpIndex` | src/handlers/select_device.rs:47-51 | up from inside the menu stays inside, landing on the last index exactly when leaving 0 |
| `SelectDevice.SelectionAfter` | src/handlers/select_device.rs:30-72 | only the navigation keys move the selection, and nothing moves with no devices; a selection inside the menu stays inside; a missing selection is only filled by high, middle or low, inside the menu |
| `SelectDevice.EnterDispatches` | src/handlers/select_device.rs:73-104 | at most one request, none without a selection; `SwitchToLocalPlayback` exactly for index 0 with the feature |
| `SelectDevice.DispatchesFor` | src/handlers/select_device.rs:26-106 | only Enter dispatches, and at most one request |
| `SelectDevice.App.constructor` | src/handlers/select_device.rs:25-26 | the handler's slice of `App` with nothing dispatched yet |
| `SelectDevice.App.Handler` | src/handlers/select_device.rs:25-107 | the new selection, the dispatches and the route change are those of the key, as the lemmas below describe |
| `SelectDevice.UpDownInverse` | src/handlers/select_device.rs:30-55 | for a valid index, down then up returns to it, and up then down too |
| `SelectDevice.UpDownSelection` | src/handlers/select_device.rs:30-55 | up/down wrap around the list, leave a missing selection missing, do nothing with no devices |
| `SelectDevice.JumpKeys` | src/handlers/select_device.rs:56-72 | with devices, high/middle/low select 0, `count / 2`, `count - 1` even from no selection; without, nothing |
| `SelectDevice.NavigationStaysInMenu` | src/handlers/select_device.rs:30-72 | any key sequence keeps a valid selection valid |
| `SelectDevice.EnterWithLocalDevice` | src/handlers/select_device.rs:73-92 | index 0 dispatches only `SwitchToLocalPlayback`; k > 0 transfers to remote device k - 1 if it exists and has an id |
| `SelectDevice.EnterWithoutLocalDevice` | src/handlers/select_device.rs:93-101 | without the feature, index k transfers to remote device k; no selection dispatches nothing |
| `SelectDevice.EnterTargets` | src/handlers/select_device.rs:73-104 | Enter dispatches at most one request; with the feature, every index inside the menu names this machine or an existing remote device |
| `SelectDevice.OtherKeysInert` | src/handlers/select_device.rs:105 | any other key changes no state and dispatches nothing |
| `LocalPlayback.DefaultPlaybackMode` | src/player/mod.rs:33-37 | the default mode is `Remote(None)` |
| `LocalPlayback.DefaultLocalPlayerState` | src/player/mod.rs:75-91 | not initialised, not playing, no track, position, duration and volume 0 |
| `LocalPlayback.LocalPlayer.constructor` | src/player/mod.rs:53-62 | the handle holds the given channels and the default state |
| `LocalPlayback.LocalPlayer.SendCommand` | src/player/mod.rs:65-67 | the command joins the back of the command queue, or comes back as an error if the worker is gone; events untouched |
| `LocalPlayback.LocalPlayer.TryRecvEvent` | src/player/mod.rs:70-72 | `None` on an empty queue, otherwise the oldest event, which is removed |
| `LocalPlayback.ReceiveInOrder` | src/player/mod.rs:69-72 | the three results of `try_recv_event` on two queued events are the first event, the second, then nothing, and the queue ends empty |

## Left out

- The OAuth/PKCE flow `get_oauth_credentials` (worker.rs:194-363) is not modelled. It is made of random bytes, SHA-256, base64url, a TCP listener, a browser launch, URL parsing and an HTTPS token exchange, all foreign code or I/O. Its success or failure is part of `InitOutcome.SessionFailed`.
- The body of `initialize` (cache set-up, session creation and connect) and librespot's backend and mixer lookups in `create_player` are foreign calls. Only their outcomes are modelled: connected or failed with a message, then backend found or not, then mixer found or not.
- `SpotifyId::from_uri` is an uninterpreted predicate (`Env.parses`). The text of its error and the debug form of a track id in "Track unavailable: …" are uninterpreted strings, and an engine call names its track by the URI it was parsed from.
- The track id the engine's `Loading` event carries is ignored by the worker; the model keeps it only as a field.
- The engine's behaviour is not modelled. Calls are logged, and the events it produces are arbitrary per loop iteration (`Env.engineEvents`). Releasing the old player and its event channel on a second successful `Initialize` is left out too.
- Threads, the tokio runtime, `spawn_player_worker` and the 10 ms sleep are left out. The bridge is sequential: one poll per loop iteration.
- A send on the event channel whose receiver is gone is ignored by the source (`let _ =`). `eventTx` records every event the worker sends, delivered or not.
- `eprintln!` diagnostics and the sink-status callback are logging only.
- The handle and the worker are separate objects, not two ends of one shared channel, so the model does not show events travelling from the worker's `eventTx` into the handle's `eventRx`.
- `PlaybackMode::Local` exists only with the `librespot` feature. The model always has it.
- Which key codes count as down, up, high, middle or low is decided by `common_key_events`, which is not part of this model. Keys are given already classified. The effect of `set_current_route_state` and of `app.dispatch` is defined in `App` code that is not part of this model, so both are only recorded.
- `SelectDevice.LOCAL_DEVICE_ID` (select_device.rs:10) is kept only as the constant: the handler never reads it, since index 0 dispatches `SwitchToLocalPlayback` rather than a transfer to that id.
- `SelectDevice.DeviceCount`: the `usize` overflow of `remote_count + 1` is not modelled (counts are unbounded `nat`). It would need `usize::MAX` devices.
- src/handlers/recently_played.rs: its navigation delegates to `common_key_events` helpers and its other branches call `App` and `rspotify` code; none of that is part of this model.
