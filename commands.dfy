/** Commands the UI thread sends to the player worker (src/player/commands.rs). */
module Commands {
  import opened Numeric

  datatype PlayerCommand =
    | Initialize(clientId: string, redirectPort: u16)
    | Load(uri: string, startPlaying: bool, positionMs: u32)
    | Play
    | Pause
    | Stop
    | Seek(positionMs: u32)
    | SetVolume(volume: u16)
    | Preload(uri: string)
    | Shutdown

  /** `PlayerCommand::load`: load a track and start playing it from the beginning. */
  function LoadCommand(uri: string): (c: PlayerCommand)
    ensures c.Load? && c.uri == uri
    ensures c.startPlaying && c.positionMs == 0
  {
    Load(uri, true, 0)
  }

  /** `PlayerCommand::load_at`: load a track and start playing it at `positionMs`. */
  function LoadAt(uri: string, positionMs: u32): (c: PlayerCommand)
    ensures c.Load? && c.uri == uri
    ensures c.startPlaying && c.positionMs == positionMs
  {
    Load(uri, true, positionMs)
  }

  /** `PlayerCommand::load_paused`: load a track at its beginning without playing it. */
  function LoadPaused(uri: string): (c: PlayerCommand)
    ensures c.Load? && c.uri == uri
    ensures !c.startPlaying && c.positionMs == 0
  {
    Load(uri, false, 0)
  }

  /** The three convenience constructors agree with each other: `load` is `load_at` at 0,
      and `load_paused` differs from `load` in `start_playing` alone. */
  lemma LoadConstructorsAgree(uri: string)
    ensures LoadCommand(uri) == LoadAt(uri, 0)
    ensures LoadPaused(uri) == LoadCommand(uri).(startPlaying := false)
    ensures LoadPaused(uri) != LoadCommand(uri)
  {
  }
}
