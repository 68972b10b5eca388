/**
 * The events the library reports to its users (src/events.rs and
 * src/loader/mod.rs). Only some of them are emitted by the player; the rest
 * are declared for callers.
 */
module Events {

  /** `PlayerEvent`: what the player's registered callback receives. */
  datatype PlayerEvent =
    | Play
    | Pause
    | Waiting
    | Playing
    | Ended
    | DurationChange
    | VolumeChange
    | Seeking
    | Seeked
    | LoadStart
    | LoadedData
    | LoadedMetadata
    | Error(message: string)

  /** `LoaderEvent`: declared for loader users; the downloader reports its own `DownloadEvent`. */
  datatype LoaderEvent = LoaderCompleted | LoaderAborted
}
