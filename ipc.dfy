/** The `song-update` message the renderer sends to the main process. */
module Ipc {
  import opened JsValues

  /** One sample of the player, as built by the renderer.
      `albumIconUrl` is `null` when the cover style holds no `url(...)`;
      `albumTitle` is `undefined` when the album panel is missing;
      `isPlaying` and `isStopped` are `null` when there is no player element.
      Times are in seconds. */
  datatype SongUpdate = SongUpdate(
    title: string,
    artist: string,
    albumIconUrl: Option<string>,
    albumTitle: Option<string>,
    currentTime: real,
    duration: real,
    isPlaying: Option<bool>,
    isStopped: Option<bool>
  )
}
