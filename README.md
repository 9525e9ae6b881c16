# Koel → Discord Rich Presence, modelled in Dafny

An Electron shell loads the Koel music player. Once a second the renderer
script (preload.js) reads the page — song title, artist, the album cover from
a `style` attribute, the album title, the `<audio>` element's position and
length, the player's classes — and sends a `song-update` message. The main
process (app.js) keeps one `currentSong` record; when a message carries a new
title and a truthy album title it replaces the record and pushes a Discord
activity built from it. app.js also keeps a `tokenData` record: `saveToken`
stores a token with its expiry, and at login the cached token is reused while
it has not expired.

The model:

- `js_values.dfy` (module `JsValues`): absent values (`null`/`undefined`) as
  `Option`, and string truthiness as used by `||`, `!!` and `if`.
- `ipc.dfy` (module `Ipc`): the `song-update` message.
- `preload.dfy` (module `Renderer`): `checkSongInfo` as pure functions of the
  page. The page is a value (`Page`); a number read from `<audio>` is
  `Finite(r) | NaN | Inf`. The album URL is the first match of
  `url\(([^)]+)\)`, written as a scan over start positions (`Scan`) and
  proved against an independent description of a match (`MatchAt`,
  `FirstMatchAt`).
- `app.dfy` (module `App`): the module-level state as the class `AppState`
  with fields `currentSong` and `tokenData`; its methods are proved against
  the pure functions `HandleSongUpdate`, `ActivityOf`, `TokenAfterSave` and
  `CachedTokenValid`, and lemmas over runs of messages (`Replay`) state what
  the handler promises over time. `Date.now()` is the parameter `now` in
  milliseconds; a push to the Discord client is the payload a method returns.
- `pipeline.dfy` (module `Pipeline`): lemmas about a renderer tick followed by
  the main-process handler.

Behaviour of the code that the model keeps as written:

- The payload's `startTimestamp` is read from `currentSong.currentTime`. Only
  the initial record has that field; the records the handler builds have
  `startTimestamp` instead. The initial record is never sent, because
  `updateDiscordActivity` runs only after a replacement, so no payload ever
  carries a start timestamp (`App.ReplayPushesNoStartTimestamp`).
- A song actually titled "Listening to Koel" is not shown while the initial
  record is current (`Pipeline.PlaceholderTitleNotShown`).
- The handler ignores `duration`, `isPlaying` and `isStopped`
  (`App.HandlerIgnoresPlaybackFlags`). app.js has no idle timer, no pause
  state and no comparison of a payload with the last one sent; a song change
  is the only thing that pushes an activity.

## Model

| member | source | states |
|---|---|---|
| `Renderer.NextClose` | preload.js:14 | the index found is a `)` at or after the start with no `)` before it; none means no `)` remains |
| `Renderer.Scan` | preload.js:14 | the match found starts at or after the scan position, is a match of `url\(([^)]+)\)`, and no match starts earlier; none means no match starts at or after the position |
| `Renderer.AlbumUrl` | preload.js:14-15 | null exactly when the style has no match; otherwise the capture of the leftmost match, non-empty and without `)` |
| `Renderer.MatchEndUnique` | preload.js:14 | a match starting at a given `url(` has only one possible end |
| `Renderer.AlbumUrlOfFirstMatch` | preload.js:14-15 | whenever a leftmost match is known, the URL sent is exactly its capture |
| `Renderer.AlbumUrlAfterPrefix` | preload.js:10-15 | a style `<prefix>url(<url>)<suffix>` with no `url(` in the prefix yields `<url>` when it is non-empty and has no `)` |
| `Renderer.KoelCoverStyle` | preload.js:11-15 | the page's own style `--<hex id>: url(<cover>);` yields `<cover>` |
| `Renderer.SentCurrentTime` | preload.js:21-28 | the position sent is the element's value when finite, and 0 when it is NaN or infinite or there is no audio element |
| `Renderer.SentDuration` | preload.js:22-31 | the length sent is never negative; it is positive exactly when the element's value is finite and positive, and then equals it |
| `Renderer.SentArtist` | preload.js:41 | the artist sent is never empty: the scraped one when present and non-empty, else "Unknown Artist" |
| `Renderer.HasClass` | preload.js:34-36 | `isPlaying`/`isStopped` are true exactly when the player exists and has the class, and null exactly when there is no player |
| `Renderer.NoCoverNothingSent` | preload.js:7-13 | on a page without the `.song-info` element, whose title and artist lookups then find nothing, no message is sent |
| `Renderer.CheckSongInfo` | preload.js:4-53 | a cover element without a style throws and is caught; otherwise a message is sent exactly when the title is present and non-empty, and each field is the sanitised value above |
| `Renderer.Sample` | preload.js:38-49 | after the style is read, a message is sent exactly when the title is truthy |
| `App.SongFrom` | app.js:88-94 | the new record copies title, artist, album URL and album title, has no `currentTime` field, and starts `currentTime` seconds before `now` (at `now` for 0), so never after `now` for a non-negative position |
| `App.ActivityOf` | app.js:101-113 | details is the title, state is "by " + artist, large image falls back to 'logo' and its text to 'Koel' (both never empty), fixed small image fields and `instance`, start timestamp read from `currentTime` |
| `App.HandleSongUpdate` | app.js:86-98 | a payload is pushed exactly when the title differs and the album title is truthy; otherwise the record is unchanged; a pushed payload shows the new title and has no start timestamp |
| `App.AppState.constructor` | app.js:12-34 | the initial `currentSong` is the placeholder record with `currentTime` set at load; `tokenData` is the saved token or the empty one |
| `App.AppState.OnSongUpdate` | app.js:86-98 | the new `currentSong` and the pushed payload are those of `HandleSongUpdate` on the old record |
| `App.AppState.UpdateDiscordActivity` | app.js:101-113 | the payload is built from the current record, with its title as details and its `currentTime` as start |
| `App.AppState.SaveToken` | app.js:63-73 | `tokenData` becomes `TokenAfterSave` of its old value |
| `App.AppState.BuildLoginOptions` | app.js:119-130 | scopes, client id, redirect URI and secret come from the configuration; the cached access token is attached exactly when it is truthy and not yet expired |
| `App.Lifetime` | app.js:68 | a given non-zero `expiresIn` is the lifetime; a missing or zero one gives 86400 seconds; the lifetime is never zero |
| `App.TokenAfterSave` | app.js:63-69 | a missing token or a falsy access token leaves `tokenData` unchanged; otherwise the access token is stored and expires lifetime × 1000 ms after `now` |
| `App.ReplayCons` | app.js:86-98 | a run of messages is the first message's effect followed by the run of the rest |
| `App.RepeatedUpdatePushesOnce` | app.js:87-96 | the same message received twice pushes at most one payload |
| `App.SongChangeScenario` | app.js:86-98 | playing A, A, B pushes exactly A then B and ends on B's record |
| `App.ReplayPushesAtMostOncePerMessage` | app.js:96 | a run never pushes more payloads than it has messages |
| `App.ReplayPushesNoStartTimestamp` | app.js:33-34 | no payload of any run carries a start timestamp |
| `App.ReplayFinalSong` | app.js:86-98 | with no push the record is unchanged; after a push it has no `currentTime` field and the last payload is the one built from it |
| `App.ReplayTitleChangesEachTime` | app.js:87-96 | every payload's title differs from that of the song shown before it |
| `App.HandlerIgnoresPlaybackFlags` | app.js:86-98 | the handler's result does not depend on `duration`, `isPlaying` or `isStopped` |
| `App.SaveDefaultsToOneDay` | app.js:68 | a saved token without `expiresIn` expires 86400000 ms after `now` |
| `App.SaveUsesGivenLifetime` | app.js:68 | a saved token with a non-zero `expiresIn` expires `expiresIn` × 1000 ms after `now` |
| `App.SavedTokenUsedUntilExpiry` | app.js:127 | after a save, the token is reused at login exactly before `now` + lifetime × 1000 |
| `App.RejectedTokenKeepsLogin` | app.js:64 | a rejected token does not change whether the cached token is reused |
| `Pipeline.NoAlbumPanelNoChange` | preload.js:17 | without an album title the handler never changes song |
| `Pipeline.PlaceholderTitleNotShown` | app.js:29 | a first song titled like the placeholder is not pushed |
| `Pipeline.ShownArtistNeverEmpty` | preload.js:41 | a pushed state always names an artist |
| `Pipeline.NoCoverUrlShowsLogo` | preload.js:13-15 | a cover style with no `url(...)` match sends a null URL, and the pushed large image is then 'logo' |
| `Pipeline.KoelCoverShown` | preload.js:14 | a Koel cover style puts the cover URL in the large image |
| `Pipeline.StoredStartFromAudio` | app.js:93 | the stored start is `now` minus the audio position, or `now` when there is no finite position |

## Left out

- Window creation, navigation and the new-window policy (app.js:36-60, 115-116): user interface.
- Reading and writing the token file, including the save at `will-quit` (app.js:9, 18-25, 71, 142-146): file I/O. The constructor takes what the file held as a parameter.
- The discord-rpc client: construction, the `ready` and `tokenUpdate` events, the `login` promise and its `then`, and `setActivity` with its `catch` (app.js:2, 6, 75-83, 112, 133-139): calls into a library. Both the login result and `tokenUpdate` go through `SaveToken`.
- DOM queries, `classList`, the event listener, `setInterval` and `ipcRenderer.send` (preload.js:3, 7-20, 34, 39, 56): replaced by the `Page` value and the returned message.
- Floating point: positions are `real`, `Date.now()` is an integer; NaN and infinity appear only in the renderer's `Reading`. The handler's test of `currentTime` is a test against 0, as the renderer never sends NaN.
- The page fields are independent inputs; only `Renderer.WellFormed` ties the title and artist to the presence of the cover element, and only `Renderer.NoCoverNothingSent` assumes it.
- Logging with `console.log`/`console.error`.
