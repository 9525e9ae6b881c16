/** The renderer and the main process together: what a tick of
    `checkSongInfo` leads the `song-update` handler to do. */
module Pipeline {
  import opened JsValues
  import opened Ipc
  import opened Renderer
  import opened App

  /** Without the album panel the message has no album title, and the main
      process never changes song on it. */
  lemma NoAlbumPanelNoChange(current: Song, page: Page, now: int)
    requires CheckSongInfo(page).Send?
    requires !Truthy(page.albumTitle)
    ensures HandleSongUpdate(current, CheckSongInfo(page).msg, now) == (current, None)
  {
  }

  /** At start-up, a song that happens to be titled "Listening to Koel" is
      not shown: its title equals the placeholder's. */
  lemma PlaceholderTitleNotShown(loadTime: int, page: Page, now: int)
    requires CheckSongInfo(page).Send?
    requires page.title == Some("Listening to Koel")
    ensures HandleSongUpdate(InitialSong(loadTime), CheckSongInfo(page).msg, now).1.None?
  {
  }

  /** A shown song's payload names an artist: the renderer's default fills
      an empty one, so the state is never the bare "by ". */
  lemma ShownArtistNeverEmpty(current: Song, page: Page, now: int)
    requires CheckSongInfo(page).Send?
    requires HandleSongUpdate(current, CheckSongInfo(page).msg, now).1.Some?
    ensures HandleSongUpdate(current, CheckSongInfo(page).msg, now).1.value.state
         == "by " + SentArtist(page.artist)
    ensures |HandleSongUpdate(current, CheckSongInfo(page).msg, now).1.value.state| > 3
  {
  }

  /** A cover style without a `url(...)` shows the default logo. */
  lemma NoCoverUrlShowsLogo(current: Song, page: Page, now: int, style: string)
    requires page.cover == CoverElement(Some(style)) && AlbumUrl(style).None?
    requires CheckSongInfo(page).Send?
    requires HandleSongUpdate(current, CheckSongInfo(page).msg, now).1.Some?
    ensures HandleSongUpdate(current, CheckSongInfo(page).msg, now).1.value.largeImageKey == "logo"
  {
  }

  /** A Koel cover style shows the cover URL as the large image. */
  lemma KoelCoverShown(current: Song, page: Page, now: int, id: string, cover: string)
    requires forall c :: c in id ==> c in "0123456789abcdef"
    requires cover != [] && ')' !in cover
    requires page.cover == CoverElement(Some("--" + id + ": url(" + cover + ");"))
    requires Truthy(page.title) && page.title.value != current.title && Truthy(page.albumTitle)
    ensures HandleSongUpdate(current, CheckSongInfo(page).msg, now).1.Some?
    ensures HandleSongUpdate(current, CheckSongInfo(page).msg, now).1.value.largeImageKey == cover
  {
    KoelCoverStyle(id, cover);
  }

  /** The stored start lies `currentTime` seconds before the message
      arrives; a missing or non-finite position puts it at `now`. */
  lemma StoredStartFromAudio(current: Song, page: Page, now: int)
    requires CheckSongInfo(page).Send?
    requires Replaces(current, CheckSongInfo(page).msg)
    ensures var start := HandleSongUpdate(current, CheckSongInfo(page).msg, now).0.startTimestamp;
      start.Some? &&
      (page.audio.Some? && page.audio.value.currentTime.Finite? ==>
         start.value == now as real - page.audio.value.currentTime.r * 1000.0) &&
      (page.audio.None? || !page.audio.value.currentTime.Finite? ==> start.value == now as real)
  {
  }
}
