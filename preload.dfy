/** The renderer side: `checkSongInfo` in preload.js, which turns what the
    page shows into one `song-update` message per tick. The DOM lookups are
    inputs; the `setInterval` driver and `ipcRenderer.send` are left out. */
module Renderer {
  import opened JsValues
  import opened Ipc

  /** A number read from the `<audio>` element, which may be NaN or infinite. */
  datatype Reading = Finite(r: real) | NaN | Inf

  /** The `<audio>` element's playback position and length, in seconds. */
  datatype Audio = Audio(currentTime: Reading, duration: Reading)

  /** The `.song-info` element, which carries the album cover in its style. */
  datatype Cover = NoCover | CoverElement(style: Option<string>)

  /** The `.plyr--audio` player element, reduced to its class list. */
  datatype Player = Player(classes: set<string>)

  /** Everything `checkSongInfo` reads from the page. Each `Option` is the
      `textContent` of an element, `None` when the element is missing. */
  datatype Page = Page(
    title: Option<string>,
    artist: Option<string>,
    cover: Cover,
    albumTitle: Option<string>,
    audio: Option<Audio>,
    player: Option<Player>
  )

  /** The title and artist selectors (`.song-info .meta .title`,
      `.song-info .meta .artist`) lie inside the cover element, so a page
      without that element has neither. */
  predicate WellFormed(page: Page) {
    page.cover.NoCover? ==> page.title.None? && page.artist.None?
  }

  /** What one tick does: send a message, send nothing, or catch an error. */
  datatype Tick = Send(msg: SongUpdate) | NoSong | Caught

  // ---------------------------------------------------------------------
  // The album URL: the first match of the regular expression url\(([^)]+)\)

  /** The literal `url(` starts at `i`. */
  predicate UrlAt(s: string, i: nat) {
    i + 4 <= |s| && s[i..i + 4] == "url("
  }

  /** The regular expression matches `s[i..j+1]`: `url(`, then one or more
      characters that are not `)`, then the `)` at `j`; the capture is
      `s[i+4..j]`. */
  ghost predicate MatchAt(s: string, i: nat, j: nat) {
    i + 4 < j < |s| && UrlAt(s, i) && s[j] == ')' &&
    forall k :: i + 4 <= k < j ==> s[k] != ')'
  }

  /** The match at `i` is the leftmost one, which is the one `match` returns. */
  ghost predicate FirstMatchAt(s: string, i: nat, j: nat) {
    MatchAt(s, i, j) && forall i0: nat, j0: nat :: MatchAt(s, i0, j0) ==> i <= i0
  }

  /** The index of the first `)` at or after `k`. */
  function NextClose(s: string, k: nat): (r: Option<nat>)
    decreases |s| - k
    ensures r.Some? ==> k <= r.value < |s| && s[r.value] == ')'
    ensures r.Some? ==> forall m :: k <= m < r.value ==> s[m] != ')'
    ensures r.None? ==> forall m :: k <= m < |s| ==> s[m] != ')'
  {
    if k >= |s| then None
    else if s[k] == ')' then Some(k)
    else NextClose(s, k + 1)
  }

  /** The regular-expression engine's scan: try each start position from
      `i` on; at a `url(` the greedy `[^)]+` runs up to the next `)`, and
      the attempt fails when that `)` comes at once or never comes. */
  function Scan(s: string, i: nat): (r: Option<(nat, nat)>)
    decreases |s| - i
    ensures r.Some? ==> i <= r.value.0 && MatchAt(s, r.value.0, r.value.1)
    ensures r.Some? ==> forall i0: nat, j0: nat :: i <= i0 < r.value.0 ==> !MatchAt(s, i0, j0)
    ensures r.None? ==> forall i0: nat, j0: nat :: i <= i0 ==> !MatchAt(s, i0, j0)
  {
    if i + 4 >= |s| then None
    else if UrlAt(s, i) then
      match NextClose(s, i + 4)
      case Some(j) => if j > i + 4 then Some((i, j)) else Scan(s, i + 1)
      case None => Scan(s, i + 1)
    else Scan(s, i + 1)
  }

  /** `albumStyle.match(/url\(([^)]+)\)/)`, then `albumMatch[1]` or `null`. */
  function AlbumUrl(style: string): (u: Option<string>)
    ensures u.None? <==> forall i: nat, j: nat :: !MatchAt(style, i, j)
    ensures u.Some? ==> exists i: nat, j: nat :: FirstMatchAt(style, i, j) && u.value == style[i + 4..j]
    ensures u.Some? ==> |u.value| > 0 && ')' !in u.value
  {
    match Scan(style, 0)
    case None => None
    case Some((i, j)) =>
      assert FirstMatchAt(style, i, j);
      Some(style[i + 4..j])
  }

  // ---------------------------------------------------------------------
  // Playback position and length, and the other fields of the message

  /** The position sent: the element's value when it is a finite number,
      0 otherwise and when there is no `<audio>` element. */
  function SentCurrentTime(audio: Option<Audio>): (t: real)
    ensures audio.Some? && audio.value.currentTime.Finite? ==> t == audio.value.currentTime.r
    ensures audio.None? || !audio.value.currentTime.Finite? ==> t == 0.0
  {
    if audio.Some? && audio.value.currentTime.Finite? then audio.value.currentTime.r else 0.0
  }

  /** The length sent: the element's value only when finite and positive. */
  function SentDuration(audio: Option<Audio>): (d: real)
    ensures d >= 0.0
    ensures d > 0.0 <==> audio.Some? && audio.value.duration.Finite? && audio.value.duration.r > 0.0
    ensures d > 0.0 ==> d == audio.value.duration.r
  {
    if audio.Some? && audio.value.duration.Finite? && audio.value.duration.r > 0.0 then
      audio.value.duration.r
    else 0.0
  }

  /** `artist || 'Unknown Artist'`. */
  function SentArtist(artist: Option<string>): (a: string)
    ensures a != ""
    ensures Truthy(artist) ==> a == artist.value
    ensures !Truthy(artist) ==> a == "Unknown Artist"
  {
    OrElse(artist, "Unknown Artist")
  }

  /** `player && player.classList.contains(name)`: `null` without a player. */
  function HasClass(player: Option<Player>, name: string): (b: Option<bool>)
    ensures b == Some(true) <==> player.Some? && name in player.value.classes
    ensures b.None? <==> player.None?
  {
    match player
    case None => None
    case Some(p) => Some(name in p.classes)
  }

  /** One call of `checkSongInfo`. With a cover element but no `style`
      attribute, `getAttribute` yields `null` and `.match` throws; the
      handler catches it and nothing is sent. Without a cover element the
      style is the empty string. A message is sent only for a non-empty title. */
  function CheckSongInfo(page: Page): (t: Tick)
    ensures t.Caught? <==> page.cover == CoverElement(None)
    ensures t.Send? <==> page.cover != CoverElement(None) && Truthy(page.title)
    ensures t.Send? ==> t.msg.title == page.title.value && t.msg.title != ""
    ensures t.Send? ==> t.msg.artist == SentArtist(page.artist)
    ensures t.Send? && page.cover.NoCover? ==> t.msg.albumIconUrl.None?
    ensures t.Send? && page.cover.CoverElement? ==> t.msg.albumIconUrl == AlbumUrl(page.cover.style.value)
    ensures t.Send? ==> t.msg.albumTitle == page.albumTitle
    ensures t.Send? ==> t.msg.currentTime == SentCurrentTime(page.audio)
    ensures t.Send? ==> t.msg.duration == SentDuration(page.audio)
    ensures t.Send? ==> t.msg.isPlaying == HasClass(page.player, "plyr--playing")
    ensures t.Send? ==> t.msg.isStopped == HasClass(page.player, "plyr--stopped")
  {
    match page.cover
    case CoverElement(None) => Caught
    case NoCover => Sample(page, "")
    case CoverElement(Some(style)) => Sample(page, style)
  }

  /** The part of `checkSongInfo` after the style has been read. */
  function Sample(page: Page, style: string): (t: Tick)
    ensures t.Send? <==> Truthy(page.title)
  {
    if Truthy(page.title) then
      Send(SongUpdate(
        title := page.title.value,
        artist := SentArtist(page.artist),
        albumIconUrl := AlbumUrl(style),
        albumTitle := page.albumTitle,
        currentTime := SentCurrentTime(page.audio),
        duration := SentDuration(page.audio),
        isPlaying := HasClass(page.player, "plyr--playing"),
        isStopped := HasClass(page.player, "plyr--stopped")))
    else NoSong
  }

  // ---------------------------------------------------------------------
  // Lemmas

  /** On a page without the `.song-info` element nothing is sent: the
      title lookup inside it finds nothing. */
  lemma NoCoverNothingSent(page: Page)
    requires WellFormed(page) && page.cover.NoCover?
    ensures CheckSongInfo(page) == NoSong
  {
  }

  /** Only one `)` can close the match at a given `url(`. */
  lemma MatchEndUnique(s: string, i: nat, j1: nat, j2: nat)
    requires MatchAt(s, i, j1) && MatchAt(s, i, j2)
    ensures j1 == j2
  {
  }

  /** The URL is determined by the leftmost match: whenever `url(` at `i`
      is followed by a non-empty run closed by `)` at `j`, and no match
      starts earlier, the URL is exactly that run. */
  lemma AlbumUrlOfFirstMatch(style: string, i: nat, j: nat)
    requires FirstMatchAt(style, i, j)
    ensures AlbumUrl(style) == Some(style[i + 4..j])
  {
    var r := Scan(style, 0);
    assert r.Some?;
    var (i1, j1) := r.value;
    assert i <= i1;
    assert !(i < i1);
    MatchEndUnique(style, i, j1, j);
  }

  /** A cover style of the form `<prefix>url(<url>)<suffix>`, where no
      `url(` starts inside the prefix, yields exactly `<url>` when it is
      non-empty and holds no `)`; the page's own style has this form, with
      the prefix `--<id>: `. */
  lemma AlbumUrlAfterPrefix(prefix: string, url: string, suffix: string)
    requires forall k: nat :: k < |prefix| ==> !UrlAt(prefix + "url(", k)
    requires url != [] && ')' !in url
    ensures AlbumUrl(prefix + "url(" + url + ")" + suffix) == Some(url)
  {
    var head := prefix + "url(";
    var s := head + url + ")" + suffix;
    var i, j := |prefix|, |prefix| + 4 + |url|;
    assert s[i..i + 4] == "url(";
    assert s[i + 4..j] == url;
    assert MatchAt(s, i, j);
    forall i0: nat, j0: nat | i0 < i ensures !MatchAt(s, i0, j0) {
      assert s[i0..i0 + 4] == head[i0..i0 + 4];
      assert !UrlAt(head, i0);
    }
    AlbumUrlOfFirstMatch(s, i, j);
  }

  /** The Koel page writes the cover into a custom property,
      `--<hex id>: url(<cover>);`; the URL sent is then `<cover>`. */
  lemma KoelCoverStyle(id: string, cover: string)
    requires forall c :: c in id ==> c in "0123456789abcdef"
    requires cover != [] && ')' !in cover
    ensures AlbumUrl("--" + id + ": url(" + cover + ");") == Some(cover)
  {
    var prefix := "--" + id + ": ";
    forall k: nat | k < |prefix| ensures !UrlAt(prefix + "url(", k) {
      var head := prefix + "url(";
      assert head[k] == prefix[k] != 'u' by {
        if k < 2 {
          assert prefix[k] == "--"[k];
        } else if k < 2 + |id| {
          assert prefix[k] == id[k - 2] && id[k - 2] in id;
          assert 'u' !in "0123456789abcdef";
        } else {
          assert prefix[k] == ": "[k - 2 - |id|];
        }
      }
      if k + 4 <= |head| {
        assert head[k..k + 4][0] == head[k];
      }
    }
    AlbumUrlAfterPrefix(prefix, cover, ";");
    assert prefix + "url(" + cover + ")" + ";" == "--" + id + ": url(" + cover + ");";
  }
}
