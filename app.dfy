/** The main process, app.js: the module-level `currentSong` and `tokenData`
    records, the `song-update` handler, the activity payload, `saveToken` and
    the cached-token test at login. `Date.now()` is the parameter `now`, in
    milliseconds; the discord-rpc client, the window and the token file are
    left out, and a push to the client is the payload a method returns. */
module App {
  import opened JsValues
  import opened Ipc

  // ---------------------------------------------------------------------
  // The current song and the activity payload

  /** The `currentSong` record. The initial record carries `currentTime`
      (a `Date`, here in milliseconds) and no `startTimestamp`; the records
      the handler builds carry `startTimestamp` and no `currentTime`. */
  datatype Song = Song(
    title: string,
    artist: string,
    albumIconUrl: Option<string>,
    albumTitle: Option<string>,
    currentTime: Option<int>,
    startTimestamp: Option<real>
  )

  /** The object passed to `client.setActivity`. */
  datatype Activity = Activity(
    details: string,
    state: string,
    largeImageKey: string,
    largeImageText: string,
    smallImageKey: string,
    smallImageText: string,
    startTimestamp: Option<int>,
    instance: bool
  )

  const InitialTitle := "Listening to Koel"

  /** The record `currentSong` holds when the process starts at `loadTime`. */
  function InitialSong(loadTime: int): Song {
    Song(InitialTitle, "", Some(""), Some(""), Some(loadTime), None)
  }

  /** The handler's guard: a different title and a truthy album title. */
  predicate Replaces(current: Song, info: SongUpdate) {
    current.title != info.title && Truthy(info.albumTitle)
  }

  /** The record the handler builds from a message received at `now`. Its
      start is placed `currentTime` seconds before `now`; a position of 0
      takes the other branch of app.js's test, which gives `now` too. */
  function SongFrom(info: SongUpdate, now: int): (s: Song)
    ensures s.title == info.title && s.artist == info.artist
    ensures s.albumIconUrl == info.albumIconUrl && s.albumTitle == info.albumTitle
    ensures s.currentTime.None? && s.startTimestamp.Some?
    ensures now as real - s.startTimestamp.value == info.currentTime * 1000.0
    ensures info.currentTime == 0.0 ==> s.startTimestamp.value == now as real
    ensures info.currentTime >= 0.0 ==> s.startTimestamp.value <= now as real
  {
    var start := if info.currentTime != 0.0 then now as real - info.currentTime * 1000.0 else now as real;
    Song(info.title, info.artist, info.albumIconUrl, info.albumTitle, None, Some(start))
  }

  /** The payload `updateDiscordActivity` builds from `currentSong`. Its start
      timestamp is read from the `currentTime` field, not `startTimestamp`. */
  function ActivityOf(song: Song): (a: Activity)
    ensures a.details == song.title && a.state == "by " + song.artist
    ensures a.largeImageKey == (if Truthy(song.albumIconUrl) then song.albumIconUrl.value else "logo")
    ensures a.largeImageText == (if Truthy(song.albumTitle) then song.albumTitle.value else "Koel")
    ensures a.largeImageKey != "" && a.largeImageText != ""
    ensures a.smallImageKey == "playing" && a.smallImageText == "Playing a song" && a.instance
    ensures a.startTimestamp == song.currentTime
  {
    Activity(
      details := song.title,
      state := "by " + song.artist,
      largeImageKey := OrElse(song.albumIconUrl, "logo"),
      largeImageText := OrElse(song.albumTitle, "Koel"),
      smallImageKey := "playing",
      smallImageText := "Playing a song",
      startTimestamp := song.currentTime,
      instance := true)
  }

  /** One `song-update` message: the new `currentSong` and the payload
      pushed, if any. */
  function HandleSongUpdate(current: Song, info: SongUpdate, now: int): (r: (Song, Option<Activity>))
    ensures r.1.Some? <==> Replaces(current, info)
    ensures r.1.None? ==> r.0 == current
    ensures r.1.Some? ==> r.0 == SongFrom(info, now) && r.1.value == ActivityOf(r.0)
    ensures r.1.Some? ==> r.1.value.details == info.title && r.1.value.startTimestamp.None?
  {
    if Replaces(current, info) then
      var song := SongFrom(info, now);
      (song, Some(ActivityOf(song)))
    else (current, None)
  }

  /** A message with the time it is received. */
  datatype Delivery = Delivery(info: SongUpdate, now: int)

  /** A run of messages: the final `currentSong` and every payload pushed,
      in order. */
  function Replay(current: Song, ds: seq<Delivery>): (r: (Song, seq<Activity>))
    decreases |ds|
  {
    if ds == [] then (current, [])
    else
      var (next, sent) := HandleSongUpdate(current, ds[0].info, ds[0].now);
      var (last, rest) := Replay(next, ds[1..]);
      (last, (if sent.Some? then [sent.value] else []) + rest)
  }

  // ---------------------------------------------------------------------
  // The Discord token

  /** What `tokenUpdate` and the login result hand to `saveToken`. */
  datatype Token = Token(accessToken: Option<string>, expiresIn: Option<int>)

  /** The `tokenData` record; `expiresAt` is in milliseconds. */
  datatype TokenData = TokenData(accessToken: Option<string>, expiresAt: int)

  const DefaultExpiresIn := 86400

  /** `token.expiresIn || 86400`, in seconds. */
  function Lifetime(token: Token): (s: int)
    ensures token.expiresIn.None? || token.expiresIn == Some(0) ==> s == DefaultExpiresIn
    ensures token.expiresIn.Some? && token.expiresIn.value != 0 ==> s == token.expiresIn.value
    ensures s != 0
  {
    if token.expiresIn.Some? && token.expiresIn.value != 0 then token.expiresIn.value else DefaultExpiresIn
  }

  /** Whether `saveToken` accepts a token: present, with a truthy access token. */
  predicate Saves(token: Option<Token>) {
    token.Some? && Truthy(token.value.accessToken)
  }

  /** `tokenData` after `saveToken(token)` at `now`. */
  function TokenAfterSave(data: TokenData, token: Option<Token>, now: int): (d: TokenData)
    ensures !Saves(token) ==> d == data
    ensures Saves(token) ==> d.accessToken == token.value.accessToken
    ensures Saves(token) ==> d.expiresAt - now == Lifetime(token.value) * 1000
  {
    if !Saves(token) then data
    else TokenData(token.value.accessToken, now + Lifetime(token.value) * 1000)
  }

  /** The login test: a truthy cached token that has not yet expired. */
  predicate CachedTokenValid(data: TokenData, now: int) {
    Truthy(data.accessToken) && now < data.expiresAt
  }

  /** The settings read from config.json. */
  datatype Config = Config(clientId: string, redirectUri: string, clientSecret: string)

  /** The options passed to `client.login`. */
  datatype LoginOptions = LoginOptions(
    scopes: seq<string>,
    clientId: string,
    redirectUri: string,
    clientSecret: string,
    accessToken: Option<string>
  )

  // ---------------------------------------------------------------------
  // The process state

  /** The module-level state of app.js. */
  class AppState {
    var currentSong: Song
    var tokenData: TokenData

    /** Module load at `loadTime`; `saved` is what the token file held, if it
        exists and parses. */
    constructor (loadTime: int, saved: Option<TokenData>)
      ensures currentSong == InitialSong(loadTime)
      ensures tokenData == (if saved.Some? then saved.value else TokenData(None, 0))
    {
      currentSong := InitialSong(loadTime);
      tokenData := if saved.Some? then saved.value else TokenData(None, 0);
    }

    /** The `song-update` handler: replace `currentSong` and push one
        activity, or do nothing. */
    method OnSongUpdate(info: SongUpdate, now: int) returns (sent: Option<Activity>)
      modifies this`currentSong
      ensures (currentSong, sent) == HandleSongUpdate(old(currentSong), info, now)
    {
      if currentSong.title != info.title && Truthy(info.albumTitle) {
        currentSong := SongFrom(info, now);
        var activity := UpdateDiscordActivity();
        sent := Some(activity);
      } else {
        sent := None;
      }
    }

    /** `updateDiscordActivity`: the payload for the current song. */
    method UpdateDiscordActivity() returns (activity: Activity)
      ensures activity == ActivityOf(currentSong)
      ensures activity.details == currentSong.title
      ensures activity.startTimestamp == currentSong.currentTime
    {
      activity := ActivityOf(currentSong);
    }

    /** `saveToken(token)` at `now`, without the write to the token file. */
    method SaveToken(token: Option<Token>, now: int)
      modifies this`tokenData
      ensures tokenData == TokenAfterSave(old(tokenData), token, now)
    {
      if token.None? || !Truthy(token.value.accessToken) {
        return;
      }
      tokenData := TokenData(token.value.accessToken, now + Lifetime(token.value) * 1000);
    }

    /** The login options built in the `ready` handler at `now`. */
    method BuildLoginOptions(config: Config, now: int) returns (opts: LoginOptions)
      ensures opts.scopes == ["rpc"] && opts.clientId == config.clientId
      ensures opts.redirectUri == config.redirectUri && opts.clientSecret == config.clientSecret
      ensures opts.accessToken.Some? <==> CachedTokenValid(tokenData, now)
      ensures opts.accessToken.Some? ==> opts.accessToken == tokenData.accessToken
    {
      opts := LoginOptions(["rpc"], config.clientId, config.redirectUri, config.clientSecret, None);
      if Truthy(tokenData.accessToken) && now < tokenData.expiresAt {
        opts := opts.(accessToken := tokenData.accessToken);
      }
    }
  }

  // ---------------------------------------------------------------------
  // Lemmas about the song-update handler

  /** A run is the first message followed by the rest. */
  lemma ReplayCons(current: Song, d: Delivery, ds: seq<Delivery>)
    ensures Replay(current, [d] + ds)
         == (Replay(HandleSongUpdate(current, d.info, d.now).0, ds).0,
             (if HandleSongUpdate(current, d.info, d.now).1.Some?
              then [HandleSongUpdate(current, d.info, d.now).1.value] else [])
             + Replay(HandleSongUpdate(current, d.info, d.now).0, ds).1)
  {
    assert ([d] + ds)[0] == d && ([d] + ds)[1..] == ds;
  }

  /** The same message twice pushes at most once: after the first it
      carries the stored title. */
  lemma RepeatedUpdatePushesOnce(current: Song, info: SongUpdate, now1: int, now2: int)
    ensures |Replay(current, [Delivery(info, now1), Delivery(info, now2)]).1| <= 1
    ensures HandleSongUpdate(HandleSongUpdate(current, info, now1).0, info, now2).1.None?
  {
    var s1 := HandleSongUpdate(current, info, now1).0;
    assert !Replaces(s1, info);
    ReplayCons(current, Delivery(info, now1), [Delivery(info, now2)]);
    ReplayCons(s1, Delivery(info, now2), []);
  }

  /** Playing A, A, then B pushes A once and then B. */
  lemma SongChangeScenario(current: Song, a: SongUpdate, b: SongUpdate, n1: int, n2: int, n3: int)
    requires current.title != a.title && a.title != b.title
    requires Truthy(a.albumTitle) && Truthy(b.albumTitle)
    ensures Replay(current, [Delivery(a, n1), Delivery(a, n2), Delivery(b, n3)])
         == (SongFrom(b, n3), [ActivityOf(SongFrom(a, n1)), ActivityOf(SongFrom(b, n3))])
  {
    var sa, sb := SongFrom(a, n1), SongFrom(b, n3);
    assert [Delivery(b, n3)] + [] == [Delivery(b, n3)];
    assert [Delivery(a, n2)] + [Delivery(b, n3)] == [Delivery(a, n2), Delivery(b, n3)];
    assert [Delivery(a, n1)] + [Delivery(a, n2), Delivery(b, n3)]
        == [Delivery(a, n1), Delivery(a, n2), Delivery(b, n3)];
    assert HandleSongUpdate(sa, b, n3) == (sb, Some(ActivityOf(sb)));
    assert HandleSongUpdate(sa, a, n2) == (sa, None);
    assert Replay(sb, []) == (sb, []);
    ReplayCons(sa, Delivery(b, n3), []);
    ReplayCons(sa, Delivery(a, n2), [Delivery(b, n3)]);
    ReplayCons(current, Delivery(a, n1), [Delivery(a, n2), Delivery(b, n3)]);
    assert HandleSongUpdate(current, a, n1) == (sa, Some(ActivityOf(sa)));
    assert [ActivityOf(sa)] + ([] + ([ActivityOf(sb)] + [])) == [ActivityOf(sa), ActivityOf(sb)];
  }

  /** Each message pushes at most one payload. */
  lemma {:induction false} ReplayPushesAtMostOncePerMessage(current: Song, ds: seq<Delivery>)
    ensures |Replay(current, ds).1| <= |ds|
    decreases |ds|
  {
    if ds != [] {
      ReplayPushesAtMostOncePerMessage(HandleSongUpdate(current, ds[0].info, ds[0].now).0, ds[1..]);
    }
  }

  /** No payload the handler pushes carries a start timestamp: the handler's
      records never have the `currentTime` field the payload reads. */
  lemma {:induction false} ReplayPushesNoStartTimestamp(current: Song, ds: seq<Delivery>)
    ensures forall k :: 0 <= k < |Replay(current, ds).1| ==> Replay(current, ds).1[k].startTimestamp.None?
    decreases |ds|
  {
    if ds != [] {
      ReplayPushesNoStartTimestamp(HandleSongUpdate(current, ds[0].info, ds[0].now).0, ds[1..]);
    }
  }

  /** `currentSong` keeps its record, and with it the initial `currentTime`,
      exactly as long as nothing has been pushed; after a push it is the
      record built for the last payload. */
  lemma {:induction false} ReplayFinalSong(current: Song, ds: seq<Delivery>)
    ensures |Replay(current, ds).1| == 0 ==> Replay(current, ds).0 == current
    ensures |Replay(current, ds).1| > 0 ==> Replay(current, ds).0.currentTime.None?
    ensures |Replay(current, ds).1| > 0 ==>
      ActivityOf(Replay(current, ds).0) == Replay(current, ds).1[|Replay(current, ds).1| - 1]
    decreases |ds|
  {
    if ds != [] {
      ReplayFinalSong(HandleSongUpdate(current, ds[0].info, ds[0].now).0, ds[1..]);
    }
  }

  /** Each payload's title differs from the one shown before it: from
      `first` for the first payload, from the previous payload's after that. */
  predicate TitleChangesEachTime(first: string, out: seq<Activity>) {
    (|out| > 0 ==> out[0].details != first) &&
    forall k :: 0 < k < |out| ==> out[k].details != out[k - 1].details
  }

  /** A payload is pushed only on a title change: no payload repeats the
      title of the song shown before it. */
  lemma {:induction false} ReplayTitleChangesEachTime(current: Song, ds: seq<Delivery>)
    decreases |ds|
    ensures TitleChangesEachTime(current.title, Replay(current, ds).1)
  {
    if ds != [] {
      var (next, sent) := HandleSongUpdate(current, ds[0].info, ds[0].now);
      var rest := Replay(next, ds[1..]).1;
      ReplayTitleChangesEachTime(next, ds[1..]);
      var out := Replay(current, ds).1;
      assert out == (if sent.Some? then [sent.value] else []) + rest;
      if sent.Some? {
        assert out[0] == sent.value;
        forall k | 0 < k < |out| ensures out[k].details != out[k - 1].details {
          assert out[k] == rest[k - 1];
          if k > 1 { assert out[k - 1] == rest[k - 2]; }
        }
      }
    }
  }

  /** The handler reads neither `duration` nor `isPlaying` nor `isStopped`. */
  lemma HandlerIgnoresPlaybackFlags(current: Song, info: SongUpdate, now: int, duration: real, playing: Option<bool>, stopped: Option<bool>)
    ensures HandleSongUpdate(current, info.(duration := duration, isPlaying := playing, isStopped := stopped), now)
         == HandleSongUpdate(current, info, now)
  {
  }

  // ---------------------------------------------------------------------
  // Lemmas about the token

  /** Without `expiresIn` (or with 0) a saved token lasts one day. */
  lemma SaveDefaultsToOneDay(data: TokenData, token: Token, now: int)
    requires Truthy(token.accessToken)
    requires token.expiresIn.None? || token.expiresIn == Some(0)
    ensures TokenAfterSave(data, Some(token), now).expiresAt == now + 86400000
  {
  }

  /** A saved token with a non-zero `expiresIn` lasts that many seconds. */
  lemma SaveUsesGivenLifetime(data: TokenData, token: Token, now: int)
    requires Truthy(token.accessToken)
    requires token.expiresIn.Some? && token.expiresIn.value != 0
    ensures TokenAfterSave(data, Some(token), now).expiresAt == now + token.expiresIn.value * 1000
  {
  }

  /** A saved token is used at login exactly until its lifetime has passed. */
  lemma SavedTokenUsedUntilExpiry(data: TokenData, token: Token, now: int, t: int)
    requires Truthy(token.accessToken)
    ensures CachedTokenValid(TokenAfterSave(data, Some(token), now), t) <==> t < now + Lifetime(token) * 1000
  {
  }

  /** A rejected token changes nothing about the next login. */
  lemma RejectedTokenKeepsLogin(data: TokenData, token: Option<Token>, now: int, t: int)
    requires !Saves(token)
    ensures CachedTokenValid(TokenAfterSave(data, token, now), t) == CachedTokenValid(data, t)
  {
  }
}
