/**
 * The web app (app.js): startup, `refreshAccessToken` with its fall-back to
 * the authorization flow, and `getSpotifyData`, which refreshes and then
 * turns the current-playback and recently-played responses into the snapshot
 * sent to every dashboard client.
 */
module WebApp {
  import opened Wrappers
  import opened JsText
  import opened Spotify
  import opened Clock
  import opened Credentials

  datatype CurrentSong = CurrentSong(title: string, artist: string, progress: string, duration: string, artUrl: Option<string>)

  datatype TrackSummary = TrackSummary(title: string, artist: string)

  datatype Snapshot = Snapshot(currentSong: Option<CurrentSong>, queue: seq<TrackSummary>, recentlyPlayed: seq<TrackSummary>)

  /** `{ currentSong: null, queue: [], recentlyPlayed: [] }`. */
  const EmptySnapshot: Snapshot := Snapshot(None, [], [])

  /** The artist names joined with ", ", in the order the service lists them. */
  function ArtistLine(t: Track): string {
    Join(ArtistNames(t), ", ")
  }

  /** `album.images[0]?.url || null`: the first image's url, unless there is none or it is empty. */
  function ArtUrl(t: Track): (url: Option<string>)
    ensures url.Some? <==> |t.images| > 0 && t.images[0].url != []
    ensures url.Some? ==> url.value == t.images[0].url
  {
    if |t.images| > 0 && t.images[0].url != [] then Some(t.images[0].url) else None
  }

  function Summary(t: Track): TrackSummary {
    TrackSummary(t.name, ArtistLine(t))
  }

  function CurrentSongOf(progressMs: nat, t: Track): CurrentSong {
    CurrentSong(t.name, ArtistLine(t), FormatTime(progressMs), FormatTime(t.durationMs), ArtUrl(t))
  }

  /** The playback response has a body and the body has an item. */
  predicate HasItem(playing: Fetch<Option<Playback>>) {
    playing.Fetched? && playing.value.Some? && playing.value.value.item.Some?
  }

  /**
   * The snapshot `getSpotifyData` returns for the two responses (after its
   * refresh). `playing` is `Fetched(None)` when the response had no body.
   */
  function AssembleSnapshot(playing: Fetch<Option<Playback>>, history: Fetch<seq<PlayHistory>>): (s: Snapshot)
    ensures s.queue == []
    ensures s.currentSong.Some? <==> HasItem(playing) && history.Fetched?
    ensures s.currentSong.None? ==> s == EmptySnapshot
    ensures s.currentSong.Some? ==>
      && |s.recentlyPlayed| == |history.value|
      && forall k :: 0 <= k < |history.value| ==> s.recentlyPlayed[k] == Summary(history.value[k].track)
  {
    if !HasItem(playing) then EmptySnapshot
    else if history.Threw? then EmptySnapshot
    else
      var body := playing.value.value;
      var items := history.value;
      Snapshot(Some(CurrentSongOf(body.progressMs, body.item.value)), [],
               seq(|items|, k requires 0 <= k < |items| => Summary(items[k].track)))
  }

  /**
   * Without a body or an item, or when the playback call throws, the result is
   * the empty snapshot whatever the history call would have returned: the
   * history is not consulted.
   */
  lemma SnapshotWithoutItem(playing: Fetch<Option<Playback>>, h1: Fetch<seq<PlayHistory>>, h2: Fetch<seq<PlayHistory>>)
    requires !HasItem(playing)
    ensures AssembleSnapshot(playing, h1) == AssembleSnapshot(playing, h2) == EmptySnapshot
  {
  }

  /** A throwing history call also yields the empty snapshot. */
  lemma SnapshotHistoryThrew(playing: Fetch<Option<Playback>>)
    ensures AssembleSnapshot(playing, Threw) == EmptySnapshot
  {
  }

  /**
   * The current song of a full snapshot: the item's name, its artists joined
   * with ", ", progress and duration as "M:SS" of whole seconds, and the
   * first album image's url or null.
   */
  lemma SnapshotCurrentSong(body: Playback, items: seq<PlayHistory>)
    requires body.item.Some?
    ensures var song := AssembleSnapshot(Fetched(Some(body)), Fetched(items)).currentSong;
      var t := body.item.value;
      && song.Some?
      && song.value.title == t.name
      && song.value.artist == Join(ArtistNames(t), ", ")
      && ParseClock(song.value.progress) == Some((body.progressMs / MsPerMinute, (body.progressMs % MsPerMinute) / MsPerSecond))
      && ParseClock(song.value.duration) == Some((t.durationMs / MsPerMinute, (t.durationMs % MsPerMinute) / MsPerSecond))
      && song.value.artUrl == ArtUrl(t)
  {
    FormatTimeFields(body.progressMs);
    FormatTimeFields(body.item.value.durationMs);
  }

  /** Joining two non-empty lists puts one separator between the two joined halves. */
  lemma {:induction false} JoinAppend(a: seq<string>, b: seq<string>, sep: string)
    requires a != [] && b != []
    ensures Join(a + b, sep) == Join(a, sep) + sep + Join(b, sep)
  {
    if |a| == 1 {
      assert (a + b)[1..] == b;
    } else {
      assert (a + b)[1..] == a[1..] + b;
      JoinAppend(a[1..], b, sep);
    }
  }

  /**
   * The artist line keeps the service's order: a single artist is its name,
   * and more artists are the first name, ", ", then the line of the rest.
   */
  lemma ArtistLineOrder(t: Track)
    ensures |t.artists| == 1 ==> ArtistLine(t) == t.artists[0].name
    ensures |t.artists| > 1 ==>
      ArtistLine(t) == t.artists[0].name + ", " + ArtistLine(t.(artists := t.artists[1..]))
  {
    if |t.artists| > 1 {
      var names := ArtistNames(t);
      assert names == [names[0]] + names[1..];
      assert names[1..] == ArtistNames(t.(artists := t.artists[1..]));
    }
  }

  /** A track by "Song A" of "Artist X", 65 s into its 200 s. */
  lemma EndToEndExample()
    ensures var t := Track("Song A", [Artist("Artist X")], 200000, []);
      AssembleSnapshot(Fetched(Some(Playback(65000, true, Some(t)))), Fetched([])).currentSong
        == Some(CurrentSong("Song A", "Artist X", "1:05", "3:20", None))
  {
    FormatTimeExamples();
    var t := Track("Song A", [Artist("Artist X")], 200000, []);
    assert ArtistNames(t) == ["Artist X"];
  }

  // ---------------------------------------------------------------------------
  // Credential flow of the web app
  // ---------------------------------------------------------------------------

  /**
   * `refreshAccessToken`: a failure starts the authorization flow again, which
   * ends the process when the listener of an earlier flow is still open.
   */
  function AppRefresh(c: State, r: Refresh): State {
    if r.Refreshed? then AfterRefresh(c, r) else BeginAuthorization(c)
  }

  /** Module start: a saved token is loaded and refreshed; without one, authorization starts. */
  function AppStartup(stored: Option<string>, r: Refresh): State {
    if stored.Some? then AppRefresh(LoadStored(Initial(stored)), r)
    else BeginAuthorization(Initial(stored))
  }

  /** Startup takes exactly one of its two branches. */
  lemma StartupBranches(stored: Option<string>, r: Refresh)
    ensures stored.None? ==> AppStartup(stored, r) == Initial(None).(listening := true, authorizationStarts := 1)
    ensures stored.Some? && r.Refreshed? ==>
      AppStartup(stored, r) == Initial(stored).(refreshToken := stored, apiRefreshToken := stored, apiAccessToken := Some(r.accessToken))
    ensures stored.Some? && r.RefreshFailed? ==>
      AppStartup(stored, r) == Initial(stored).(refreshToken := stored, apiRefreshToken := stored, listening := true, authorizationStarts := 1)
  {
  }

  /**
   * A failed refresh leaves every token as it was and starts one more
   * authorization flow, which ends the process exactly when the listener of
   * an earlier flow is still open; a successful one changes only the access token.
   */
  lemma RefreshFailureReauthorizes(c: State, r: Refresh)
    ensures AppRefresh(c, r).exited <==> c.exited || (r.RefreshFailed? && c.listening)
    ensures r.RefreshFailed? && !c.listening ==>
      AppRefresh(c, r) == c.(listening := true, authorizationStarts := c.authorizationStarts + 1)
    ensures r.Refreshed? ==> AppRefresh(c, r) == c.(apiAccessToken := Some(r.accessToken))
  {
  }

  /**
   * The first run without refresh_token.txt: startup opens the listener, and
   * unless its callback closed it first, the next poll's refresh (the client
   * has no refresh token yet, so it fails) ends the process. Likewise a saved
   * token the service rejects: startup reauthorizes, and the next failing
   * poll ends the process.
   */
  lemma PollWhileAuthorizingEndsProcess(r: Refresh, token: string)
    ensures !AppStartup(None, r).exited && AppStartup(None, r).listening
    ensures AppRefresh(AppStartup(None, r), RefreshFailed).exited
    ensures !AppStartup(Some(token), RefreshFailed).exited
    ensures AppRefresh(AppStartup(Some(token), RefreshFailed), RefreshFailed).exited
  {
  }

  /** Once the callback has been handled the listener is closed, and a failed refresh only reauthorizes. */
  lemma CallbackBeforePollKeepsRunning(c: State, code: Option<string>, grant: Grant, saved: bool, r: Refresh)
    requires !c.exited
    ensures !AppRefresh(AfterCallback(c, CallbackPath, code, grant, saved), r).exited
  {
  }

  /** The module's top-level statements at startup. */
  method Startup(stored: Option<string>, r: Refresh) returns (s: Session)
    ensures fresh(s)
    ensures s.View() == AppStartup(stored, r)
  {
    s := new Session(stored);
    if stored.Some? {
      s.LoadStoredToken();
      RefreshAccessToken(s, r);
    } else {
      s.GetRefreshTokenFromWeb();
    }
  }

  method RefreshAccessToken(s: Session, r: Refresh)
    modifies s
    ensures s.View() == AppRefresh(old(s.View()), r)
  {
    var ok := s.ApplyRefresh(r);
    if !ok {
      s.GetRefreshTokenFromWeb();
    }
  }

  /**
   * `getSpotifyData`: refresh first, then fetch the current playback and,
   * only when it has an item, the history. Errors become the empty snapshot.
   * None: the refresh ended the process, whose uncaught bind error is raised
   * before the playback call can answer, so no snapshot is ever sent.
   */
  method GetSpotifyData(s: Session, r: Refresh, playing: Fetch<Option<Playback>>, history: Fetch<seq<PlayHistory>>)
    returns (snap: Option<Snapshot>)
    modifies s
    ensures s.View() == AppRefresh(old(s.View()), r)
    ensures snap.None? <==> s.exited
    ensures snap.Some? ==> snap.value == AssembleSnapshot(playing, history)
  {
    RefreshAccessToken(s, r);
    if s.exited {
      return None;
    }
    if playing.Threw? {
      return Some(EmptySnapshot);
    }
    if playing.value.None? || playing.value.value.item.None? {
      return Some(EmptySnapshot);
    }
    var body := playing.value.value;
    if history.Threw? {
      return Some(EmptySnapshot);
    }
    var items := history.value;
    snap := Some(Snapshot(Some(CurrentSongOf(body.progressMs, body.item.value)), [],
                          seq(|items|, k requires 0 <= k < |items| => Summary(items[k].track))));
  }
}
