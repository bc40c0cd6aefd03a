/**
 * The chat bot (bot/index.js): loading the saved token, the `ready` handler,
 * the refresh that only logs its failures, the routing of incoming messages,
 * the `!search` flow with its result buttons, the now-playing reply, the
 * queue listing `getQueue` and the `last5.txt` builder `updateLast5`.
 *
 * Chat-platform objects (messages, embeds, buttons, collectors) appear only
 * as the texts and identifiers the bot computes for them.
 */
module Bot {
  import opened Wrappers
  import opened JsText
  import opened Spotify
  import opened Clock
  import opened Credentials

  // ---------------------------------------------------------------------------
  // Credentials
  // ---------------------------------------------------------------------------

  /** `ready`: without a (non-empty) refresh token start the authorization flow, else refresh. */
  function Ready(c: State, r: Refresh): State {
    if !Truthy(c.refreshToken) then BeginAuthorization(c) else AfterRefresh(c, r)
  }

  /**
   * On `ready` exactly one of the two happens; a failed refresh is only
   * logged and changes nothing, in particular it does not start authorization.
   */
  lemma ReadyBranches(c: State, r: Refresh)
    ensures !Truthy(c.refreshToken) && !c.listening ==>
      Ready(c, r) == c.(listening := true, authorizationStarts := c.authorizationStarts + 1)
    ensures Truthy(c.refreshToken) && r.Refreshed? ==> Ready(c, r) == c.(apiAccessToken := Some(r.accessToken))
    ensures Truthy(c.refreshToken) && r.RefreshFailed? ==> Ready(c, r) == c
  {
  }

  /**
   * An existing but empty refresh_token.txt is loaded into the client and
   * still sends `ready` into the authorization flow.
   */
  lemma EmptyTokenFileAuthorizes(r: Refresh)
    ensures var c := LoadStored(Initial(Some("")));
      c.apiRefreshToken == Some("") && Ready(c, r).listening && Ready(c, r).authorizationStarts == 1
      && !Ready(c, r).exited
  {
  }

  /** Module start: refresh_token.txt is read when it exists (nothing is refreshed yet). */
  method LoadToken(stored: Option<string>) returns (s: Session)
    ensures fresh(s)
    ensures s.View() == LoadStored(Initial(stored))
  {
    s := new Session(stored);
    s.LoadStoredToken();
  }

  /** `refreshAccessToken` of the bot, also run every 55 minutes: a failure is only logged. */
  method RefreshAccessToken(s: Session, r: Refresh)
    modifies s
    ensures s.View() == AfterRefresh(old(s.View()), r)
  {
    var _ := s.ApplyRefresh(r);
  }

  method OnReady(s: Session, r: Refresh)
    modifies s
    ensures s.View() == Ready(old(s.View()), r)
  {
    if !Truthy(s.refreshToken) {
      s.GetRefreshTokenFromWeb();
    } else {
      RefreshAccessToken(s, r);
    }
  }

  // ---------------------------------------------------------------------------
  // Message routing
  // ---------------------------------------------------------------------------

  /** None of the exact commands starts with "!search", so the prefix test cannot shadow them. */
  lemma ExactCommandsAreNotSearches()
    ensures forall w :: w in ["!skip", "!fixbot", "!last5", "!nowplaying", "!np", "!toptracks"] ==> !StartsWith(w, "!search")
  {
    assert "!fixbot"[1] != "!search"[1];
    assert "!nowplaying"[1] != "!search"[1];
    assert "!toptracks"[1] != "!search"[1];
  }

  datatype Command = RejectDirectMessage | Search | Skip | FixBot | Last5 | NowPlaying | TopTracks | NoCommand

  /**
   * Which branch of the `messageCreate` handler a message takes: direct
   * messages are turned away before anything else; then the `!search` prefix
   * is tried, then the exact commands in order. Anything else gets no reply.
   */
  function Dispatch(isDirect: bool, content: string): (c: Command)
    ensures c == RejectDirectMessage <==> isDirect
    ensures c == Search <==> !isDirect && StartsWith(content, "!search")
    ensures c == Skip <==> !isDirect && content == "!skip"
    ensures c == FixBot <==> !isDirect && content == "!fixbot"
    ensures c == Last5 <==> !isDirect && content == "!last5"
    ensures c == NowPlaying <==> !isDirect && (content == "!nowplaying" || content == "!np")
    ensures c == TopTracks <==> !isDirect && content == "!toptracks"
    ensures c == NoCommand <==>
      && !isDirect && !StartsWith(content, "!search")
      && content !in ["!skip", "!fixbot", "!last5", "!nowplaying", "!np", "!toptracks"]
  {
    ExactCommandsAreNotSearches();
    if isDirect then RejectDirectMessage
    else if StartsWith(content, "!search") then Search
    else if content == "!skip" then Skip
    else if content == "!fixbot" then FixBot
    else if content == "!last5" then Last5
    else if content == "!nowplaying" || content == "!np" then NowPlaying
    else if content == "!toptracks" then TopTracks
    else NoCommand
  }

  // ---------------------------------------------------------------------------
  // !search
  // ---------------------------------------------------------------------------

  const ProvideSongName: string := "Please provide a song name to search."
  const SearchFailed: string := "An error occurred while searching for the song."
  const NoSongsFound: string := "No songs found."

  /** `message.content.slice(8).trim()`: what follows "!search " with surrounding whitespace dropped. */
  function SearchQuery(content: string): string {
    Trim(SliceFrom(content, 8))
  }

  /** The button id of the result at `index`: `track_${index}`. */
  function CustomId(index: nat): string {
    "track_" + NatToString(index)
  }

  /** `parseInt(customId.split('_')[1])`; None stands for NaN (also when there is no second piece). */
  function ParseCustomId(id: string): Option<int> {
    var parts := SplitOn(id, '_');
    if |parts| < 2 then None else ParseInt(parts[1])
  }

  /** `items[index]`, None when that is `undefined`. */
  function SelectTrack(items: seq<Track>, index: Option<int>): (t: Option<Track>)
    ensures t.Some? <==> index.Some? && 0 <= index.value < |items|
    ensures t.Some? ==> t.value == items[index.value]
  {
    if index.Some? && 0 <= index.value < |items| then Some(items[index.value]) else None
  }

  predicate AllHaveFirstArtist(ts: seq<Track>) {
    forall k :: 0 <= k < |ts| ==> HasFirstArtist(ts[k])
  }

  datatype Button = Button(customId: string, caption: string)

  datatype SearchReply = SearchText(text: string) | Choose(buttons: seq<Button>)

  /**
   * The reply to a `!search` message, `results` being the outcome of the
   * search call (made only when the query is not empty). A label reads the
   * track's first artist, so a result without artists makes the handler fail.
   */
  function HandleSearch(content: string, results: Fetch<seq<Track>>): (r: SearchReply)
    ensures SearchQuery(content) == [] ==> r == SearchText(ProvideSongName)
    ensures SearchQuery(content) != [] && results.Threw? ==> r == SearchText(SearchFailed)
    ensures SearchQuery(content) != [] && results == Fetched([]) ==> r == SearchText(NoSongsFound)
    ensures SearchQuery(content) != [] && results.Fetched? && results.value != [] ==>
      r == if AllHaveFirstArtist(results.value) then Choose(SearchButtons(results.value)) else SearchText(SearchFailed)
    ensures r.Choose? ==>
      && SearchQuery(content) != [] && results.Fetched?
      && |r.buttons| == |results.value| > 0
      && forall k :: 0 <= k < |r.buttons| ==> r.buttons[k].customId == CustomId(k)
  {
    if SearchQuery(content) == [] then SearchText(ProvideSongName)
    else match results
      case Threw => SearchText(SearchFailed)
      case Fetched(items) =>
        if |items| == 0 then SearchText(NoSongsFound)
        else if !AllHaveFirstArtist(items) then SearchText(SearchFailed)
        else Choose(SearchButtons(items))
  }

  /** One button per result, in result order: id `track_k`, caption "name - first artist". */
  function SearchButtons(items: seq<Track>): (buttons: seq<Button>)
    requires AllHaveFirstArtist(items)
    ensures |buttons| == |items|
    ensures forall k :: 0 <= k < |items| ==> buttons[k].customId == CustomId(k)
    ensures forall k :: 0 <= k < |items| ==> buttons[k].caption == items[k].name + " - " + items[k].artists[0].name
  {
    seq(|items|, k requires 0 <= k < |items| => Button(CustomId(k), items[k].name + " - " + FirstArtistName(items[k])))
  }

  /** The query of "!search " followed by some text is that text, trimmed. */
  lemma SearchQueryOfText(q: string)
    ensures SearchQuery("!search " + q) == Trim(q)
  {
    assert ("!search " + q)[8..] == q;
  }

  /** The bot asks for a song name exactly when everything after index 8 is whitespace. */
  lemma SearchPromptIffBlank(content: string, results: Fetch<seq<Track>>)
    ensures HandleSearch(content, results) == SearchText(ProvideSongName) <==> AllWhitespace(SliceFrom(content, 8))
  {
    PromptIffEmptyQuery(content, results);
    TrimEmptyIffWhitespace(SliceFrom(content, 8));
  }

  lemma PromptIffEmptyQuery(content: string, results: Fetch<seq<Track>>)
    ensures HandleSearch(content, results) == SearchText(ProvideSongName) <==> SearchQuery(content) == []
  {
    var r := HandleSearch(content, results);
    if SearchQuery(content) != [] {
      assert r == SearchText(SearchFailed) || r == SearchText(NoSongsFound) || r.Choose?;
      assert |ProvideSongName| != |SearchFailed|;
      assert |ProvideSongName| != |NoSongsFound|;
    }
  }

  /** Parsing the id of the button for result `index` gives back `index`. */
  lemma CustomIdRoundTrip(index: nat)
    ensures ParseCustomId(CustomId(index)) == Some(index)
  {
    var digits := NatToString(index);
    NatToStringRoundTrip(index);
    assert '_' !in digits by {
      forall k | 0 <= k < |digits| ensures digits[k] != '_' {
        assert IsDigit(digits[k]);
      }
    }
    assert CustomId(index) == "track" + ['_'] + digits;
    SplitAfterPrefix("track", '_', digits);
    SplitWithoutSeparator(digits, '_');
    ParseIntOfNatToString(index);
  }

  /** Pressing the k-th button selects the k-th search result. */
  lemma ButtonSelectsItsResult(content: string, items: seq<Track>, k: nat)
    requires HandleSearch(content, Fetched(items)).Choose?
    requires k < |HandleSearch(content, Fetched(items)).buttons|
    ensures SelectTrack(items, ParseCustomId(HandleSearch(content, Fetched(items)).buttons[k].customId)) == Some(items[k])
  {
    CustomIdRoundTrip(k);
  }

  const QueueAddFailed: string := "Failed to add song to queue."

  /**
   * A button press: whether the track was added to the playback queue, and
   * the text the interaction is updated with (None: the handler threw before
   * replying, because the id selected no result).
   */
  datatype ButtonOutcome = ButtonOutcome(queued: bool, update: Option<string>)

  /**
   * `added` is the outcome of the add-to-queue call. Building the
   * confirmation reads the first artist and the first album image; if
   * either is missing the handler reports failure although the track was queued.
   */
  function PressButton(items: seq<Track>, customId: string, added: bool): (o: ButtonOutcome)
    ensures o.update.None? <==> SelectTrack(items, ParseCustomId(customId)).None?
    ensures o.queued <==> o.update.Some? && added
    ensures var t := SelectTrack(items, ParseCustomId(customId));
      t.Some? && added && HasFirstArtist(t.value) && |t.value.images| > 0 ==>
        o.update == Some(AddedText(t.value.name))
    ensures var t := SelectTrack(items, ParseCustomId(customId));
      t.Some? && !(added && HasFirstArtist(t.value) && |t.value.images| > 0) ==>
        o.update == Some(QueueAddFailed)
  {
    var t := SelectTrack(items, ParseCustomId(customId));
    if t.None? then ButtonOutcome(false, None)
    else if !added then ButtonOutcome(false, Some(QueueAddFailed))
    else if !HasFirstArtist(t.value) || |t.value.images| == 0 then ButtonOutcome(true, Some(QueueAddFailed))
    else ButtonOutcome(true, Some(AddedText(t.value.name)))
  }

  /** The confirmation after queueing: `Added "<name>" to your Spotify queue.` */
  function AddedText(name: string): string {
    "Added \"" + name + "\" to your Spotify queue."
  }

  // ---------------------------------------------------------------------------
  // !nowplaying / !np
  // ---------------------------------------------------------------------------

  const NothingPlaying: string := "Nothing is currently playing on Spotify."
  const PlaybackFailed: string := "Failed to retrieve current playback state."

  datatype NowPlayingReply =
    | NowPlayingText(text: string)
    | NowPlayingEmbed(description: string, thumbnail: string, duration: string)

  /**
   * The reply to `!nowplaying`: an embed with "name - first artist", the
   * first album image and "progress / duration" in `formatDuration`'s format,
   * when the state has a body that is playing an item.
   */
  function NowPlayingOf(state: Fetch<Option<Playback>>): (r: NowPlayingReply)
    ensures r.NowPlayingEmbed? ==>
      state.Fetched? && state.value.Some? && state.value.value.isPlaying && state.value.value.item.Some?
    ensures state.Fetched? && (state.value.None? || !state.value.value.isPlaying || state.value.value.item.None?)
      ==> r == NowPlayingText(NothingPlaying)
    ensures state.Threw? ==> r == NowPlayingText(PlaybackFailed)
    ensures state.Fetched? && state.value.Some? && state.value.value.isPlaying && state.value.value.item.Some? ==>
      var body := state.value.value;
      var t := body.item.value;
      r == if t.artists == [] || t.images == [] then NowPlayingText(PlaybackFailed)
           else NowPlayingEmbed(t.name + " - " + t.artists[0].name, t.images[0].url,
                                FormatDuration(body.progressMs) + " / " + FormatDuration(t.durationMs))
  {
    match state
    case Threw => NowPlayingText(PlaybackFailed)
    case Fetched(body) =>
      if body.Some? && body.value.isPlaying && body.value.item.Some? then
        var t := body.value.item.value;
        if !HasFirstArtist(t) || |t.images| == 0 then NowPlayingText(PlaybackFailed)
        else NowPlayingEmbed(t.name + " - " + FirstArtistName(t), t.images[0].url,
                             FormatDuration(body.value.progressMs) + " / " + FormatDuration(t.durationMs))
      else NowPlayingText(NothingPlaying)
  }

  // ---------------------------------------------------------------------------
  // getQueue
  // ---------------------------------------------------------------------------

  const QueueEmpty: string := "The queue is empty."
  const QueueFailed: string := "Failed to get the queue."
  const QueueHeader: string := "Next 10 Songs in Queue:"
  const QueueLimit: nat := 10

  /** "<number>. <name> - <first artist>". */
  function QueueEntry(number: nat, t: Track): string
    requires HasFirstArtist(t)
  {
    NatToString(number) + ". " + t.name + " - " + FirstArtistName(t)
  }

  /** The numbered entries of `ts`, from 1. */
  function QueueEntries(ts: seq<Track>): (entries: seq<string>)
    requires AllHaveFirstArtist(ts)
    ensures |entries| == |ts|
  {
    seq(|ts|, k requires 0 <= k < |ts| => QueueEntry(k + 1, ts[k]))
  }

  /** The part of the queue the listing reads: at most its first ten tracks. */
  function Shown(ts: seq<Track>): (shown: seq<Track>)
    ensures |shown| == if |ts| < QueueLimit then |ts| else QueueLimit
    ensures shown == ts[..|shown|]
  {
    if |ts| < QueueLimit then ts else ts[..QueueLimit]
  }

  /** The reply `getQueue` sends for the outcome of the queue call. */
  function QueueReply(queue: Fetch<seq<Track>>): string {
    match queue
    case Threw => QueueFailed
    case Fetched(ts) =>
      if ts == [] then QueueEmpty
      else if !AllHaveFirstArtist(Shown(ts)) then QueueFailed
      else Unlines([QueueHeader] + QueueEntries(Shown(ts)))
  }

  /** `getQueue`: the listing is built line by line, as the source's loop does. */
  method GetQueue(queue: Fetch<seq<Track>>) returns (reply: string)
    ensures reply == QueueReply(queue)
  {
    if queue.Threw? {
      return QueueFailed;
    }
    var ts := queue.value;
    if |ts| == 0 {
      return QueueEmpty;
    }
    var n := if |ts| < QueueLimit then |ts| else QueueLimit;
    var queueList := QueueHeader + "\n";
    var i := 0;
    while i < n
      invariant 0 <= i <= n
      invariant AllHaveFirstArtist(ts[..i])
      invariant queueList == Unlines([QueueHeader] + QueueEntries(ts[..i]))
    {
      var track := ts[i];
      if !HasFirstArtist(track) {
        assert Shown(ts)[i] == track;
        return QueueFailed;
      }
      QueueStep(ts, i, queueList);
      queueList := queueList + QueueEntry(i + 1, track) + "\n";
      i := i + 1;
    }
    assert ts[..n] == Shown(ts);
    reply := queueList;
  }

  /** Appending the next numbered entry extends the listing by that entry's line. */
  lemma QueueStep(ts: seq<Track>, i: nat, listing: string)
    requires i < |ts| && AllHaveFirstArtist(ts[..i]) && HasFirstArtist(ts[i])
    requires listing == Unlines([QueueHeader] + QueueEntries(ts[..i]))
    ensures AllHaveFirstArtist(ts[..i + 1])
    ensures listing + QueueEntry(i + 1, ts[i]) + "\n" == Unlines([QueueHeader] + QueueEntries(ts[..i + 1]))
  {
    var before := [QueueHeader] + QueueEntries(ts[..i]);
    assert ts[..i + 1] == ts[..i] + [ts[i]];
    assert [QueueHeader] + QueueEntries(ts[..i + 1]) == before + [QueueEntry(i + 1, ts[i])];
    UnlinesAppend(before, [QueueEntry(i + 1, ts[i])]);
  }

  /** No name or first-artist name of `ts` contains a line break. */
  predicate SingleLineNames(ts: seq<Track>)
    requires AllHaveFirstArtist(ts)
  {
    forall k :: 0 <= k < |ts| ==> '\n' !in ts[k].name && '\n' !in FirstArtistName(ts[k])
  }

  lemma EntrySingleLine(number: nat, t: Track)
    requires HasFirstArtist(t) && '\n' !in t.name && '\n' !in FirstArtistName(t)
    ensures '\n' !in QueueEntry(number, t)
  {
    NatToStringRoundTrip(number);
    DigitsAvoid(NatToString(number), '\n');
  }

  /**
   * The listing of a non-empty queue is the header, then one line per shown
   * track — at most ten, numbered from 1 in queue order — each "n. name -
   * first artist".
   */
  lemma QueueListingLines(ts: seq<Track>)
    requires ts != [] && AllHaveFirstArtist(Shown(ts)) && SingleLineNames(Shown(ts))
    ensures SplitOn(QueueReply(Fetched(ts)), '\n') == [QueueHeader] + QueueEntries(Shown(ts)) + [[]]
    ensures |QueueEntries(Shown(ts))| == if |ts| < 10 then |ts| else 10
    ensures forall k :: 0 <= k < |Shown(ts)| ==>
      QueueEntries(Shown(ts))[k] == NatToString(k + 1) + ". " + ts[k].name + " - " + ts[k].artists[0].name
  {
    var entries := QueueEntries(Shown(ts));
    var lines := [QueueHeader] + entries;
    forall k | 0 <= k < |lines| ensures '\n' !in lines[k] {
      if k > 0 {
        EntrySingleLine(k, Shown(ts)[k - 1]);
      }
    }
    SplitUnlines(lines);
  }

  /** Tracks after the tenth never affect the reply. */
  lemma QueueTruncation(ts: seq<Track>)
    requires |ts| > QueueLimit
    ensures QueueReply(Fetched(ts)) == QueueReply(Fetched(ts[..QueueLimit]))
  {
    assert Shown(ts[..QueueLimit]) == Shown(ts);
  }

  // ---------------------------------------------------------------------------
  // updateLast5
  // ---------------------------------------------------------------------------

  const Last5Header: string := "Last 5 Played Tracks:"

  predicate AllTracksHaveFirstArtist(items: seq<PlayHistory>) {
    forall k :: 0 <= k < |items| ==> HasFirstArtist(items[k].track)
  }

  /** The three lines one history item contributes: "name - artist", "Played at: …", and a blank one. */
  function ItemLines(item: PlayHistory): seq<string>
    requires HasFirstArtist(item.track)
  {
    [item.track.name + " - " + FirstArtistName(item.track), "Played at: " + item.playedAt, []]
  }

  function HistoryLines(items: seq<PlayHistory>): seq<string>
    requires AllTracksHaveFirstArtist(items)
  {
    if items == [] then [] else ItemLines(items[0]) + HistoryLines(items[1..])
  }

  /**
   * What `updateLast5` writes to last5.txt, or None when it writes nothing:
   * the call threw, the history is empty (the handler then refers to an
   * undeclared `message`, which throws), a track has no artist, or the write failed.
   */
  function Last5File(history: Fetch<seq<PlayHistory>>, saved: bool): Option<string> {
    match history
    case Threw => None
    case Fetched(items) =>
      if items == [] then None
      else if !AllTracksHaveFirstArtist(items) then None
      else if !saved then None
      else Some(Unlines([Last5Header] + HistoryLines(items)))
  }

  lemma {:induction false} HistoryLinesAppend(items: seq<PlayHistory>, item: PlayHistory)
    requires AllTracksHaveFirstArtist(items) && HasFirstArtist(item.track)
    ensures AllTracksHaveFirstArtist(items + [item])
    ensures HistoryLines(items + [item]) == HistoryLines(items) + ItemLines(item)
  {
    if items != [] {
      assert (items + [item])[1..] == items[1..] + [item];
      HistoryLinesAppend(items[1..], item);
    } else {
      assert [item][1..] == [];
    }
  }

  lemma UnlinesOfThree(ls: seq<string>)
    requires |ls| == 3
    ensures Unlines(ls) == ls[0] + "\n" + ls[1] + "\n" + ls[2] + "\n"
  {
    assert ls[1..][1..] == [ls[2]];
    assert Unlines([ls[2]]) == ls[2] + "\n";
  }

  /** The text one history item adds: its three lines, newline-terminated. */
  lemma ItemText(item: PlayHistory)
    requires HasFirstArtist(item.track)
    ensures Unlines(ItemLines(item))
         == item.track.name + " - " + FirstArtistName(item.track) + "\n" + "Played at: " + item.playedAt + "\n\n"
  {
    UnlinesOfThree(ItemLines(item));
    assert [] + "\n" == "\n";
  }

  /** Appending one item's two concatenations extends the file by that item's three lines. */
  lemma Last5Step(items: seq<PlayHistory>, i: nat, content: string)
    requires i < |items| && AllTracksHaveFirstArtist(items[..i]) && HasFirstArtist(items[i].track)
    requires content == Unlines([Last5Header] + HistoryLines(items[..i]))
    ensures AllTracksHaveFirstArtist(items[..i + 1])
    ensures content + items[i].track.name + " - " + FirstArtistName(items[i].track) + "\n"
              + "Played at: " + items[i].playedAt + "\n\n"
            == Unlines([Last5Header] + HistoryLines(items[..i + 1]))
  {
    var item := items[i];
    var before := [Last5Header] + HistoryLines(items[..i]);
    assert items[..i + 1] == items[..i] + [item];
    HistoryLinesAppend(items[..i], item);
    assert before + ItemLines(item) == [Last5Header] + HistoryLines(items[..i + 1]);
    UnlinesAppend(before, ItemLines(item));
    ItemText(item);
    var a := item.track.name + " - " + FirstArtistName(item.track) + "\n";
    var b := "Played at: " + item.playedAt + "\n\n";
    assert content + a + b == content + (a + b);
  }

  /** `updateLast5`: the content is accumulated item by item, as the source's `forEach` does. */
  method UpdateLast5(history: Fetch<seq<PlayHistory>>, saved: bool) returns (written: Option<string>)
    ensures written == Last5File(history, saved)
  {
    if history.Threw? || history.value == [] {
      return None;
    }
    var items := history.value;
    var fileContent := Last5Header + "\n";
    var i := 0;
    while i < |items|
      invariant 0 <= i <= |items|
      invariant AllTracksHaveFirstArtist(items[..i])
      invariant fileContent == Unlines([Last5Header] + HistoryLines(items[..i]))
    {
      var item := items[i];
      if !HasFirstArtist(item.track) {
        assert !AllTracksHaveFirstArtist(items) by { assert items[i] == item; }
        return None;
      }
      Last5Step(items, i, fileContent);
      fileContent := fileContent + item.track.name + " - " + FirstArtistName(item.track) + "\n";
      fileContent := fileContent + "Played at: " + item.playedAt + "\n\n";
      i := i + 1;
    }
    assert items[..i] == items;
    if !saved {
      return None;
    }
    written := Some(fileContent);
  }

  /** No history: nothing is written, whatever the file system would have done. */
  lemma Last5EmptyHistory(saved: bool)
    ensures Last5File(Fetched([]), saved) == None
  {
  }

  /** Item `k` of the history gives lines 3k, 3k+1 and 3k+2, in history order. */
  lemma {:induction false} HistoryLinesAt(items: seq<PlayHistory>, k: nat)
    requires AllTracksHaveFirstArtist(items) && k < |items|
    ensures |HistoryLines(items)| == 3 * |items|
    ensures HistoryLines(items)[3 * k .. 3 * k + 3] == ItemLines(items[k])
  {
    if k == 0 {
      if |items| > 1 {
        HistoryLinesAt(items[1..], 0);
      } else {
        assert items[1..] == [];
      }
    } else {
      HistoryLinesAt(items[1..], k - 1);
      assert HistoryLines(items) == ItemLines(items[0]) + HistoryLines(items[1..]);
    }
  }

  /** Every line of the history part is free of line breaks when the texts it quotes are. */
  lemma {:induction false} HistoryLinesSingleLine(items: seq<PlayHistory>)
    requires AllTracksHaveFirstArtist(items)
    requires forall j :: 0 <= j < |items| ==>
      '\n' !in items[j].track.name && '\n' !in FirstArtistName(items[j].track) && '\n' !in items[j].playedAt
    ensures forall j :: 0 <= j < |HistoryLines(items)| ==> '\n' !in HistoryLines(items)[j]
  {
    if items != [] {
      HistoryLinesSingleLine(items[1..]);
      var first := ItemLines(items[0]);
      assert '\n' !in first[0] && '\n' !in first[1] && '\n' !in first[2];
    }
  }

  /**
   * A written last5.txt is the header line, then for each history item in
   * order its "name - artist" line, its "Played at:" line and a blank line.
   */
  lemma Last5Layout(items: seq<PlayHistory>, k: nat)
    requires AllTracksHaveFirstArtist(items) && k < |items|
    requires forall j :: 0 <= j < |items| ==>
      '\n' !in items[j].track.name && '\n' !in FirstArtistName(items[j].track) && '\n' !in items[j].playedAt
    ensures Last5File(Fetched(items), true).Some?
    ensures var lines := SplitOn(Last5File(Fetched(items), true).value, '\n');
      && |lines| == 3 * |items| + 2
      && lines[0] == Last5Header
      && lines[3 * k + 1] == items[k].track.name + " - " + items[k].track.artists[0].name
      && lines[3 * k + 2] == "Played at: " + items[k].playedAt
      && lines[3 * k + 3] == []
  {
    var body := HistoryLines(items);
    HistoryLinesAt(items, k);
    HistoryLinesSingleLine(items);
    var lines := [Last5Header] + body;
    assert Last5File(Fetched(items), true) == Some(Unlines(lines));
    assert forall j :: 0 <= j < |lines| ==> '\n' !in lines[j];
    SplitUnlines(lines);
    var split := lines + [[]];
    assert |split| == 3 * |items| + 2;
    var item := ItemLines(items[k]);
    assert body[3 * k] == item[0] && body[3 * k + 1] == item[1] && body[3 * k + 2] == item[2];
    assert split[3 * k + 1] == body[3 * k];
    assert split[3 * k + 2] == body[3 * k + 1];
    assert split[3 * k + 3] == body[3 * k + 2];
  }
}
