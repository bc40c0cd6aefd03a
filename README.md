# SpotifyCamBot in Dafny

A model of the logic of SpotifyCamBot, a Spotify dashboard (`app.js`) and a Discord bot (`bot/index.js`) that share one Spotify account. Both programs:

- obtain a refresh token through the OAuth2 authorization-code flow, using a one-shot HTTP listener on port 8888;
- keep that token in `refresh_token.txt` and refresh the access token from it.

The dashboard polls the current playback and the recently played tracks, and turns them into a snapshot for its clients. The bot answers chat commands (`!search`, `!nowplaying`, ...). It can also build a queue listing, and it writes `last5.txt`.

The music service, the chat platform, the web server and the file system are not modelled. Each call to them is an input that either delivers a value or throws (`Spotify.Fetch`, `Credentials.Grant`, `Credentials.Refresh`, and the `saved` flags for file writes).

Files:

- `wrappers.dfy`: `Option`, which stands for `null`/`undefined` versus a value.
- `js_text.dfy` (module `JsText`): the JavaScript string built-ins the code relies on, with their edge cases:
  - `trim`, with ECMAScript's whitespace set;
  - `slice` past the end;
  - `split` on one character, and `join`;
  - `padStart(2, '0')`;
  - integer-to-text conversion;
  - `parseInt`, which skips leading whitespace, accepts a sign and a `0x` prefix, and yields `NaN` when there are no digits.
- `clock.dfy` (module `Clock`): `formatTime` of the dashboard and `formatDuration` of the bot, together with a parser for "M:SS" that is their inverse.
- `spotify.dfy` (module `Spotify`): the shapes of the service's responses that the code reads.
- `credentials.dfy` (module `Credentials`): the state both programs keep at module level. That state is the `refreshToken` variable, the client's refresh and access tokens, the contents of `refresh_token.txt`, and whether an authorization listener is open.
  - The datatype `State` holds that state, and pure functions give its transitions.
  - The class `Session` keeps the same state in mutable fields. Each of its methods is proved to perform one transition.
  - The callback handler is the same in both programs (`app.js:54-83`, `bot/index.js:66-95`) and is modelled once.
- `web_app.dfy` (module `WebApp`) covers `app.js`:
  - startup;
  - `refreshAccessToken`, which re-enters the authorization flow when it fails;
  - the end of the process when that flow starts while an earlier listener still holds port 8888;
  - `getSpotifyData`, which refreshes, then fetches, and turns every failure into the empty snapshot.
- `bot.dfy` (module `Bot`) covers `bot/index.js`:
  - token loading, the `ready` handler, and a refresh that only logs its failures;
  - message dispatch;
  - the `!search` query, its button ids and their parsing;
  - the reply to a button press and the `!nowplaying` reply;
  - `getQueue`, built with a loop as in the source;
  - `updateLast5`, also a loop, including the path where the history is empty. On that path the handler refers to an undeclared `message`, the error is caught, and nothing is written.

Behaviour worth knowing:

- `formatDuration` rounds half up without carrying, so 59 500 ms prints as "0:60".
- If writing `refresh_token.txt` fails during the callback, the module-level `refreshToken` has already changed. The client keeps the old token, the response is 500, and the model takes the file to keep its old contents.
- An empty `refresh_token.txt` is loaded as the empty token. The bot's `ready` handler then still starts the authorization flow.
- Pressing a search button queues the track. If that track has no artist or no album image, the reply still says that adding failed.
- `getQueue` is defined but no command calls it.
- The dashboard ends itself on its ordinary first run. Without `refresh_token.txt`, startup opens the listener on port 8888. The first 5-second poll then fails to refresh, because the client has no refresh token yet, and starts a second listener. That server has no `'error'` handler, so the failed bind is an uncaught exception and the process exits before the poll sends anything. A saved token that the service rejects ends the same way on the next poll. The bot does not have this problem, because it starts the flow at most once.

Where the code and a cleaner design would differ, the model follows the code:

- refreshes are not single-flight, polls may overlap, and there is no expiry margin;
- a new refresh token returned by a refresh is not persisted;
- the token file is not written atomically;
- a failed refresh leads to re-authorization in the dashboard, but only to a log line in the bot.

## Model

| member | source | states |
|---|---|---|
| JsText.TrimStart | bot/index.js:201 | the result is a suffix of the input, everything dropped is whitespace, and the result does not start with whitespace |
| JsText.TrimEnd | bot/index.js:201 | the result is a prefix of the input, everything dropped is whitespace, and the result does not end with whitespace |
| JsText.Trim | bot/index.js:201 | the result has no whitespace at either end |
| JsText.TrimOfPadded | bot/index.js:201 | trim is characterised by what it removes: whitespace + t + whitespace trims to t when t is trimmed |
| JsText.TrimEmptyIffWhitespace | bot/index.js:201-202 | trim gives "" exactly when the text is all whitespace |
| JsText.TrimIdempotent | bot/index.js:201 | trimming twice is trimming once |
| JsText.SliceFrom | bot/index.js:201 | `slice(start)` is the tail from start, or "" once start reaches the end |
| JsText.StartsWith | bot/index.js:199 | `startsWith(prefix)`: the text is at least as long as prefix and begins with it; `Bot.Dispatch` routes on it |
| JsText.SplitOn | bot/index.js:227 | `split(c)` always yields at least one piece; `JoinSplit`, `SplitPiecesAvoidSeparator` and `SplitAfterPrefix` characterise the pieces |
| JsText.Join | app.js:104 | `join(sep)`: no parts give "", one part is itself, more parts are separated by exactly one sep (`WebApp.JoinAppend`) |
| JsText.PadStart2 | app.js:125 | texts of two or more characters are unchanged; shorter ones are left-filled with '0' to length two |
| JsText.JoinSplit | bot/index.js:227 | joining the pieces of `split(c)` with c gives the original text back |
| JsText.SplitPiecesAvoidSeparator | bot/index.js:227 | no piece of `split(c)` contains c |
| JsText.SplitAfterPrefix | bot/index.js:227 | the text before the first separator is the first piece, and the rest is split on |
| JsText.UnlinesAppend | bot/index.js:141 | appending lines one after another (`+=`) is the same as writing all the lines at once |
| JsText.Unlines | bot/index.js:138-141 | each line followed by "\n", the text the `+=` loops build; stated by `UnlinesAppend` and `SplitUnlines` |
| JsText.SplitUnlines | bot/index.js:138-141 | splitting newline-terminated single-line texts on "\n" recovers them, followed by one empty piece |
| JsText.NatToStringRoundTrip | app.js:126 | the decimal rendering of n is non-empty digits, starts with '0' only for 0, and reads back as n |
| JsText.NatToString | app.js:126 | `${n}` for a non-negative integer: its decimal digits, characterised by `NatToStringRoundTrip` and `NatToStringInjective` |
| JsText.NatToStringInjective | app.js:126 | different numbers render differently |
| JsText.TwoDigitRoundTrip | app.js:125 | a number below 100, rendered and padded, is exactly two digits whose value is the number |
| JsText.ParseIntOfDigits | bot/index.js:227 | `parseInt` of a digit string is its decimal value |
| JsText.ParseIntOfNatToString | bot/index.js:227 | `parseInt` reads back the rendering of every non-negative integer |
| JsText.ParseInt | bot/index.js:227 | `parseInt` without a radix: skips leading whitespace, takes one sign, reads base 16 after "0x"/"0X", otherwise the longest digit run; no digits give NaN (None) |
| Clock.ClockRoundTrip | app.js:126 | "M:SS" text is the minutes, one colon and two digits of seconds, and parses back to the pair |
| Clock.ClockText | app.js:126 | the template `${minutes}:${seconds}` with the seconds padded to two digits; `ClockRoundTrip` states that it parses back |
| Clock.FormatTime | app.js:123-127 | `formatTime`: whole minutes, ":", whole seconds mod 60 padded to two digits; its fields are stated by `FormatTimeFields` |
| Clock.FormatDuration | bot/index.js:125-129 | `formatDuration`: whole minutes, ":", the seconds mod 60 rounded half up and padded, with no carry; stated by `FormatDurationFields` |
| Clock.SecondsSplit | app.js:124-125 | the minutes and seconds fields are the whole seconds of ms, divided by 60 and taken mod 60 |
| Clock.FormatTimeFields | app.js:123-127 | minutes = ms div 60000, seconds = (ms mod 60000) div 1000 < 60, printed with exactly two digits |
| Clock.FormatTimeSameSecond | app.js:123-127 | two positions print the same exactly when they fall in the same whole second |
| Clock.FormatTimeExamples | app.js:123-127 | 0 ↦ "0:00", 65000 ↦ "1:05", 200000 ↦ "3:20" |
| Clock.FormatDurationFields | bot/index.js:125-129 | minutes = ms div 60000, seconds = (ms mod 60000 + 500) div 1000 ≤ 60, and seconds = 60 exactly when ms mod 60000 ≥ 59500 |
| Clock.FormatDurationSixty | bot/index.js:125-129 | 59500 ↦ "0:60" and 119999 ↦ "1:60": a rounded-up 60 is not carried |
| Clock.FormatDurationVersusFormatTime | bot/index.js:125-129 | `formatDuration` agrees with `formatTime` below half a second; above it, the seconds field is one more |
| Credentials.CallbackResponse | app.js:54-83 | 404 exactly for other paths, 400 exactly for the callback without a code, 500 exactly when the exchange or the file write fails, 200 exactly when both succeed |
| Credentials.Initial | app.js:24 | a process that has just started: `refreshToken` null, the client without tokens, no listener, the file as it was left (also bot/index.js:18) |
| Credentials.Truthy | app.js:58 | JavaScript truthiness of an optional text: present and not empty, as `query.code` here and `!refreshToken` at bot/index.js:105 test it |
| Credentials.AfterCallback | app.js:54-83 | the state after one request to the listener; each path is stated by the `Callback…` lemmas below |
| Credentials.LoadStored | app.js:27-29 | an existing refresh_token.txt goes into `refreshToken` and the client; without the file nothing changes |
| Credentials.BeginAuthorization | app.js:45-88 | opens the listener and counts one more start; the process has ended exactly when it had ended already or a listener was still open; no token changes |
| Credentials.AfterRefresh | app.js:36-38 | a successful refresh sets the client's access token; a failure changes nothing here (`RefreshOnlySetsAccessToken`) |
| Credentials.CallbackOtherPath | app.js:79-82 | another path gives 404 "Not found." and changes no state: the listener stays open and the tokens stay as they are |
| Credentials.CallbackWithoutCode | app.js:74-78 | the callback without a (non-empty) code gives 400 and closes the listener; everything else is unchanged and no exchange is consulted |
| Credentials.CallbackGrantFailed | app.js:68-73 | a failed exchange gives 500 and closes the listener; everything else is unchanged |
| Credentials.CallbackSaveFailed | app.js:59-73 | when the exchange succeeds but the file write fails, the response is 500, only `refreshToken` changes, and the listener closes |
| Credentials.CallbackGranted | app.js:58-67 | a successful exchange gives 200. The variable, the file and the client all get the new refresh token, the client gets the new access token, and the listener closes |
| Credentials.CallbackNeverOpens | app.js:54-83 | handling a request never starts an authorization or opens a listener, and every callback request closes it |
| Credentials.SavedTokenInvariant | app.js:58-64 | once the file is loaded, the client's refresh token equals the file's contents, and every transition keeps that |
| Credentials.SavedTokenSurvivesRestart | app.js:27-64 | the token saved by a successful callback is the one the next start loads into the client |
| Credentials.RefreshOnlySetsAccessToken | bot/index.js:27-34 | in the try block both programs share (also app.js:36-38), a refresh changes only the access token, and a failed one changes nothing there. The dashboard's catch is `WebApp.AppRefresh` |
| Credentials.Session.constructor | app.js:18-25 | a new process: no tokens, no listener, the file as it was left |
| Credentials.Session.LoadStoredToken | app.js:27-29 | if the file exists, its contents go into `refreshToken` and into the client |
| Credentials.Session.GetRefreshTokenFromWeb | app.js:45-88 | performs `BeginAuthorization`: logs the URL and opens the listener, and the process ends when one was still open (the server at app.js:54 has no `'error'` handler) |
| Credentials.Session.HandleRequest | app.js:54-83 | answers with `CallbackResponse` and changes the state as `AfterCallback` says |
| Credentials.Session.ApplyRefresh | app.js:36-38 | on success it sets the client's access token and returns true; on failure it returns false |
| WebApp.ArtUrl | app.js:107 | the first album image's url, or null when there is no image or its url is empty |
| WebApp.ArtistLine | app.js:104 | the artist names joined with ", "; stated by `ArtistLineOrder` |
| WebApp.Summary | app.js:110-113 | one `recentlyPlayed` element: the track name and its artist line; `AssembleSnapshot` places one per history item, in order |
| WebApp.CurrentSongOf | app.js:102-108 | the `currentSong` object; its fields are stated by `SnapshotCurrentSong` |
| WebApp.AssembleSnapshot | app.js:93-116 | the queue is always empty. A current song exists exactly when there is a body with an item and the history call succeeded; otherwise the snapshot is the empty one. The recently played list keeps the history's length and order and summarises each track |
| WebApp.SnapshotWithoutItem | app.js:93-96 | with no response, no body or no item, the result is the empty snapshot, whatever the history would have been |
| WebApp.SnapshotHistoryThrew | app.js:117-120 | an exception from the history call also gives the empty snapshot |
| WebApp.SnapshotCurrentSong | app.js:101-108 | the current song is the item's name, its artists joined with ", ", progress and duration as whole-second "M:SS", and the art url or null |
| WebApp.JoinAppend | app.js:104 | joining two non-empty lists puts exactly one separator between the two joined halves |
| WebApp.ArtistLineOrder | app.js:104 | the artist line is the first artist's name, then ", " and the rest, in the service's order |
| Spotify.ArtistNames | app.js:104 | `artists.map(a => a.name)`: one name per artist, in the same order |
| Spotify.FirstArtistName | bot/index.js:141 | `track.artists[0].name`, defined only when the track has an artist |
| WebApp.EndToEndExample | app.js:101-108 | "Song A" by "Artist X" at 65 s of 200 s gives {title "Song A", artist "Artist X", progress "1:05", duration "3:20", art null} |
| WebApp.AppRefresh | app.js:35-43 | `refreshAccessToken` of the dashboard: the access token on success, the authorization flow on failure; stated by `RefreshFailureReauthorizes` |
| WebApp.AppStartup | app.js:27-33 | the top-level statements: load and refresh a saved token, else start authorization; stated by `StartupBranches` |
| WebApp.StartupBranches | app.js:27-33 | with a saved token, startup loads and refreshes it. A failed refresh opens the listener and leaves the access token unset. Without a saved token, startup only opens the listener |
| WebApp.RefreshFailureReauthorizes | app.js:35-43 | after a refresh the process has ended exactly when it had ended already, or the refresh failed while a listener was open. A failure with no listener open leaves every token as it was and starts one more flow; a success changes only the access token |
| WebApp.PollWhileAuthorizingEndsProcess | app.js:27-43 | a first run without a token file, and a start whose saved token is rejected, both end the process at the next failing refresh while the listener is open |
| WebApp.CallbackBeforePollKeepsRunning | app.js:39-85 | once a callback request has closed the listener, a later refresh, failed or not, does not end the process |
| WebApp.Startup | app.js:27-33 | the top-level statements produce exactly the state `AppStartup` describes |
| WebApp.RefreshAccessToken | app.js:35-43 | performs `AppRefresh`: set the access token, or re-enter the authorization flow |
| WebApp.GetSpotifyData | app.js:90-121 | always refreshes first (`AppRefresh`). No snapshot exactly when that ended the process; otherwise `AssembleSnapshot` of the two responses |
| Bot.ReadyBranches | bot/index.js:102-109 | `ready` either starts the authorization flow (no token, or an empty one) or refreshes. A failed refresh changes nothing and does not re-authorize |
| Bot.Ready | bot/index.js:105-109 | the `ready` transition: authorize on a falsy token, else the shared refresh; stated by `ReadyBranches` |
| Bot.EmptyTokenFileAuthorizes | bot/index.js:22-106 | an empty token file is loaded into the client and still sends `ready` into the authorization flow |
| Bot.LoadToken | bot/index.js:18-25 | a new process with the file's contents, if any, loaded into `refreshToken` and the client |
| Bot.RefreshAccessToken | bot/index.js:27-34 | success sets the access token; failure is only logged and changes nothing |
| Bot.OnReady | bot/index.js:105-109 | performs `Ready` on the session |
| Bot.ExactCommandsAreNotSearches | bot/index.js:199-331 | none of the exact commands starts with "!search" |
| Bot.Dispatch | bot/index.js:194-354 | direct messages are rejected before anything else. Otherwise the "!search" prefix, then `!skip`, `!fixbot`, `!last5`, `!nowplaying`/`!np` (one handler) and `!toptracks`. Each is chosen exactly when its test holds; anything else gets no reply |
| Bot.SearchQueryOfText | bot/index.js:201 | the query of "!search " + q is q trimmed |
| Bot.SearchQuery | bot/index.js:201 | `content.slice(8).trim()`; stated by `SearchQueryOfText` and `SearchPromptIffBlank` |
| Bot.CustomId | bot/index.js:214 | `track_${index}`; `CustomIdRoundTrip` states that it parses back |
| Bot.ParseCustomId | bot/index.js:227 | `parseInt(id.split('_')[1])`, None when there is no second piece or it has no digits |
| Bot.SearchPromptIffBlank | bot/index.js:201-204 | the bot asks for a song name exactly when everything from index 8 on is whitespace, and then no search result matters |
| Bot.SearchButtons | bot/index.js:211-216 | one button per search result, in result order; the k-th button has id `track_k` and the caption "name - first artist" |
| Bot.HandleSearch | bot/index.js:199-260 | an empty query gets the prompt. A search error gets the error message, and no results get "No songs found.". Otherwise the reply is one button per result (`SearchButtons`) when every result has a first artist, and the error message when one lacks it |
| Bot.CustomIdRoundTrip | bot/index.js:212-227 | `parseInt(("track_" + i).split('_')[1])` is i for every index i |
| Bot.SelectTrack | bot/index.js:228 | `items[index]` is defined exactly when the parsed index is a number in range |
| Bot.ButtonSelectsItsResult | bot/index.js:212-228 | pressing the k-th button selects the k-th search result |
| Bot.PressButton | bot/index.js:226-250 | the handler replies exactly when the id selects a result; the track is queued exactly when it replies and the add succeeded. The reply is `Added "<name>" to your Spotify queue.` when the track has a first artist and an image, else "Failed to add song to queue." |
| Bot.AddedText | bot/index.js:243 | the confirmation `Added "<name>" to your Spotify queue.` |
| Bot.NowPlayingOf | bot/index.js:303-330 | the embed appears only when the body exists, is playing and has an item; it then holds "name - first artist", the first image and "progress / duration" in `formatDuration`, or the failure text when the artist or image is missing. A body that is missing, paused or empty gives "Nothing is currently playing on Spotify."; an error gives the failure text |
| Bot.Shown | bot/index.js:139 | the listing reads the first min(10, length) tracks of the queue |
| Bot.GetQueue | bot/index.js:131-148 | the loop builds exactly `QueueReply`: the failure text on an error or a track without artist, "The queue is empty." for an empty queue, else the numbered listing |
| Bot.QueueReply | bot/index.js:131-148 | the reply `getQueue` sends; its listing is stated by `QueueListingLines` and `QueueTruncation` |
| Bot.QueueEntry | bot/index.js:141 | one listing line, "n. name - first artist"; stated by `QueueListingLines` |
| Bot.QueueListingLines | bot/index.js:134-143 | the listing is the header, then min(10, length) lines numbered from 1 in queue order, each "n. name - first artist" |
| Bot.QueueTruncation | bot/index.js:139 | tracks after the tenth never change the reply |
| Bot.UnlinesOfThree | bot/index.js:183-184 | the three lines of a history item are written as "a\nb\n\n" |
| Bot.HistoryLinesAppend | bot/index.js:181-185 | the `forEach` adds one item's lines after the lines of the earlier items |
| Bot.ItemLines | bot/index.js:183-184 | the three lines one history item adds: "name - first artist", "Played at: …" and an empty line |
| Bot.HistoryLines | bot/index.js:181-185 | the lines of all items in history order; stated by `HistoryLinesAt` and `HistoryLinesAppend` |
| Bot.UpdateLast5 | bot/index.js:172-192 | the loop writes exactly `Last5File`: nothing on an error, on an empty history, for a track without artist, or when the write fails |
| Bot.Last5File | bot/index.js:172-192 | what last5.txt receives, or None; stated by `Last5EmptyHistory` and `Last5Layout` |
| Bot.Last5EmptyHistory | bot/index.js:175-177 | an empty history writes nothing |
| Bot.HistoryLinesAt | bot/index.js:181-185 | item k gives lines 3k to 3k+2, so there are three lines per item, in history order |
| Bot.HistoryLinesSingleLine | bot/index.js:183-184 | the item lines contain no line break when the quoted texts contain none |
| Bot.Last5Layout | bot/index.js:179-187 | the file is the header, then for each item in order its "name - artist" line, its "Played at:" line and a blank line |

## Left out

- The Discord client, embeds (title, colour, URL and album fields), button builders and the interaction collector, with its user filter and 60-second timeout. These are SDK glue; only the texts and ids the bot computes are modelled.
- The reply texts of `!skip`, `!fixbot`, `!last5` and `!toptracks`. Apart from the routing to them, these are a single SDK call each, or robotjs mouse clicks, or embed building.
- `updateSystemInfoFile`: operating-system telemetry with floating-point formatting. `updateVoiceChannelTopic` is never scheduled, and `isUserInSameVoiceChannel` is never called.
- Express, Socket.IO, `setInterval` timers and `server.listen`. Delivery of a snapshot to the clients is I/O; every client receives the value `GetSpotifyData` returns.
- The second listener itself: the model keeps one open/closed flag and a count of starts, and records only that a failed bind ends the process. The asynchronous order is taken as Node gives it: the bind error is raised on the next tick, before any service call of the same poll can answer.
- The authorization URL and its scopes, the Content-Type header, and `client.login`. These are constant text or SDK calls.
- What the music service does with a missing refresh token, and whether it rotates tokens. Every grant, refresh and fetch is a free input.
- `toLocaleString` of `played_at`: it depends on the locale, so `playedAt` is taken as the text shown.
- JavaScript number precision: millisecond counts are non-negative unbounded integers, and `parseInt` has no 2^53 limit. `${n}` is rendered in plain digits, without the exponent form JavaScript uses from 10^21 up.
- JsText.SliceFrom: counts Unicode characters where JavaScript counts UTF-16 code units. A character outside the Basic Multilingual Plane before the start position shifts the result; a lone surrogate cannot be represented.
- Bot.SearchQuery: when the eighth character of a message lies outside the Basic Multilingual Plane (as in "!search😀 x"), JavaScript's `slice(8)` keeps its low surrogate and searches for it, while the model drops the whole character.
- Partial writes: the model assumes that a failed write leaves the file's previous contents. `writeFileSync` truncates the file when it opens it, so a write that fails after opening can leave it empty or partly written.
- Malformed responses, such as a missing `album`, `track` or `body.items`. The response types always have these fields. Only a missing first artist and a missing first image, which the code indexes directly, are modelled as failures.
