# radioBackend in Dafny

A model of the core of radioBackend, a Node.js back end for a moderated
internet radio. Listeners submit track requests for one of three genres
(rock, hip-hop, electronic) on one of two platforms (YouTube, RuTube). A
moderator approves or rejects each request. Approved tracks wait in a FIFO
queue for their (genre, platform) pair and play one after another, each
for its duration. A timer started with each track hands over to the next.

The model has five modules, one per source concern, and a sixth of worked
examples:

- `Common` (common.dfy). `Option`, and the string operations the code relies
  on: `startsWith`, `includes`, greedy `\d+` digit runs, and JavaScript's
  `split("\n")` / `join("\n")` with their round-trip lemmas.
- `Duration` (duration.dfy). `parseISODuration`: the regular expression
  `PT(?:(\d+)H)?(?:(\d+)M)?(?:(\d+)S)?` written out as the engine applies it,
  unanchored, from the first `PT`. It reads the time part of an ISO 8601
  duration in the format with designators (section 4.4.3.2 of ISO 8601:2004).
- `Scheduler` (scheduler.dfy). The state of server.js as a class `Radio`:
  - the queues;
  - the now-playing slots;
  - the platform choice per genre;
  - the moderation list;
  - the notification log;
  - the approval ledger;
  - the armed timers.

  Its methods are `startNextTrack`, the timer callback, and the socket
  handlers `get-queue`, `change-platform`, `new-request` and
  `moderate-request`. The class invariant `Valid()` keeps these facts:
  - what a pair's queue has started, followed by what still waits, is
    exactly what was pushed to it (FIFO);
  - every waiting entry and every slot carries its own pair's genre and
    platform, a duration of at least one second and status `sent`;
  - a slot holds the entry started last;
  - the moderation list holds unique, issued ids.
- `Proxy` (proxy.dfy). `proxyStream`:
  - URL unpacking;
  - classification of `.m3u8` playlists and `.ts` segments;
  - the upstream request headers;
  - the playlist rewrite, which follows the line grammar of section 4.1 of
    RFC 8216 and rewrites only URI lines, each into a link through the proxy;
  - the base directory relative entries resolve against;
  - the header pass-through and the status of a relayed segment.
- `YouTube` (youtube.dfy). The per-user notification filter and the
  one-result YouTube search.
- `Scenarios` (scenarios.dfy). Two worked examples on a fresh `Radio`, each
  following from the handlers' contracts alone:
  - an approval on an idle pair starts at once and its timer later clears
    the slot;
  - a rejection only notifies, and repeating it changes nothing.

The following become parameters:
- wall-clock time, as integer milliseconds;
- the fresh `uuidv4` id;
- the duration text returned by the YouTube videos API;
- whether the database insert succeeded;
- the URL constructor and `encodeURIComponent`, as uninterpreted functions;
- the results of the upstream fetches and of the YouTube search.

Behaviour of the code that the model keeps:
- timers are never cancelled;
- an approved entry is queued before the database insert;
- rejections are not persisted;
- `change-platform` starts the next track even while one is playing;
- the cooldown window is 60 000 ms, although a comment next to it says five
  minutes;
- the scheduler state lives in memory only and is never saved or reloaded;
- Node's `setTimeout` waits 1 ms instead of any delay above 2^31 − 1 ms
  (about 596.5 hours), so a track longer than that is replaced almost as soon
  as it starts (`TimerDelay`, `OverlongTrackTimer`).

The reset branch of `change-platform` (server.js:210-216) compares the
platform of the entry in a slot with the platform key of that same slot.
When genres and platforms are strings, as the model has them, an entry only
ever reaches the slot of its own platform, so the branch never fires.
`ChangePlatform` proves this from the invariant. A payload whose platform is
not a string but names a valid key once converted, such as the array
`["youtube"]`, does reach the branch, because `!==` compares the array
with the string `"youtube"`; such payloads are not modelled.

## Model

| member | source | states |
|---|---|---|
| Common.DigitRun | server.js:111 | the length a greedy `\d+` consumes from a position: every character of the run is a digit and the next is not |
| Common.NatToStringValue | server.js:112 | unary `+` on the decimal text of `n` gives back `n` |
| Common.DigitsValue | server.js:112 | unary `+` on a captured digit run: a leading zero does not change the value, and a single digit is its own value |
| Common.SplitLines | controllers/proxyController.js:50 | `split("\n")` always yields at least one piece and no piece contains a newline |
| Common.JoinLines | controllers/proxyController.js:72 | `join("\n")`: the text starts with the first piece, and with several pieces a newline follows the first |
| Common.JoinEndsWithLast | controllers/proxyController.js:72 | the joined text ends with the last piece |
| Common.JoinSplit | controllers/proxyController.js:49-72 | joining the pieces of a split with newlines gives back the original text |
| Common.SplitJoin | controllers/proxyController.js:49-72 | splitting newline-free lines joined by newlines gives back exactly those lines |
| Duration.FindPT | server.js:111 | the unanchored match begins at the first occurrence of "PT", and there is none before it |
| Duration.Group | server.js:111-112 | an optional group `(\d+)X` takes part only when a non-empty digit run is followed by `X`, and always does then; it consumes exactly those characters and captures the value of the digits, and an absent group counts 0 |
| Duration.TimeValue | server.js:112 | a text after "PT" that does not start with a digit gives 0, and the result is at least 3600 times the value the hours group captures |
| Duration.TimeValueOfParts | server.js:111-112 | the groups read `[nH][nM][nS]` one after another and sum to 3600·H + 60·M + S, an absent part counting 0 |
| Duration.ParseIsoDuration | server.js:110-113 | the parse fails (the source throws on the `null` match) exactly when the text has no "PT" |
| Duration.ParseIsoTime | server.js:110-113 | every canonical `PT[nH][nM][nS]` parses to 3600·H + 60·M + S seconds; bare `PT` parses to 0 |
| Scheduler.IsTrackPlaying | server.js:115-118 | false for an empty slot; otherwise true exactly when now − startedAt < durationSec·1000 |
| Scheduler.ResolveDuration | server.js:249-271 | the enqueued duration is at least 1 s: RuTube always gets 180; YouTube gets the parsed duration when positive, and 180 when the lookup fails, throws or parses to 0 |
| Scheduler.ResolveIsoTime | server.js:249-271 | a YouTube video reported as `PT[nH][nM][nS]` is enqueued for exactly that many seconds, or 180 when that is zero |
| Scheduler.TimerDelay | server.js:135 | the delay `setTimeout` waits: always between 1 and 2^31 − 1 ms; it is the requested delay exactly when that lies in this range, and 1 ms otherwise |
| Scheduler.OverlongTrackTimer | server.js:110-135 | a YouTube video reported as `PT597H` is enqueued for 2 149 200 s, yet its timer waits only 1 ms |
| Scheduler.FindIndex | server.js:242 | `findIndex`: −1 exactly when no request has the id; otherwise the first request with that id |
| Scheduler.ApprovedMessage | server.js:312-317 | the approval notification text names the request's title |
| Scheduler.RejectedMessage | server.js:323-328 | the rejection text names the title and ends with the moderator's reason |
| Scheduler.ApprovedRow | server.js:279-298 | the ledger row of an approval carries the entry's id, genre, platform and durationSec, with status `approved` |
| Scheduler.RemovePreserves | server.js:244 | splicing one request out of the moderation list keeps the ids unique and issued, and every status `sent` |
| Scheduler.RemoveFound | server.js:242-244 | once the found request is spliced out, no request with that id remains, so a repeated `moderate-request` changes nothing |
| Scheduler.Radio.constructor | server.js:89-108 | every queue is empty, every slot is `null`, every genre is on YouTube, and the moderation list and notification log are empty; the invariant holds |
| Scheduler.Radio.StartNextTrack | server.js:120-136 | on an empty queue: clears the slot, changes no queue, arms no timer. Otherwise: pops the head, plays it from `now`, keeps the rest of the queue in order, arms exactly one timer, due after `setTimeout`'s delay for durationSec·1000 ms (1 ms when that exceeds 2^31 − 1), and cancels none. Touches no other pair, keeps FIFO, and the started track is playing |
| Scheduler.Radio.Fire | server.js:135 | a due timer is removed and runs `startNextTrack` for its own pair; every other timer stays armed |
| Scheduler.Radio.GetQueue | server.js:189-203 | changes nothing while the slot is playing or the queue is empty, so an expired slot stays in place; otherwise starts the next track |
| Scheduler.Radio.ChangePlatform | server.js:206-222 | records the genre's platform; never clears the slot; with a non-empty queue starts the next track even while one is still playing |
| Scheduler.Radio.NewRequest | server.js:224-239 | appends exactly one request at the tail, with the fresh id, the given genre and platform, status `sent` and the time, over the client's own fields; the cooldown ends 60 000 ms later |
| Scheduler.Radio.ModerateRequest | server.js:241-334 | an unknown id changes nothing. Otherwise removes exactly that request, keeping the others in order. On approve: queues the entry with its resolved duration at its pair's tail; if the insert fails, stops there; else records one `approved` row, starts the next track only if nothing plays, and logs one success notification. On reject: logs only one error notification with the reason. Afterwards no request has the id |
| Scheduler.Radio.Push | server.js:276 | appends the entry at the tail of its pair's queue and records it as pushed, keeping the invariant |
| Scheduler.Radio.EnqueueApproved | server.js:248-320 | the approve branch for a request already taken out of the list, with the same outcome as stated for `ModerateRequest` |
| Proxy.Unwrapped | controllers/proxyController.js:12-19 | a URL not pointing through this proxy is kept as it is; one pointing through it is replaced by its `url` parameter, or kept when it does not parse |
| Proxy.UpToLastSlash | controllers/proxyController.js:63 | the prefix of a path up to and including its last `/` |
| Proxy.DirectoryOf | controllers/proxyController.js:63 | `replace(/\/[^/]+$/, "/")`: the path cut back to and including its last `/`; unchanged with no `/` or a trailing `/` |
| Proxy.BaseDirectory | controllers/proxyController.js:62-63 | the origin followed by the path's directory: the path up to and including its last `/`, with no `/` after it, or the whole path when it has no `/` |
| Proxy.Trim | controllers/proxyController.js:52 | `trim()`: the result neither starts nor ends with white space, a text that already does not is kept, and it is empty exactly when the text is all white space |
| Proxy.TrimInfix | controllers/proxyController.js:52 | the trimmed text is the part of the line between a white-space prefix and a white-space suffix |
| Proxy.IsBlank | controllers/proxyController.js:52 | `line.trim() === ""` holds exactly when every character of the line is ECMAScript white space or a line terminator |
| Proxy.RewriteLine | controllers/proxyController.js:51-71 | blank lines and lines starting with `#` are kept. A line starting with `http` is parsed as absolute, any other line against the base directory. A parsed line becomes proxy prefix + encoded `href`; a line that fails to parse is kept |
| Proxy.RewriteLines | controllers/proxyController.js:49-72 | the rewrite maps each line on its own: same number of lines, in order |
| Proxy.RewritePlaylist | controllers/proxyController.js:49-72 | a playlist with only blank, tag and comment lines is relayed exactly as it came; provided the proxy prefix and the encoder introduce no newline, the result has exactly the input's lines, in order, each rewritten on its own |
| Proxy.CopyPassthrough | controllers/proxyController.js:93-105 | exactly the five pass-through headers that are present and non-empty upstream are copied, with their upstream values |
| Proxy.RelayPlaylist | controllers/proxyController.js:39-79 | fetches the playlist as text. A failed fetch or an unparsable base URL gives 500. Otherwise 200 with the HLS content type, `*` CORS, and the rewritten playlist |
| Proxy.RelaySegment | controllers/proxyController.js:81-119 | forwards `Range` exactly when given and fetches the segment as a stream. A failed fetch gives 500. Otherwise pipes the body with the pass-through and CORS headers, status 206 exactly when a range was given |
| Proxy.ProxyStream | controllers/proxyController.js:7-124 | a missing or empty `url` gives 400 and fetches nothing. A fetch is made exactly when an (unpacked) URL exists. `Referer`/`Origin` are sent exactly when the URL contains `.m3u8` or `.ts`; `Range` exactly for non-playlists with a range. Playlists come back rewritten line by line, and the status is 206 exactly for an answered ranged segment |
| YouTube.Notifications | controllers/youtubeController.js:8-14 | exactly the log entries whose userId equals the route id, none other, at most as many as the log |
| YouTube.NotificationsAppend | controllers/youtubeController.js:10-12 | the filter distributes over appends to the log, so it keeps log order |
| YouTube.NotificationsGrow | controllers/youtubeController.js:10-12 | a new notification shows up only for its own user and at the end; earlier answers stay a prefix |
| YouTube.WatchUrl | controllers/youtubeController.js:39 | the watch link is the fixed prefix followed by exactly the video id |
| YouTube.VideoIdRoundTrip | controllers/youtubeController.js:39 | every watch link is the link of the id it carries |
| YouTube.YtSearch | controllers/youtubeController.js:17-46 | a missing or empty query gives 400 and makes no search. A failed search gives 500 and an empty list 404. 200 exactly when a first item exists, with that item's watch link and title |

## Left out

- Socket.IO transport: every `io.emit` / `socket.emit`, room joins
  (`register-user`), the per-connection bootstrap emits and
  `get-moderation-queue`. The model keeps state, not broadcasts.
- Payloads whose genre or platform is not one of the three genres and two
  platforms. The model types them as enumerations, so it does not capture
  what each handler then does:
  - `get-queue` throws at server.js:192 on an unknown genre; on an unknown
    platform it emits an undefined queue and then throws at server.js:198;
  - `change-platform` first records the value in `currentPlatforms`, then
    throws at server.js:211 on an unknown genre or at server.js:219 on an
    unknown platform;
  - `new-request` throws nothing: it stores the request and emits the
    cooldown;
  - `moderate-request` rejects such a request normally. An approval throws
    at the push of server.js:276, after the splice of server.js:244, so the
    request is lost with no queue entry, no ledger row and no notification.

  An unknown `action` string is modelled as `OtherAction`.
- The asynchronous interleaving inside `moderate-request`, and timer races.
  Each handler runs atomically. `Fire` may run any due timer; the order in
  which due timers fire is not constrained.
- The YouTube videos API call in the approve branch (the `v` parameter taken
  from `track`, the HTTP request). Its outcome is the `iso` parameter, `None`
  when any step throws.
- The PostgreSQL pool. The insert is a success flag. A failed insert ends the
  handler after the enqueue, as the unhandled rejection does.
- Scheduler.IsTrackPlaying: the source divides by 1000 in floating point. The
  model uses exact real division, so rounding of very large times is not
  captured.
- Duration.ParseIsoDuration: unary `+` turns each digit run into a double, and
  the products and the sum at server.js:112 are computed in doubles, so the
  source's result is exact only while it stays below 2^53. The model computes
  with exact naturals, so the rounding of larger durations (for example
  `PT3000000000000H1S`) is not captured. A non-string duration, which throws, is the same
  as `None`.
- Duration.TimeValue: its own contract gives only the zero case and a lower
  bound; the weighted sum of the three captures is stated for canonical
  `[nH][nM][nS]` texts by `TimeValueOfParts` and `ParseIsoTime`, not for
  arbitrary text after "PT".
- Proxy.ProxyStream: the text of the 500 body (`"Proxy error: "` plus the
  exception message) is abstract. Express's header-name case folding and
  charset suffixing, and a `url` query given twice (an array), are not
  modelled. The stream piping itself is not modelled either.
- Proxy.RewritePlaylist: states the line-for-line property only under the
  assumption that `encodeURIComponent` output and the proxy prefix contain no
  newline, since the encoder is uninterpreted.
- YouTube.Notifications: a `userId` is a string here. The filter's `===`
  never matches a notification whose `userId` came from the listener as a
  number (the login and register replies give out the database id as it is)
  or was missing, so such notifications are never returned. The model cannot
  express those values.
- YouTube.YtSearch: the request parameters of the search call (API key,
  `maxResults`) are not modelled; the search result is a parameter.
- Express set-up, the CORS middleware, logging, `/health/routes`, the routing
  table, and the authentication, avatar, user-action, query, RuTube and
  database modules are not part of this model.
