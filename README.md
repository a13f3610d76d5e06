# yt-player core, modelled in Dafny

yt-player is a YouTube audio player. It has a Next.js front end, a set of Next.js API
routes and an optional Express backend. A user pastes a YouTube link. The client checks
the link and asks `/api/youtube` for the video. That route resolves the video with
ytdl-core, retrying with exponential backoff, and picks the best audio-only format. The
client then files the video as a track in the current playlist, creating one if needed.
The player bar, the playlist panel and the header drive a persisted store. That store has
two forms: a Redux slice and a zustand store. Both hold the current track, the playback
settings, the playlists and the UI flags.

This project models that core and proves properties of the model:

- `Text`, `Search`, `Media` and `Clock` model the regular expressions, the string
  helpers, the audio-format filter and sort, and the `m:ss` / `h:mm:ss` clocks that the
  core uses.
- `YouTubeRoute` models `app/api/youtube/route.ts`. That is the id check, the link
  patterns, the retry loop with its backoff, the best-format choice, the error
  classification and the GET/POST handlers.
- `StreamRoute` and `TestAudioRoute` model the audio proxy route and the diagnostic route.
- `YouTubeService`, `VideoRoutes` and `AudioRoutes` model the Express backend: the
  cached video-info service, the validation and info routes, and the extraction/download
  job table.
- `Library` holds the playlist and track operations that both stores share. `PlayerSlice`
  models the Redux slice as a class, with one method per reducer. `PlayerStore` models the
  zustand store the same way, including what it persists.
- `UrlInput`, `PlayerView`, `PlaylistView` and `HeaderView` model the component
  handlers: link validation and submission, the player bar's buttons and end-of-track
  rule, track selection and removal, and playlist creation.

The fetch calls, ytdl-core's `getInfo`, the clock (`Date.now()`) and the `<audio>`
element are parameters or small classes. A fetch is a value the caller supplies. A
`getInfo` is a function from attempt number to outcome. `now` is a number. The element
is a class with its three fields.

A few facts about the code as written shape the model:

- `getVideoInfoWithYtdl` has a single strategy, ytdl-core, and no fallback to another
  extractor.
- Its backoff is `1000 * 2^(k-1)` ms with no cap.
- There is no hand-written rate limiter. Request limiting is `express-rate-limit`
  configuration in `backend/server.js`, which is not part of this model.
- The only time-limited cache is the NodeCache in `backend/services/youtubeService.js`.
- The GET handler's `catch` always answers 500, whatever the classified message.
- Format choice is by bitrate alone. Only the stream route prefers an mp4 container.
- ytdl-core's `filterFormats(…, 'audioonly')` keeps a format only when it has audio, has
  no video and has a non-empty `url`. The service's own filter in
  `backend/services/youtubeService.js` drops the `url` test.
- There is no special handling of bot challenges beyond the keyword classification.

## Model

| member | source | states |
|---|---|---|
| YouTubeRoute.IdAt | app/api/youtube/route.ts:5-7 | a match is an 11-character `[A-Za-z0-9_-]` id that sits at the given position |
| YouTubeRoute.IdAfter | app/api/youtube/route.ts:12-14 | a match is a valid id that follows the literal at the given position |
| YouTubeRoute.WatchShortEmbedAt | app/api/youtube/route.ts:12 | whatever the first pattern captures is a valid id |
| YouTubeRoute.LegacyAt | app/api/youtube/route.ts:13 | whatever the `/v/` pattern captures is a valid id |
| YouTubeRoute.VAt | app/api/youtube/route.ts:14 | a `v=` capture is a valid id |
| YouTubeRoute.LastVFrom | app/api/youtube/route.ts:14 | greedy `.*` picks a capture at some `v=` in range, or reports that none in range matches |
| YouTubeRoute.WatchQueryAt | app/api/youtube/route.ts:14 | whatever the `watch?...v=` pattern captures is a valid id |
| YouTubeRoute.ExtractedIdIsValid | app/api/youtube/route.ts:10-22 | every id that extractVideoId returns passes isValidVideoId |
| YouTubeRoute.NoLinkMatchBeforeY | app/api/youtube/route.ts:12 | the first pattern cannot match at a position that does not hold `y` |
| YouTubeRoute.LinkMatchesAtForm | app/api/youtube/route.ts:12 | a link form followed by a valid id matches there and captures that id |
| YouTubeRoute.ExtractVideoIdOfLink | app/api/youtube/route.ts:10-22 | for `pre + form + id + post` with no `y` in `pre`, extraction returns exactly `id` |
| YouTubeRoute.Pow2 | app/api/youtube/route.ts:37 | `Math.pow(2, k)` is at least 1 |
| YouTubeRoute.Backoff | app/api/youtube/route.ts:37 | the wait before attempt k+2 is `1000 * 2^k` ms |
| YouTubeRoute.BackoffStep | app/api/youtube/route.ts:37 | one more failed attempt appends the next doubled wait |
| YouTubeRoute.TotalBackoff | app/api/youtube/route.ts:37 | n waits total `1000 * (2^n - 1)` ms |
| YouTubeRoute.RetryFrom | app/api/youtube/route.ts:25-40 | the loop makes no attempt exactly when the start is past `maxRetries` |
| YouTubeRoute.RetryFromMeaning | app/api/youtube/route.ts:25-40 | the result is the first success, or the last attempt's error when every attempt threw |
| YouTubeRoute.RetryAt | app/api/youtube/route.ts:26-38 | a single attempt's effect: return on success, rethrow at the last attempt, otherwise retry |
| YouTubeRoute.GetVideoInfoWithYtdl | app/api/youtube/route.ts:25-40 | the loop computes RetryFrom; it waits once per failed non-final attempt with the doubling delays |
| YouTubeRoute.GetBestAudioFormat | app/api/youtube/route.ts:43-56 | an error exactly when ytdl's `audioonly` filter keeps nothing; otherwise the first kept format of maximum bitrate |
| YouTubeRoute.AuthorOf | app/api/youtube/route.ts:97 | `author?.name || author || 'Unknown Artist'`: an object's non-empty name; else a non-empty string author; an absent or empty author gives "Unknown Artist"; an object without a name is passed through as it is |
| YouTubeRoute.ClassifyError | app/api/youtube/route.ts:145-165 | the first included keyword picks the message; with none it is the error's own message |
| YouTubeRoute.Handle | app/api/youtube/route.ts:58-176 | a missing id or a malformed id gives 400; a rethrown error or no audio format gives the classified 500; missing details give 400 "Could not extract video details"; a best format without URL gives 400 "Could not extract audio URL"; success exactly when none of these holds, with the best format's URL |
| YouTubeRoute.SuccessFields | app/api/youtube/route.ts:96-140 | a successful answer's title is the video's or "Unknown Title"; its author is AuthorOf; its duration is `lengthSeconds` parsed, else `duration` parsed, else 0; its thumbnail is the last thumbnail's non-empty URL, else the id's `maxresdefault.jpg`; its quality is the best format's bitrate, or "Unknown", followed by `kbps`; method and note are the fixed strings |
| YouTubeRoute.BestFormatHasUrl | app/api/youtube/route.ts:117-124 | the best format always has a non-empty URL, so the "Could not extract audio URL" reply cannot occur |
| YouTubeRoute.NoAudioClassified | app/api/youtube/route.ts:160-161 | the no-audio error maps to its own message |
| YouTubeRoute.NoAudioMissesEarlierKeys | app/api/youtube/route.ts:148-159 | none of the six earlier keywords occurs in the no-audio message |
| YouTubeRoute.NoAudioMissesKey | app/api/youtube/route.ts:148-159 | the no-audio message does not include a given earlier keyword |
| YouTubeRoute.NoInnerCapital | app/api/youtube/route.ts:47 | the no-audio message has no capital letter after its first character |
| YouTubeRoute.NotIncludedCapitalised | app/api/youtube/route.ts:148-159 | a capitalised keyword is not found in a text that starts differently and has no later capitals |
| YouTubeRoute.NoAudioIsServerError | app/api/youtube/route.ts:43-48 | a video without audio formats answers 500 with the no-audio message |
| YouTubeRoute.Get | app/api/youtube/route.ts:58-176 | the handler's reply is Handle of the retry outcome, with fewer than five waits, and none when the id is missing or malformed |
| YouTubeRoute.Post | app/api/youtube/route.ts:179-216 | unparsable body gives 500; no url gives 400; an unrecognised link gives 400; otherwise the GET reply for the extracted id |
| YouTubeRoute.ExtractedIdPassesFormatCheck | app/api/youtube/route.ts:192-203 | an id that POST extracts never fails GET's presence or format check |
| YouTubeService.UrlFormAt | backend/services/youtubeService.js:15 | a link capture is a non-empty run of characters other than `&`, newline, `?` and `#` |
| YouTubeService.BareIdAt | backend/services/youtubeService.js:16 | the anchored bare-id pattern captures only a valid 11-character id |
| YouTubeService.ExtractedIdShape | backend/services/youtubeService.js:11-24 | a result exists only for a truthy url and is a non-empty run without stop characters |
| YouTubeService.NoUrlFormWithoutDot | backend/services/youtubeService.js:15 | a string without `.` never matches the link pattern |
| YouTubeService.BareIdRoundTrip | backend/services/youtubeService.js:11-24 | a bare valid id comes back unchanged |
| YouTubeService.UrlFormMatchesAt | backend/services/youtubeService.js:15 | a link form followed by a maximal capture run matches there with that capture |
| YouTubeService.NoUrlFormBeforeY | backend/services/youtubeService.js:15 | the link pattern cannot match at a position that does not hold `y` |
| YouTubeService.LinkRoundTrip | backend/services/youtubeService.js:11-24 | for any of the four link forms, `pre + form + id + post` with no `y` in `pre` gives back `id` |
| YouTubeService.ValidateVideo | backend/services/youtubeService.js:29-39 | true exactly when ytdl accepts the id and getInfo returns details |
| YouTubeService.FormatDurationReadsBack | backend/services/youtubeService.js:107-118 | the printed duration parses back to the seconds; it has three fields from an hour on and two below |
| YouTubeService.AudioSummaries | backend/services/youtubeService.js:54-62 | one summary per audio-only format, in order |
| YouTubeService.Project | backend/services/youtubeService.js:64-93 | the data carries the id, the audio summaries and the watch and embed URLs; it fails exactly when details, author or a thumbnail are missing |
| YouTubeService.Fetch | backend/services/youtubeService.js:49-101 | a failure message starts with "Failed to get video info: "; success is the projection of what getInfo returned |
| YouTubeService.WatchUrlLeadsBack | backend/services/youtubeService.js:91 | the stored watch URL leads the API route's extractor back to the id |
| YouTubeService.WatchUrlReadBack | backend/services/youtubeService.js:91 | the stored watch URL leads the service's own extractor back to the id |
| YouTubeService.EmbedUrlLeadsBack | backend/services/youtubeService.js:92 | the stored embed URL leads the API route's extractor back to the id |
| YouTubeService.ServedFromCacheUntilExpiry | backend/services/youtubeService.js:5-98 | once a fetch is stored, every request until the one-hour TTL runs out is answered from the cache, whatever upstream does |
| YouTubeService.Service.constructor | backend/services/youtubeService.js:5 | the cache starts empty |
| YouTubeService.DurationFormatted | backend/services/youtubeService.js:68 | a numeral `lengthSeconds` prints as a well-formed clock that reads back as its value; the empty string prints "0:00"; an absent or other value prints "NaN:NaN" |
| YouTubeService.Service.GetVideoInfo | backend/services/youtubeService.js:44-102 | a live entry is returned unchanged with no fetch; otherwise the fetch result is returned and, when it succeeded, stored with an expiry one hour later; every entry stays filed under its own id |
| StreamRoute.Headers.constructor | app/api/youtube/stream/route.ts:54 | a new header set is empty |
| StreamRoute.Headers.Set | app/api/youtube/stream/route.ts:55-61 | setting a header maps its name to the value and leaves the others alone |
| StreamRoute.StreamError | app/api/youtube/stream/route.ts:85-114 | `Video unavailable` gives 404, lower-case `private` or `age-restricted` gives 403, each with its fixed message, and any other error gives 500 with its own message |
| StreamRoute.CapitalisedPrivateIsServerError | app/api/youtube/stream/route.ts:95 | "Private video" misses the case-sensitive `private` test and answers 500 |
| StreamRoute.Get | app/api/youtube/stream/route.ts:4-115 | no id gives 400; no details gives 404; private or unlisted gives 403; otherwise 200 streams the first mp4 audio-only format, with `audio/mp4` exactly when one exists, and the CORS and caching headers |
| StreamRoute.StreamHeaders | app/api/youtube/stream/route.ts:53-61 | the stream's seven headers, with the content type given |
| StreamRoute.Head | app/api/youtube/stream/route.ts:117-143 | an empty body; 400 without an id; 404 when getInfo throws; 200 exactly when it returns, with `audio/mpeg`, a zero length and `Range` allowed |
| StreamRoute.Options | app/api/youtube/stream/route.ts:145-154 | 200, empty body, the four CORS preflight headers with a one-day max age |
| TestAudioRoute.RequestedUrl | app/api/test-audio/route.ts:6-9 | the watch URL of the id, or of the default video when none is given |
| TestAudioRoute.ReportAll | app/api/test-audio/route.ts:39-44 | one entry per format, in order, without its content length |
| TestAudioRoute.Get | app/api/test-audio/route.ts:4-54 | an error's message (or "Unknown error"); "No audio format available" with no audio-only format; otherwise the first maximum-bitrate format and every audio format sorted by bitrate |
| VideoRoutes.ResolveId | backend/routes/videoRoutes.js:12-28 | neither input gives the missing-input error; a truthy videoId wins; otherwise the url's extracted id, or the invalid-link error |
| VideoRoutes.LinkResolves | backend/routes/videoRoutes.js:21 | a link of any of the four forms resolves to its id |
| VideoRoutes.Validate | backend/routes/videoRoutes.js:56-72 | always success, echoing the id; `valid` exactly when validateVideo holds |
| VideoRoutes.Info | backend/routes/videoRoutes.js:10-50 | 400 with the resolution error; 404 exactly when the video does not validate; otherwise the service's cached-or-fetched answer as 200 or its error as 500, and the cache ends as getVideoInfo leaves it; 400 and 404 leave the cache unchanged |
| AudioRoutes.AlreadyProcessingStartsNothing | backend/routes/audioRoutes.js:53-60 | a video id already in the table is answered with its entry, and the table is unchanged |
| AudioRoutes.ExtractionFilesDownload | backend/routes/audioRoutes.js:62-96 | a successful extraction files the finished download under its id, drops the video id and keeps every other entry |
| AudioRoutes.FailedExtractionSticks | backend/routes/audioRoutes.js:64-102 | a failed conversion answers 500 but leaves the video id marked, so every later request answers "Already processing" |
| AudioRoutes.DownloadStep | backend/routes/audioRoutes.js:109-155 | an unknown id gives "Download not found or expired"; the file is sent exactly when the entry is finished and its file exists; otherwise "File not found" and the entry is dropped |
| AudioRoutes.ExtractedFileDownloads | backend/routes/audioRoutes.js:70-136 | a freshly extracted file is served as an mp3 named after the video's title |
| AudioRoutes.Stream | backend/routes/audioRoutes.js:161-189 | rejected exactly when the url-or-id ladder fails; otherwise streams the resolved non-empty id |
| AudioRoutes.Router.constructor | backend/routes/audioRoutes.js:15 | the table starts empty |
| AudioRoutes.Router.Extract | backend/routes/audioRoutes.js:21-103 | 400 and 404 change nothing; otherwise the answer and the new table are the table step applied to the service's cached-or-fetched info, and the cache ends as getVideoInfo leaves it |
| AudioRoutes.Router.Download | backend/routes/audioRoutes.js:109-155 | the answer and the new table are the download step of the old table |
| Text.RunLength | backend/services/youtubeService.js:15 | a greedy character-class run: every character it covers is in the class and the next one, if any, is not |
| Text.Includes | app/api/youtube/route.ts:148-161 | `s.includes(lit)` holds exactly when `lit` occurs at some index |
| Text.FirstIncluded | app/api/youtube/route.ts:147-164 | an `if / else if` ladder of `includes` tests: the first key included, with none before it, or none at all |
| Text.NotIncludedWithoutFirstChar | components/url-input.tsx:144-158 | a text without a keyword's first character does not include the keyword |
| Text.Trim | components/url-input.tsx:61-71 | `trim()` is the infix left once white space is cut from both ends; it is empty exactly for blank input |
| Text.NatToString | components/url-input.tsx:126 | a number prints as its shortest decimal numeral, which reads back as the number |
| Text.Pad2 | components/player.tsx:92 | `padStart(2, '0')` pads on the left with zeros to two characters and keeps the text at the end |
| Text.Pad2Value | components/player.tsx:92 | a number below 100 padded to two digits still reads as that number |
| Text.ParseIntOfNatToString | backend/services/youtubeService.js:68 | `parseInt` of a printed number gives the number back |
| Search.LeftmostFrom | app/api/youtube/route.ts:18 | the first position from `from` where the pattern matches, with no match before it, or no match at all |
| Search.Exec | app/api/youtube/route.ts:18 | `s.match(pattern)` finds the leftmost match |
| Search.FirstMatch | app/api/youtube/route.ts:17-21 | the first pattern in the list that matches anywhere wins; a result exists exactly when some pattern matches |
| Search.LeftmostIs | app/api/youtube/route.ts:18 | a match with none before it is the leftmost one |
| Search.LiteralThenRun | components/url-input.tsx:46 | a literal then a greedy `(c+)` captures a non-empty run of the class, exactly when both are present |
| Search.FirstLiteralThenRun | components/url-input.tsx:45 | an alternation of literals then `(c+)` captures a non-empty run of the class |
| Media.AudioOnly | backend/services/youtubeService.js:54-55 | the service's filter keeps exactly the formats with audio and no video, in order |
| Media.YtdlAudioOnly | app/api/youtube/route.ts:44 | ytdl's `audioonly` filter keeps exactly the formats with audio, no video and a non-empty URL, in order |
| Media.YtdlFilterNarrows | app/api/youtube/route.ts:44 | ytdl's filter is the service's filter applied to the formats that have a URL |
| Media.AudioOnlyAppend | backend/services/youtubeService.js:54-55 | filtering a concatenation filters each part |
| Media.SortByBitrateDesc | app/api/youtube/route.ts:51-55 | the sort by `audioBitrate \|\| 0`, highest first, is a permutation of its input |
| Media.SortedHeadIsFirstMaximum | app/api/youtube/route.ts:51-55 | the stable sort's head is the first format of maximum bitrate |
| Media.FindMp4 | app/api/youtube/stream/route.ts:39 | `find` returns the first `mp4` format, or none exactly when no format is `mp4` |
| Clock.MinutesSeconds | components/player.tsx:90-92 | the `m:ss` clock of n seconds has two fields, seconds below 60, and reads back as n |
| Clock.ParseTwoFields | components/player.tsx:92 | `a:b` splits into its two numerals and reads as `60a + b` |
| Clock.TwoFieldClock | components/playlist.tsx:84-86 | the clock `q:ss` with seconds below 60 is well formed, has two fields and reads back as `60q + s` |
| Clock.HoursClock | backend/services/youtubeService.js:108-116 | the `h:mm:ss` clock of n seconds is well formed, has three fields and reads back as n |
| Clock.ParseThreeFields | backend/services/youtubeService.js:113-115 | `a:b:c` splits into its three numerals and reads as `3600a + 60b + c` |
| UrlInput.StartsWithJoin | components/url-input.tsx:36-38 | a string that starts with `a + b` starts with `a` and then holds `b`'s first character |
| UrlInput.WatchIsAnyHost | components/url-input.tsx:36-37 | every string the watch pattern accepts, the host pattern accepts |
| UrlInput.ShortIsAnyHost | components/url-input.tsx:36-38 | every string the short-link pattern accepts, the host pattern accepts |
| UrlInput.ValidationIsFirstPattern | components/url-input.tsx:34-41 | the link check holds exactly when the first pattern matches; the other two add nothing |
| UrlInput.WatchOrShortAt | components/url-input.tsx:45 | a watch or short form followed by a capture of `[\w-]+` |
| UrlInput.EmbedAt | components/url-input.tsx:46 | an embed form followed by a capture of `[\w-]+` |
| UrlInput.ExtractVideoId | components/url-input.tsx:43-54 | a result is a non-empty run of id characters, of any length |
| UrlInput.MatchShape | components/url-input.tsx:43-54 | whatever pattern wins, the capture is a non-empty run of id characters |
| UrlInput.NoClientFormBeforeY | components/url-input.tsx:45 | no watch or short form starts at a position that does not hold `y` |
| UrlInput.ClientLinkRoundTrip | components/url-input.tsx:43-54 | a watch or short link after a prefix without `y` gives back exactly the id run, however long |
| UrlInput.LinkAccepted | components/url-input.tsx:34-54 | a watch or short link behind any accepted scheme and `www.` prefix passes the check and gives its id |
| UrlInput.RouteRefusesOtherLengths | components/url-input.tsx:43-91 | a short link with an id that is not 11 characters gets past the form, and `/api/youtube` refuses it with "Invalid video ID format" |
| UrlInput.Verdict | components/url-input.tsx:61-65 | `isValid` is null exactly for blank input, and otherwise holds exactly when the link check holds |
| UrlInput.RetryAfterOr60 | components/url-input.tsx:98 | `retryAfter \|\| 60`: positive, and the server's value when it gives a non-zero one |
| UrlInput.OrElse | components/url-input.tsx:105-110 | `a \|\| b` on strings: `a` when it is non-empty, else `b` |
| UrlInput.RateLimitText | components/url-input.tsx:99 | the 429 message starts with "Rate limit exceeded" |
| UrlInput.BlockedText | components/url-input.tsx:105-106 | the 503 message starts with the server's error (or `undefined`) and a space |
| UrlInput.RefusalMessage | components/url-input.tsx:95-111 | 429 gives the rate-limit text, 503 the error and its suggestion, anything else the error, else the suggestion, else the fixed text |
| UrlInput.CaughtMessage | components/url-input.tsx:138-159 | rate-limit and blocking messages are kept; the next four keywords give fixed messages; others are kept; a non-Error gives the fixed text |
| UrlInput.KeptWhenLeadingKey | components/url-input.tsx:144-147 | a message holding either of the first two keywords is shown unchanged |
| UrlInput.RateLimitShown | components/url-input.tsx:97-145 | a 429 reply shows the rate-limit sentence with the server's wait, or 60 seconds |
| UrlInput.BlockingShown | components/url-input.tsx:103-147 | a 503 reply whose error says YouTube is blocking is shown with its suggestion appended |
| UrlInput.BuildTrack | components/url-input.tsx:113-122 | the track carries the id, title, audio URL, thumbnail, the typed link and the time; the artist is the reply's non-empty author, else "Unknown Artist"; the duration is the reply's non-zero duration, else 0 |
| UrlInput.SubmitOutcome | components/url-input.tsx:68-166 | rejected exactly when the link fails the check or has no id; added exactly when the request answers with success; otherwise the caught message |
| UrlInput.LinkHasY | components/url-input.tsx:36 | every link the host pattern accepts contains a `y` |
| UrlInput.BlankIsNoLink | components/url-input.tsx:71-79 | blank input never passes the link check |
| UrlInput.AfterAdd | components/url-input.tsx:125-132 | with a current playlist the track is appended to it; with none, "Playlist n+1" is appended holding only the track and becomes current; every earlier playlist with the current id is replaced by the updated one and every other playlist is kept |
| UrlInput.FileTrack | components/url-input.tsx:125-132 | the store's playlists end as AfterAdd says; playback and UI state are unchanged |
| UrlInput.Form.constructor | components/url-input.tsx:20-22 | an empty box, no verdict, no spinner |
| UrlInput.Form.UrlChanged | components/url-input.tsx:56-66 | keeps the text, clears the store's error and shows the verdict |
| UrlInput.Form.Submit | components/url-input.tsx:68-166 | the result is SubmitOutcome; a rejection changes nothing; a failure stores its message; a success files the track, clears the error and empties the box; the spinner ends off |
| Library.ModeIndex | components/player.tsx:235-236 | `modes.indexOf(mode)` finds the mode in `['none', 'one', 'all']` |
| Library.NextRepeatMode | components/player.tsx:234-239 | the next mode always differs from the current one |
| Library.RepeatCycle | components/player.tsx:234-239 | the cycle is none → one → all → none, so three presses change nothing |
| Library.NewPlaylist | store/playerSlice.ts:182-188 | the new playlist has the name, no tracks, both times `now`, and an id that reads back as `now` |
| Library.FindTrackIndex | store/playerSlice.ts:148 | `findIndex`: the first index holding the id, or -1 exactly when no track has it |
| Library.FindPlaylistIndex | store/playerSlice.ts:110 | `findIndex` over playlists: the first index holding the id, or -1 exactly when none has it |
| Library.FindTrack | store/playerSlice.ts:137 | `find` gives the track at `findIndex`, or nothing exactly when it is -1 |
| Library.WithoutTrack | store/playerSlice.ts:128 | the filter keeps exactly the tracks with another id |
| Library.WithoutTrackAppend | store/playerSlice.ts:128 | the filter keeps the survivors in order: it distributes over concatenation |
| Library.WithoutAbsentTrack | store/playerSlice.ts:128 | removing an id no track carries changes nothing |
| Library.WithoutPlaylist | store/playerSlice.ts:194 | the filter keeps exactly the playlists with another id |
| Library.WithTrackAdded | store/player-store.ts:126-130 | the playlist keeps its id, name and creation time, gains the track at the end and is stamped `now` |
| Library.WithTrackRemoved | store/player-store.ts:144-148 | the playlist keeps its id, name and creation time, keeps exactly the tracks with another id and is stamped `now` |
| Library.AddToFirst | store/playerSlice.ts:201-205 | only the first playlist with the id gains the track; nothing changes when none has it |
| Library.RemoveFromFirst | store/playerSlice.ts:209-213 | only the first playlist with the id loses the track; nothing changes when none has it |
| Library.RemoveKeepsSynced | store/playerSlice.ts:126-130 | when the current playlist is the list's first entry with its id, removal keeps it at that index, filtered, and the two stay in step |
| Library.ReplaceMatching | store/player-store.ts:134-136 | every playlist with the id is replaced, the others are kept |
| Library.AddToMatching | store/player-store.ts:236-244 | every playlist with the id gains the track, the others are kept |
| Library.RemoveFromMatching | store/player-store.ts:250-258 | every playlist with the id loses the track, the others are kept |
| Library.FirstAndMatchingAgree | store/playerSlice.ts:199-214 | with distinct playlist ids, the slice's first-match update and the store's map-all update agree |
| Library.MatchingAbsent | store/player-store.ts:234-260 | when no playlist has the id, the mapped list is unchanged |
| Library.NextIndex | store/playerSlice.ts:145-168 | the index `playNext` moves to is in range, and there is none when the current track is not found |
| Library.NextIndexOfPosition | store/playerSlice.ts:152-162 | with distinct ids: repeat-one stays, repeat-all wraps from the last track to the first, and no repeat stops at the end |
| Library.NextIndexAt | store/playerSlice.ts:152-162 | the same step for a track found at its own position |
| Library.FindDistinct | store/playerSlice.ts:148 | with distinct ids, each track is found at its own position |
| Library.DuplicateReturnsAfterFirstCopy | store/playerSlice.ts:148-161 | a track listed twice sends `playNext` from its second copy back to the track after the first copy |
| Library.PrevIndex | store/playerSlice.ts:169-179 | one back from the current position, and none exactly when the track is first or not found: it never wraps |
| Library.PrevIndexAtStart | store/playerSlice.ts:173 | from the first track there is nowhere back to go |
| Library.WithoutId | store/playerSlice.ts:221 | the filter keeps exactly the other ids |
| Library.ToggleMember | store/playerSlice.ts:218-225 | the id is liked afterwards exactly when it was not before; other ids keep their state |
| Library.WithoutIdKeepsNoDuplicates | store/playerSlice.ts:221 | filtering keeps a duplicate-free list duplicate-free |
| Library.ToggleKeepsNoDuplicates | store/playerSlice.ts:218-225 | toggling keeps a duplicate-free list duplicate-free |
| Library.ToggleTwice | store/playerSlice.ts:218-225 | toggling twice gives back the same set of liked ids |
| Library.ToggleTwiceRestores | store/playerSlice.ts:218-225 | liking an unliked id and unliking it gives back exactly the list |
| Library.WithoutAbsentIdAppend | store/playerSlice.ts:221-223 | pushing an absent id and then filtering it out gives back the list |
| Library.TotalDurationAppend | components/playlist.tsx:161 | the summed duration of a concatenation is the sum of the parts |
| Library.TotalWithoutTrack | components/playlist.tsx:161 | removing tracks by id lowers the total by exactly their durations |
| PlayerSlice.Player.constructor | store/playerSlice.ts:48-65 | the initial state: nothing playing, volume full, no playlists, no likes, hidden, no error |
| PlayerSlice.Player.SetCurrentTrack | store/playerSlice.ts:71-77 | sets the track and restarts at 0; a track shows the player, null leaves it as it was |
| PlayerSlice.Player.SetCurrentTrackAndPlay | store/playerSlice.ts:78-85 | as SetCurrentTrack, and playing exactly when a track is given |
| PlayerSlice.Player.SetIsPlaying | store/playerSlice.ts:86-88 | sets the one field, nothing else changes |
| PlayerSlice.Player.SetCurrentTime | store/playerSlice.ts:89-91 | sets the one field, nothing else changes |
| PlayerSlice.Player.SetDuration | store/playerSlice.ts:92-94 | sets the one field, nothing else changes |
| PlayerSlice.Player.SetVolume | store/playerSlice.ts:95-97 | sets the one field, nothing else changes |
| PlayerSlice.Player.SetIsMuted | store/playerSlice.ts:98-100 | sets the one field, nothing else changes |
| PlayerSlice.Player.SetIsShuffled | store/playerSlice.ts:101-103 | sets the one field, nothing else changes |
| PlayerSlice.Player.SetRepeatMode | store/playerSlice.ts:104-106 | sets the one field, nothing else changes |
| PlayerSlice.Player.AddTrack | store/playerSlice.ts:107-122 | no-op without a current playlist; otherwise the track joins the first matching playlist, which becomes current again; an idle player starts it; the player is shown |
| PlayerSlice.Player.PushOntoCurrent | store/playerSlice.ts:110-115 | the playlist half of `addTrack` |
| PlayerSlice.Player.StartIfIdle | store/playerSlice.ts:116-120 | the player half of `addTrack`: an idle player starts the track, and is shown |
| PlayerSlice.Player.RemoveTrack | store/playerSlice.ts:123-133 | no-op without a current playlist; otherwise every track with the id leaves the first matching playlist, which becomes current again |
| PlayerSlice.Player.PlayTrack | store/playerSlice.ts:134-144 | plays the current playlist's first track with the id from 0, or changes nothing |
| PlayerSlice.Player.PlayNext | store/playerSlice.ts:145-168 | moves to the NextIndex track, playing from 0, or changes nothing; only playback fields change |
| PlayerSlice.Player.PlayPrevious | store/playerSlice.ts:169-179 | moves to the PrevIndex track, playing from 0, or changes nothing |
| PlayerSlice.Player.CreatePlaylist | store/playerSlice.ts:180-191 | appends one empty playlist and makes it current |
| PlayerSlice.Player.DeletePlaylist | store/playerSlice.ts:192-198 | removes every playlist with the id; the current one is cleared exactly when it has the id |
| PlayerSlice.Player.AddTrackToPlaylist | store/playerSlice.ts:199-206 | only the first playlist with the id gains the track; the current playlist is untouched |
| PlayerSlice.Player.RemoveTrackFromPlaylist | store/playerSlice.ts:207-214 | only the first playlist with the id loses the track; the current playlist is untouched |
| PlayerSlice.Player.SetCurrentPlaylist | store/playerSlice.ts:215-217 | sets the current playlist, nothing else changes |
| PlayerSlice.Player.ToggleLikedTrack | store/playerSlice.ts:218-225 | the liked list becomes ToggleMember of the old one; nothing else changes |
| PlayerSlice.Player.IncrementDownloadCount | store/playerSlice.ts:226-228 | the count goes up by exactly 1; nothing else changes |
| PlayerSlice.Player.SetIsPlayerVisible | store/playerSlice.ts:229-231 | sets the one UI field |
| PlayerSlice.Player.SetIsPlaylistVisible | store/playerSlice.ts:232-234 | sets the one UI field |
| PlayerSlice.Player.SetIsLoading | store/playerSlice.ts:235-237 | sets the one UI field |
| PlayerSlice.Player.SetError | store/playerSlice.ts:238-240 | sets the one UI field |
| PlayerSlice.Player.ClearError | store/playerSlice.ts:241-243 | the error becomes null, nothing else changes |
| PlayerSlice.Player.ResetPlayer | store/playerSlice.ts:244-251 | clears track, playing, time, duration, visibility and error; keeps the volume, mute, shuffle, repeat, playlists, likes and download count |
| PlayerStore.Partialize | store/player-store.ts:289-296 | the persisted object holds exactly the volume, mute, shuffle, repeat mode, playlists and current playlist |
| PlayerStore.PartializeIgnoresPlayback | store/player-store.ts:289-296 | two states that agree on the persisted fields persist the same thing, whatever they are playing |
| PlayerStore.Store.constructor | store/player-store.ts:83-98 | the initial state: nothing playing, volume full, no playlists, hidden, no error |
| PlayerStore.Store.SetCurrentTrack | store/player-store.ts:101-106 | sets the track and restarts at 0; a track shows the player, null leaves it as it was; nothing persisted changes |
| PlayerStore.Store.SetIsPlaying | store/player-store.ts:108 | sets the one field; nothing persisted changes |
| PlayerStore.Store.SetCurrentTime | store/player-store.ts:110 | sets the one field; nothing persisted changes |
| PlayerStore.Store.SetDuration | store/player-store.ts:112 | sets the one field; nothing persisted changes |
| PlayerStore.Store.SetVolume | store/player-store.ts:114 | sets the one field, and the persisted volume with it |
| PlayerStore.Store.SetIsMuted | store/player-store.ts:116 | sets the one field, and the persisted flag with it |
| PlayerStore.Store.SetIsShuffled | store/player-store.ts:118 | sets the one field, and the persisted flag with it |
| PlayerStore.Store.SetRepeatMode | store/player-store.ts:120 | sets the one field, and the persisted mode with it |
| PlayerStore.Store.AddTrack | store/player-store.ts:123-139 | no-op without a current playlist; otherwise the current playlist plus the track replaces it and every playlist with its id; what is playing never changes |
| PlayerStore.Store.RemoveTrack | store/player-store.ts:141-157 | no-op without a current playlist; otherwise the current playlist without the id's tracks replaces it and every playlist with its id |
| PlayerStore.Store.PlayTrack | store/player-store.ts:159-167 | plays the current playlist's first track with the id from 0, or changes nothing |
| PlayerStore.Store.PlayNext | store/player-store.ts:169-195 | moves to the NextIndex track, playing from 0, or changes nothing, the same rule as the slice |
| PlayerStore.Store.PlayPrevious | store/player-store.ts:197-209 | moves to the PrevIndex track, playing from 0, or changes nothing |
| PlayerStore.Store.CreatePlaylist | store/player-store.ts:212-225 | appends one empty playlist and makes it current |
| PlayerStore.Store.DeletePlaylist | store/player-store.ts:227-232 | removes every playlist with the id; the current one is cleared exactly when it has the id |
| PlayerStore.Store.AddTrackToPlaylist | store/player-store.ts:234-246 | every playlist with the id gains the track; the current playlist is untouched |
| PlayerStore.Store.RemoveTrackFromPlaylist | store/player-store.ts:248-260 | every playlist with the id loses the track's copies; the current playlist is untouched |
| PlayerStore.Store.SetCurrentPlaylist | store/player-store.ts:262 | sets the current playlist, nothing else changes |
| PlayerStore.Store.SetIsPlayerVisible | store/player-store.ts:265 | sets the one UI field |
| PlayerStore.Store.SetIsPlaylistVisible | store/player-store.ts:267 | sets the one UI field |
| PlayerStore.Store.SetIsLoading | store/player-store.ts:269 | sets the one UI field |
| PlayerStore.Store.SetError | store/player-store.ts:271 | sets the one UI field |
| PlayerStore.Store.ClearError | store/player-store.ts:274 | the error becomes null, nothing else changes |
| PlayerStore.Store.ResetPlayer | store/player-store.ts:276-285 | clears track, playing, time, duration, visibility and error; nothing persisted changes |
| PlayerView.Audio.constructor | components/player.tsx:73 | a fresh element: at 0, full volume, paused |
| PlayerView.FormatTime | components/player.tsx:88-100 | "0:00" for NaN; otherwise an `m:ss` clock that reads back as the time |
| PlayerView.ShortTimesAgree | components/player.tsx:88-100 | below an hour the player's clock and the server's `formatDuration` agree; from an hour on the server adds an hours field |
| PlayerView.EffectiveVolume | components/player.tsx:191 | the element's volume is never above the setting; it is 0 exactly when muted or set to 0; unmuted it is the setting |
| PlayerView.ApplyVolume | components/player.tsx:188-192 | with an element, its volume becomes the effective volume and nothing else about it changes |
| PlayerView.HandleEnded | components/player.tsx:121-128 | under repeat-one with an element it restarts from 0 and the store is left alone; otherwise the store takes the `playNext` step |
| PlayerView.HandleVolumeChange | components/player.tsx:216-224 | the volume becomes the slider value, and the player ends muted exactly when it is 0 |
| PlayerView.SliderIsHeard | components/player.tsx:191-224 | after the slider moves, the element plays at exactly the slider's value |
| PlayerView.ToggleMute | components/player.tsx:226-228 | flips the mute flag, nothing else |
| PlayerView.ToggleShuffle | components/player.tsx:230-232 | flips the shuffle flag, nothing else |
| PlayerView.ToggleRepeatMode | components/player.tsx:234-239 | the repeat mode moves one step along the cycle and always changes |
| PlayerView.HandlePlayPause | components/player.tsx:241-244 | no-op without a track; otherwise flips play and pause |
| PlayerView.HandleClose | components/player.tsx:250-252 | hides the player; what is playing is untouched |
| PlaylistView.HandleTrackClick | components/playlist.tsx:89-96 | the row's playing mark always flips; on the current track play and pause swap; another track becomes current from 0 and plays |
| PlaylistView.ToggleSelection | components/playlist.tsx:98-106 | the id is selected afterwards exactly when it was not; the others keep their state |
| PlaylistView.SelectTwiceRestores | components/playlist.tsx:98-106 | ticking a row twice gives back the same selection |
| PlaylistView.Panel.constructor | components/playlist.tsx:39 | nothing selected |
| PlaylistView.Panel.HandleTrackSelect | components/playlist.tsx:98-106 | the selection becomes ToggleSelection of the old one |
| PlaylistView.Panel.HandleRemoveSelected | components/playlist.tsx:137-143 | the selection ends empty and the count is its old size; when the current playlist is in step with the list, it keeps its id and name and holds exactly its old tracks whose id was not selected; playback, UI and stats are untouched |
| HeaderView.Header.constructor | components/header.tsx:108-109 | an empty name and a closed dialog |
| HeaderView.Header.HandleCreatePlaylist | components/header.tsx:132-138 | a blank name changes nothing; otherwise the trimmed name becomes a new current playlist, the field is cleared and the dialog closed |
| HeaderView.ToggleRepeatMode | components/header.tsx:140-145 | the repeat mode moves one step along the cycle, nothing else changes |

## Left out

- ytdl-core's `getInfo`, `filterFormats` and `validateID` are library calls. `getInfo` is a parameter (a function from attempt number to outcome). `filterFormats(…, 'audioonly')` is written out as the library defines it: audio, no video and a non-empty `url`. The sleeps are the returned list of delays.
- The byte streaming of the stream route, ffmpeg conversion and `backend/services/audioService.js` are event-driven I/O and are not part of this model. The audio routes take the extraction outcome and the download id as parameters; `generateDownloadId` hashes the clock.
- The five-second clean-up timer after a download (`backend/routes/audioRoutes.js:143-148`) is a timer with file I/O.
- `backend/server.js` and `backend/routes/healthRoutes.js` are middleware set-up, rate-limit library configuration and process introspection, and are not part of this model.
- `getDownloadOptions` and the `/formats` route (`backend/routes/videoRoutes.js:78-94`) build megabyte sizes with floating-point `toFixed`.
- The NodeCache is a map from key to entry and expiry time; its own eviction and statistics are not modelled.
- Volume is a whole number of hundredths (0 to 100), not a float. The progress bar's percentage and the slider's float parsing are left out.
- Times and durations are whole seconds, with `Math.floor` applied; a `NaN` duration is `None`. `handleTimeUpdate`, `handleLoadedMetadata` and `handleProgressChange` in `components/player.tsx` only copy the element's float times into the store, through the modelled setters.
- `handleError`, `handleLoadStart` and `handleCanPlay` in `components/player.tsx` set the store's `isPlaying`/`isLoading` through the modelled setters. The console logging is left out.
- The player's effects that call the element's asynchronous `play()`, `pause()` and `load()` on a change of track or play state are left out; the element is only the three fields the handlers write.
- `handleMinimizeToggle` flips a local display flag only.
- `components/player.tsx` imports `usePlayerActions` from `store/player-store.ts` and calls it on every render, but that file does not export it, so the player bar cannot render as written. The PlayerView handlers are modelled as if the component rendered. `handleLikeToggle` is left out; liking is modelled by the slice's `toggleLikedTrack`.
- `handleRemoveTrack`, `handleTrackLike` and `handleTrackDownload` in `components/playlist.tsx` dispatch one modelled reducer each, plus DOM download links and toasts.
- Toasts, theme switching, outside-click listeners, rendering and animation are left out.
- `Date` values (`addedAt`, `createdAt`, `updatedAt`) and `Date.now()`-based playlist ids are a number `now` that the caller supplies.
- The zustand store's track has an optional `artist`; the model uses the one track record of the slice for both stores.
- Reply bodies are modelled as the fields the code sets, with strings for messages; JSON serialisation is not modelled.
- Clock.MinutesSeconds: a negative or fractional number of seconds is not modelled, because times are whole seconds.
- UrlInput.Form.Submit: the failure path clears the error and then sets it, and the model keeps only the final state. On a 503 reply, `retryAfter || 300` is computed but never used in the message, so it is not modelled.
- PlaylistView.Panel.HandleRemoveSelected: the order in which the set's ids are removed is not modelled, and the contents of the current playlist are stated only when it is in step with its copy in the playlist list.
- YouTubeRoute.Get: the loop's `NoAttempt` outcome cannot occur with `maxRetries` 5 and is answered like the `undefined` the source would return.
- YouTubeService.DurationFormatted: a `lengthSeconds` text other than a decimal numeral prints "NaN:NaN", though JavaScript's number conversion also accepts white space around the digits, a sign, a fraction, an exponent or a hexadecimal numeral.
- AudioRoutes.Router.Extract: the conversion's `await` is treated as one step. A second request that arrives while a conversion is running would see the `processing` entry, but the model does not interleave requests. AudioRoutes.AlreadyProcessingStartsNothing states what such a request gets.
- YouTubeRoute.Post: a body whose `url` is not a string, or a `null` body, is not modelled; the body is unparsable, or an object whose `url` is a string or absent.
