# GrooveBox core, modelled in Dafny

GrooveBox is a shared-jukebox web application. Guests sign in and queue songs on the
host's Spotify account; an administrator controls playback and the main playlist.
This project models and proves properties of the parts of it that carry logic:

- **Song-addition rate limiter** (`rate_limit.dfy`, `rate_limit_trace.dfy`). The
  in-memory table maps each user to their admission timestamps. The
  `songAdditionRateLimit` middleware either admits a guest's queue request or
  answers 429. The periodic sweep purges expired entries. The class
  `SongAdditionLimiter` holds the table as a `map<string, seq<int>>`. Its `Check`
  and `Sweep` methods update it in place and are proved equal to the pure
  functions `Guard` and `Swept`, whose contracts and lemmas state the policy. A
  whole-run theorem replays any chronological sequence of requests and sweeps. It
  proves that no user is ever admitted more than three times within any one-hour
  window.
- **Refresh-once wrapper** (`spotify_api.dfy`). A `SpotifyClient` holds the
  user's tokens and counts calls and refreshes. `WithTokenRefresh` runs one call;
  on a 401 it refreshes once (the OAuth 2.0 refresh grant, section 6 of RFC
  6749), writes the new token into the session, and retries once. It is proved
  equal to the state machine `Protocol`. The outcomes of the calls and of the
  grant are parameters.
- **Authentication gates** (`auth.dfy`, `sessions.dfy`). These are the admin
  gate, the Spotify token gate and the admin-code check. The check writes
  `req.session.isAdmin`; the session is a class.
- **Client helpers** (`spotify_helpers.dfy`, `formatters.dfy`, `numbers.dfy`).
  These cover URI building and parsing, image choice, error texts, the
  rate-limit countdown, and time, number, popularity and album-type formatting.
  All of them are pure functions. `numbers.dfy` holds the JavaScript
  number-to-text conversions they share: `toString`, `padStart`, `repeat`,
  `Math.ceil` of a quotient, and the truncating `%`.
- **Redux reducers** (`queue_slice.dfy`, `playback_slice.dfy`,
  `playlist_slice.dfy`, `auth_slice.dfy`, `ui_slice.dfy`). Each slice is a class
  whose fields are the slice's state. Each reducer is a method that states the
  entire new state as the old state with the named fields replaced. The pending
  and rejected cases of all thunks of a slice are identical, so each slice has
  one `Pending` and one `Rejected` method.

JavaScript's falsy values are modelled explicitly. An absent object or number is
`None`. An absent or empty string is `""`. A number `0` is tested wherever the
source tests truthiness. `Date.now()` is the parameter `now`.

Details of the rate limiter and the admin check:

- A rejected request's 429 body carries no `remaining` field.
- An admitted request reports `resetTime = now + 1h`, not the expiry of its
  oldest entry.
- `verifyAdminCode` uses strict equality against the configured code. When no
  code is configured, a request without a code matches.
- The admin bypass lives inside the rate-limit middleware, not in its caller.

## Model

| member | source | states |
|---|---|---|
| RateLimit.Recent | backend/middleware/rateLimit.js:45-47 | only entries less than an hour old are kept, and none is invented |
| RateLimit.RecentCounts | backend/middleware/rateLimit.js:45-47 | each in-window timestamp keeps its multiplicity; each expired one is gone |
| RateLimit.RecentAppend | backend/middleware/rateLimit.js:45-47 | the window filter distributes over concatenation, so order is kept |
| RateLimit.RecentRecent | backend/middleware/rateLimit.js:16-18 | filtering at an earlier time, then at a later one, equals filtering once at the later one |
| RateLimit.Oldest | backend/middleware/rateLimit.js:52 | `Math.min(...recent)` is an element of the list and no larger than any element |
| RateLimit.Guard | backend/middleware/rateLimit.js:29-76 | admins pass and the table is untouched; no userId gives 401 and the table is untouched; next() is called iff admin or fewer than 3 recent entries; a rejection reports the recent count, resetTime = oldest + 1h > now and a message quoting the minutes to wait, at least one, without writing; an admission stores the recent entries plus now (at most 3), reports Quota(len, 3 - len, now + 1h) with remaining in 0..2, and changes no other user's entry |
| RateLimit.Decide | backend/middleware/rateLimit.js:50-75 | for in-window entries, admits iff fewer than 3, otherwise rejects |
| RateLimit.Swept | backend/middleware/rateLimit.js:12-26 | after a sweep no expired timestamp and no empty user remains, and no user is added |
| RateLimit.SweepKeepsLive | backend/middleware/rateLimit.js:14-24 | a sweep never drops a timestamp that is still in the window |
| RateLimit.SweptLookup | backend/middleware/rateLimit.js:14-24 | a user's entry after a sweep is their entry filtered to the window |
| RateLimit.SweepPreservesDecisions | backend/middleware/rateLimit.js:12-47 | a sweep at or before a request's time never changes the answer to that request |
| RateLimit.AdmitWhileRoom | backend/middleware/rateLimit.js:65-73 | a guest with fewer than three live entries is admitted and now is appended |
| RateLimit.ThreeAtOnceAdmitted | backend/middleware/rateLimit.js:41-66 | three requests at the same instant are all recorded; there is no de-duplication |
| RateLimit.FourthAtOnceLimited | backend/middleware/rateLimit.js:50-61 | a fourth request at that instant gets "You can add another song in 60 minutes", songsAdded 3 and resetTime t0 + 1h |
| RateLimit.SixtyMinutesText | backend/middleware/rateLimit.js:58 | the wait message for a full hour says 60 minutes |
| RateLimit.AdmittedAfterTheHour | backend/middleware/rateLimit.js:45-73 | one millisecond after the hour the guest is admitted with songsAdded 1 and remaining 2 |
| RateLimit.SongAdditionLimiter.Check | backend/middleware/rateLimit.js:29-76 | the in-place update of the table yields exactly Guard's answer and table, and keeps every user at 1 to 3 entries |
| RateLimit.SongAdditionLimiter.Sweep | backend/middleware/rateLimit.js:12-26 | the in-place sweep loop with set/delete yields exactly Swept's table and keeps the same invariant |
| RateLimitTrace.StoreMatchesHistory | backend/middleware/rateLimit.js:9-76 | after any chronological run, at any later instant, a user's stored entries that are still live are exactly their admissions that are still live |
| RateLimitTrace.AtMostThreePerHour | backend/middleware/rateLimit.js:41-66 | in any chronological run of requests and sweeps, a user is admitted at most 3 times in any one-hour window |
| RateLimitTrace.BetweenWithinRecent | backend/middleware/rateLimit.js:45-47 | at any instant inside an hour-long span, the admissions in that span are no more than the entries still counting then |
| SpotifyApi.Protocol | backend/utils/spotifyApi.js:59-73 | 1 or 2 calls and at most 1 refresh; refresh iff the first call failed with 401; the callback fires iff that refresh succeeded, with its token; a retry happens iff the callback fired, and then the retry's result is returned; a failed refresh returns its error; otherwise the first result |
| SpotifyApi.SpotifyClient.constructor | backend/utils/spotifyApi.js:28-33 | the client holds the given access and refresh tokens |
| SpotifyApi.SpotifyClient.RefreshAccessToken | backend/utils/spotifyApi.js:40-50 | on success the client's access token becomes the new one; on failure it is unchanged and the error is rethrown |
| SpotifyApi.SpotifyClient.Call | backend/utils/spotifyApi.js:61 | one run of apiCall through the client, counted |
| SpotifyApi.WithTokenRefresh | backend/utils/spotifyApi.js:59-73 | result, call count, refresh count and client token are those of Protocol; the session receives the new token only via the callback; the refresh token never changes; a session in sync with the client stays in sync |
| Auth.AuthenticateAdmin | backend/middleware/auth.js:7-13 | next() iff the session is an admin's, otherwise 401 "Unauthorized: Admin access required" |
| Auth.AuthenticateSpotify | backend/middleware/auth.js:16-22 | next() iff the session has a non-empty access token, otherwise 401 "Unauthorized: Spotify authentication required" |
| Auth.VerifyAdminCode | backend/middleware/auth.js:25-34 | next() iff the code strictly equals the configured one, which makes the session an admin's so that the admin gate passes; otherwise 401 "Invalid admin code" and the session is unchanged |
| Auth.CodeMatchesExactly | backend/middleware/auth.js:29 | a configured code is matched only by that exact string; an unset code only by an absent one |
| SpotifyHelpers.SortByWidthCorrect | frontend/src/utils/spotifyHelpers.js:17 | the sorted copy is a permutation of the images, widest first |
| SpotifyHelpers.InsertKeepsEntries | frontend/src/utils/spotifyHelpers.js:17 | one insertion step of the sort adds exactly the inserted image |
| SpotifyHelpers.InsertKeepsOrder | frontend/src/utils/spotifyHelpers.js:17 | one insertion step keeps a widest-first list widest first |
| SpotifyHelpers.GetBestImage | frontend/src/utils/spotifyHelpers.js:11-29 | the default cover when the item, its images or all images are missing; otherwise the url at index 0, the last index or n/2 of the sorted copy, with the `||` fallback |
| SpotifyHelpers.BestImageIsOneOfTheImages | frontend/src/utils/spotifyHelpers.js:17-28 | for any size, the chosen url belongs to one of the item's images |
| SpotifyHelpers.LargeIsWidest | frontend/src/utils/spotifyHelpers.js:23-24 | 'large' picks a url of an image no narrower than any other |
| SpotifyHelpers.SmallIsNarrowest | frontend/src/utils/spotifyHelpers.js:21-22 | 'small' picks a url of an image no wider than any other, when that image has a url |
| SpotifyHelpers.LastSegment | frontend/src/utils/spotifyHelpers.js:39-40 | the last part of split(':') has no ':', is a suffix of the input, and is preceded by ':' unless it is the whole input |
| SpotifyHelpers.ExtractIdFromUri | frontend/src/utils/spotifyHelpers.js:36-41 | '' for an empty uri; otherwise the colon-free text after the last ':' |
| SpotifyHelpers.CreateSpotifyUri | frontend/src/utils/spotifyHelpers.js:49-53 | '' exactly for an empty id; otherwise "spotify:", the type ('track' when omitted), ':' and the id |
| SpotifyHelpers.UriRoundTrip | frontend/src/utils/spotifyHelpers.js:36-53 | extracting the id from a created uri gives back the id, for any type and any non-empty colon-free id |
| SpotifyHelpers.IsTrackPlaying | frontend/src/utils/spotifyHelpers.js:82-86 | false without a track or an id; otherwise true iff the track uri's id equals the given id; never true for an id containing ':' |
| SpotifyHelpers.PlayingByOwnId | frontend/src/utils/spotifyHelpers.js:49-86 | a track built from an id is playing by that id and by no other |
| SpotifyHelpers.GetSpotifyErrorMessage | frontend/src/utils/spotifyHelpers.js:93-110 | never empty; in priority order: no error, the provider message, the 401/403/429 texts, the error's message, the generic text |
| SpotifyHelpers.FormatExplicitContent | frontend/src/utils/spotifyHelpers.js:117-119 | "E" iff explicit, otherwise empty |
| SpotifyHelpers.GetIconForType | frontend/src/utils/spotifyHelpers.js:126-139 | one of four icons; album, artist and playlist each have their own; everything else gets the note |
| SpotifyHelpers.CalculateRateLimitRemaining | frontend/src/utils/spotifyHelpers.js:146-157 | '' without a (truthy) reset time; "You can add songs now" once it has passed; otherwise m >= 1 minutes with (m-1) min < remaining <= m min, and 'minute' singular iff m is 1 |
| Numbers.NatToString | frontend/src/utils/formatters.js:17 | a non-empty digit string without a leading zero, one digit iff below 10 |
| Numbers.ParseNatToString | frontend/src/utils/formatters.js:17 | the decimal text of n reads back as n |
| Numbers.ParsePadded | frontend/src/utils/formatters.js:95 | zero-padding keeps the value the digits read as |
| Numbers.PadStart | frontend/src/utils/formatters.js:17 | the input unchanged when long enough, otherwise exactly width long; ends with the input, preceded only by the pad character |
| Numbers.CeilDiv | frontend/src/utils/spotifyHelpers.js:155 | `Math.ceil(a / b)`: the least q with a <= q*b |
| Numbers.JsRem | frontend/src/utils/formatters.js:15 | JavaScript's `%`: sign of the dividend, magnitude below the divisor, and a = b*trunc(a/b) + r |
| Formatters.FormatTime | frontend/src/utils/formatters.js:10-18 | "0:00" for a missing or zero value; for positive ms, whole minutes, ':' and the leftover seconds as two digits; a negative value prints with a leading '-' (its exact text is not stated) |
| Formatters.FormatTimeReadsBack | frontend/src/utils/formatters.js:10-18 | for ms >= 0 the text is minutes ':' two digits below 60, and minutes*60 + seconds = floor(ms/1000) |
| Formatters.FormatTimeShape | frontend/src/utils/formatters.js:10-18 | zero prints like the positive durations: "0:00" is minutes 0, ':', seconds 00 |
| Formatters.FormatDuration | frontend/src/utils/formatters.js:66-68 | equal to FormatTime on every input |
| Formatters.Join | frontend/src/utils/formatters.js:28 | the joined length is the names' total plus one separator between each pair |
| Formatters.FormatArtistNames | frontend/src/utils/formatters.js:25-29 | '' for a non-array; otherwise the names, in order, joined by ', ' |
| Formatters.ArtistNamesAppend | frontend/src/utils/formatters.js:28 | one more artist adds ', ' and the name at the end |
| Formatters.Prefix | frontend/src/utils/formatters.js:42 | `substring(0, end)` clamps end into 0..length and returns that prefix |
| Formatters.TruncateString | frontend/src/utils/formatters.js:37-43 | '' for an empty string; unchanged when within maxLength (default 30); otherwise a prefix of the input followed by "...", exactly maxLength long when maxLength >= 3 and just "..." below that |
| Formatters.FormatTrackNumber | frontend/src/utils/formatters.js:92-96 | '' for a missing or zero number; otherwise at least two characters |
| Formatters.TrackNumberReadsBack | frontend/src/utils/formatters.js:92-96 | a positive track number is a digit string that reads back as the number; two characters below 100 |
| Formatters.Stars | frontend/src/utils/formatters.js:107 | the two repeats succeed iff the star count is 0..5 |
| Formatters.FormatPopularity | frontend/src/utils/formatters.js:103-108 | '' for a missing value; a RangeError unless -10 <= p < 110 |
| Formatters.PopularityStars | frontend/src/utils/formatters.js:103-108 | for 0..100: exactly five characters, full stars first, their number the popularity to the nearest 20 points |
| Formatters.CommasBefore | frontend/src/utils/formatters.js:118 | the regex on the digits after the first adds one ',' per three of them: the length grows by a third, rounded down |
| Formatters.FormatNumberWithCommas | frontend/src/utils/formatters.js:115-119 | '' for a missing value; a negative number keeps its leading '-' (exact for integers below 2^53 in magnitude) |
| Formatters.InsertCommasGroups | frontend/src/utils/formatters.js:118 | the regex replacement equals grouping the digits by three from the right |
| Formatters.CommasRoundTrip | frontend/src/utils/formatters.js:115-119 | for every integer below 2^53 in magnitude, deleting the commas gives back its plain decimal text: the digits that read as its magnitude, after '-' when negative |
| Formatters.FormatRelativeTime | frontend/src/utils/formatters.js:126-149 | '' for a missing timestamp; elapsed seconds below 60 give "just now"; then whole minutes below 1 h, hours below 1 day, days below 30 days, 30-day months below 360 days, and years, each with 's' unless the count is 1 |
| Formatters.DivDiv | frontend/src/utils/formatters.js:135-147 | the chained floors equal one floor by the product of the units |
| Formatters.ToLower | frontend/src/utils/formatters.js:84 | lower-casing maps every character and keeps the length |
| Formatters.FormatAlbumTypeAsWritten | frontend/src/utils/formatters.js:75-85 | the lookup on the object literal, inherited members included: known types give their display name |
| Formatters.InheritedKeysAreNotText | frontend/src/utils/formatters.js:78-84 | types that lower-case to "constructor" or "__proto__" yield an inherited member, not a text |
| Formatters.AlbumTypeConstructorIsNotText | frontend/src/utils/formatters.js:78-84 | "constructor" is such a type |
| Formatters.FormatAlbumType | frontend/src/utils/formatters.js:75-85 | '' for ''; the display name of album, single or compilation in any letter case; any other type as given |
| Formatters.AlbumTypeAgreesOnText | frontend/src/utils/formatters.js:75-85 | the two versions agree wherever the written one yields text, which is everywhere except the two inherited keys |
| QueueSlice.WithoutTrack | frontend/src/redux/slices/queueSlice.js:61-65 | the filtered queue is no longer, and all its tracks were there and have another id |
| QueueSlice.WithoutTrackCounts | frontend/src/redux/slices/queueSlice.js:61-65 | every track with the id is gone; every other keeps its multiplicity |
| QueueSlice.WithoutTrackAppend | frontend/src/redux/slices/queueSlice.js:61-65 | removal distributes over concatenation, so the survivors keep their order |
| QueueSlice.WithoutAbsentTrack | frontend/src/redux/slices/queueSlice.js:61-65 | a queue without that id is unchanged |
| QueueSlice.WithoutTrackIdempotent | frontend/src/redux/slices/queueSlice.js:61-65 | removing twice is removing once |
| QueueSlice.RemoveUndoesAdd | frontend/src/redux/slices/queueSlice.js:58-65 | removing by id right after adding that track leaves what removal alone leaves |
| QueueSlice.Queue.constructor | frontend/src/redux/slices/queueSlice.js:38-47 | empty queue, quota {0, 3, null}, not loading, no error |
| QueueSlice.Queue.ClearError | frontend/src/redux/slices/queueSlice.js:53-55 | only the error is cleared |
| QueueSlice.Queue.TrackAddedToQueue | frontend/src/redux/slices/queueSlice.js:58-60 | the track goes at the end; earlier tracks and all other fields unchanged |
| QueueSlice.Queue.RemoveTrackFromQueue | frontend/src/redux/slices/queueSlice.js:61-65 | the queue becomes WithoutTrack of the old one; nothing else changes |
| QueueSlice.Queue.UpdateQueueAfterPlayback | frontend/src/redux/slices/queueSlice.js:66-70 | drops the head of a non-empty queue; an empty queue is left as is |
| QueueSlice.Queue.Pending | frontend/src/redux/slices/queueSlice.js:75-78 | loading on, error cleared, nothing else changes (both thunks) |
| QueueSlice.Queue.Rejected | frontend/src/redux/slices/queueSlice.js:87-90 | loading off, error set to the payload, nothing else changes (both thunks) |
| QueueSlice.Queue.AddTrackToQueueFulfilled | frontend/src/redux/slices/queueSlice.js:79-86 | the quota is replaced only when the reply has one; the queue is untouched |
| QueueSlice.Queue.ClearQueueFulfilled | frontend/src/redux/slices/queueSlice.js:97-101 | the queue is emptied and the status reset; the quota is kept |
| PlaybackSlice.ReportedDuration | frontend/src/redux/slices/playbackSlice.js:167 | `item?.duration_ms \|\| 0`: a reported non-zero duration is taken; otherwise 0 |
| PlaybackSlice.ReportedVolume | frontend/src/redux/slices/playbackSlice.js:168 | a reported non-zero volume, otherwise the current one |
| PlaybackSlice.ReportedDeviceId | frontend/src/redux/slices/playbackSlice.js:169 | a reported non-empty device id, otherwise the current one |
| PlaybackSlice.Refreshed | frontend/src/redux/slices/playbackSlice.js:161-172 | a null payload changes nothing but the status; a report sets track, play flag and progress, duration or 0, and keeps volume and device when unreported; devices are never touched |
| PlaybackSlice.ZeroVolumeIgnored | frontend/src/redux/slices/playbackSlice.js:168 | a reported volume of 0 leaves the old volume |
| PlaybackSlice.RefreshedIdempotent | frontend/src/redux/slices/playbackSlice.js:161-172 | applying the same report twice is applying it once |
| PlaybackSlice.Playback.constructor | frontend/src/redux/slices/playbackSlice.js:131-141 | nothing playing, progress and duration 0, volume 50, no device, no devices |
| PlaybackSlice.Playback.ClearError | frontend/src/redux/slices/playbackSlice.js:147-149 | only the error is cleared |
| PlaybackSlice.Playback.UpdateProgress | frontend/src/redux/slices/playbackSlice.js:150-152 | only progressMs changes |
| PlaybackSlice.Playback.Pending | frontend/src/redux/slices/playbackSlice.js:157-160 | loading on, error cleared, nothing else changes (all eight thunks) |
| PlaybackSlice.Playback.Rejected | frontend/src/redux/slices/playbackSlice.js:173-176 | loading off, error set to the payload, nothing else changes (all eight thunks) |
| PlaybackSlice.Playback.GetCurrentPlaybackFulfilled | frontend/src/redux/slices/playbackSlice.js:161-172 | the in-place updates yield exactly Refreshed of the old state |
| PlaybackSlice.Playback.PlayTrackFulfilled | frontend/src/redux/slices/playbackSlice.js:183-187 | playing, status reset, nothing else changes |
| PlaybackSlice.Playback.PausePlaybackFulfilled | frontend/src/redux/slices/playbackSlice.js:198-202 | paused, status reset, nothing else changes |
| PlaybackSlice.Playback.SkipFulfilled | frontend/src/redux/slices/playbackSlice.js:213-232 | progress back to 0, isPlaying untouched (next and previous alike) |
| PlaybackSlice.Playback.SetVolumeFulfilled | frontend/src/redux/slices/playbackSlice.js:243-247 | the volume becomes the requested one |
| PlaybackSlice.Playback.GetAvailableDevicesFulfilled | frontend/src/redux/slices/playbackSlice.js:258-262 | the device list is replaced |
| PlaybackSlice.Playback.SetActiveDeviceFulfilled | frontend/src/redux/slices/playbackSlice.js:273-277 | the active device becomes the requested one |
| PlaylistSlice.FindPlaylist | frontend/src/redux/slices/playlistSlice.js:236-238 | none iff no playlist has the id; otherwise the first playlist with it |
| PlaylistSlice.FindAfterAppend | frontend/src/redux/slices/playlistSlice.js:218-238 | after a playlist is created, selecting by id finds the earlier match if any, else the new playlist when the id is its own |
| PlaylistSlice.Playlists.constructor | frontend/src/redux/slices/playlistSlice.js:145-152 | no playlists, no main, no current playlist, not loading, no error |
| PlaylistSlice.Playlists.ClearError | frontend/src/redux/slices/playlistSlice.js:158-160 | only the error is cleared |
| PlaylistSlice.Playlists.ClearCurrentPlaylist | frontend/src/redux/slices/playlistSlice.js:161-164 | details none and tracks empty; user playlists and main playlist kept |
| PlaylistSlice.Playlists.Pending | frontend/src/redux/slices/playlistSlice.js:169-172 | loading on, error cleared, nothing else changes (all nine thunks) |
| PlaylistSlice.Playlists.Rejected | frontend/src/redux/slices/playlistSlice.js:178-181 | loading off, error set to the payload, nothing else changes (all nine thunks) |
| PlaylistSlice.Playlists.GetUserPlaylistsFulfilled | frontend/src/redux/slices/playlistSlice.js:173-177 | the user's playlists are replaced |
| PlaylistSlice.Playlists.GetPlaylistDetailsFulfilled | frontend/src/redux/slices/playlistSlice.js:188-192 | the viewed playlist's details are replaced |
| PlaylistSlice.Playlists.GetPlaylistTracksFulfilled | frontend/src/redux/slices/playlistSlice.js:203-207 | the viewed playlist's tracks become the reply's tracks |
| PlaylistSlice.Playlists.CreatePlaylistFulfilled | frontend/src/redux/slices/playlistSlice.js:218-223 | the new playlist is appended and becomes the main playlist |
| PlaylistSlice.Playlists.SetMainPlaylistFulfilled | frontend/src/redux/slices/playlistSlice.js:234-240 | the main playlist becomes FindPlaylist of the user's playlists and the requested id |
| PlaylistSlice.Playlists.GetMainPlaylistFulfilled | frontend/src/redux/slices/playlistSlice.js:251-255 | the main playlist is replaced by the reply |
| PlaylistSlice.Playlists.EditMainPlaylistFulfilled | frontend/src/redux/slices/playlistSlice.js:266-297 | add, remove and reorder change only the status |
| AuthSlice.Auth.constructor | frontend/src/redux/slices/authSlice.js:67-74 | signed out, not admin, no name, no login url, not loading, no error |
| AuthSlice.Auth.ClearError | frontend/src/redux/slices/authSlice.js:80-82 | only the error is cleared |
| AuthSlice.Auth.SetAuthSuccess | frontend/src/redux/slices/authSlice.js:83-87 | signed in, not loading, no error; nothing else changes |
| AuthSlice.Auth.Pending | frontend/src/redux/slices/authSlice.js:92-95 | loading on, error cleared, nothing else changes (all four thunks) |
| AuthSlice.Auth.Rejected | frontend/src/redux/slices/authSlice.js:146-149 | loading off, error set, every auth field kept (logout too) |
| AuthSlice.Auth.LoginAdminFulfilled | frontend/src/redux/slices/authSlice.js:96-100 | isAdmin from the reply; isAuthenticated untouched |
| AuthSlice.Auth.GetSpotifyLoginUrlFulfilled | frontend/src/redux/slices/authSlice.js:111-115 | the login url is stored |
| AuthSlice.Auth.CheckAuthStatusFulfilled | frontend/src/redux/slices/authSlice.js:126-132 | isAuthenticated, isAdmin and username copied from the reply |
| AuthSlice.Auth.LogoutFulfilled | frontend/src/redux/slices/authSlice.js:143-145 | exactly the initial state, whatever came before |
| UiSlice.NewNotification | frontend/src/redux/slices/uiSlice.js:29-34 | the id is the payload's own when it has one, otherwise now; the other fields come from the payload |
| UiSlice.WithoutNotification | frontend/src/redux/slices/uiSlice.js:35-39 | the filtered list is no longer, and its entries were there and have another id |
| UiSlice.WithoutNotificationCounts | frontend/src/redux/slices/uiSlice.js:35-39 | every entry with the id is gone; every other keeps its multiplicity |
| UiSlice.WithoutNotificationAppend | frontend/src/redux/slices/uiSlice.js:35-39 | removal distributes over concatenation, so the survivors keep their order |
| UiSlice.WithoutAbsentNotification | frontend/src/redux/slices/uiSlice.js:35-39 | a list without that id is unchanged |
| UiSlice.DismissUndoesPost | frontend/src/redux/slices/uiSlice.js:29-39 | posting under a fresh id and then dismissing that id restores the list |
| UiSlice.ToggleSidebarTwice | frontend/src/redux/slices/uiSlice.js:20-22 | two toggles restore the whole state |
| UiSlice.Ui.constructor | frontend/src/redux/slices/uiSlice.js:3-11 | default theme, sidebar closed, main view, no notifications, empty query, no results, not loading |
| UiSlice.Ui.SetTheme | frontend/src/redux/slices/uiSlice.js:17-19 | only the theme changes |
| UiSlice.Ui.ToggleSidebar | frontend/src/redux/slices/uiSlice.js:20-22 | only sidebarOpen changes, to its negation |
| UiSlice.Ui.SetSidebarOpen | frontend/src/redux/slices/uiSlice.js:23-25 | only sidebarOpen changes |
| UiSlice.Ui.SetActiveView | frontend/src/redux/slices/uiSlice.js:26-28 | only the view changes |
| UiSlice.Ui.AddNotification | frontend/src/redux/slices/uiSlice.js:29-34 | exactly one entry, NewNotification, appended at the end |
| UiSlice.Ui.RemoveNotification | frontend/src/redux/slices/uiSlice.js:35-39 | the list becomes WithoutNotification of the old one |
| UiSlice.Ui.ClearNotifications | frontend/src/redux/slices/uiSlice.js:40-42 | the list is emptied |
| UiSlice.Ui.SetSearchQuery | frontend/src/redux/slices/uiSlice.js:43-45 | only the query changes |
| UiSlice.Ui.SetSearchResults | frontend/src/redux/slices/uiSlice.js:46-48 | only the results change |
| UiSlice.Ui.ClearSearchResults | frontend/src/redux/slices/uiSlice.js:49-51 | the results become null |
| UiSlice.Ui.SetIsLoading | frontend/src/redux/slices/uiSlice.js:52-54 | only the loading flag changes |

## Left out

- The session object is reduced to the four fields the core reads or writes. Cookie handling and the session store are out of scope.
- RateLimit.Guard: the `express-rate-limit` import (backend/middleware/rateLimit.js:6) is unused and not modelled.
- RateLimit.SongAdditionLimiter.Sweep: the `setInterval` schedule is not modelled. The sweep is a method called with `now`; when it runs is the caller's choice, and the trace theorem allows sweeps at any point in time order.
- Concurrency is not modelled. Node runs each middleware call and each timer callback to completion, so the trace model applies events one at a time.
- RateLimit.SongAdditionLimiter.Check: the HTTP response is its `Outcome` value. The JSON body, `res.status` and the `next` callback are not modelled.
- SpotifyApi.WithTokenRefresh: the provider calls and the refresh grant are inputs, not network calls. `apiCall` is modelled as returning a fixed outcome per run. The callback is modelled as the one every route passes, which stores the token in the session. `console.error` logging is not modelled.
- `createSpotifyApi` and the `SpotifyWebApi` client library are foreign code. The client is reduced to the two tokens and two counters.
- Express routes (backend/routes/*.js), backend/server.js, frontend/src/services/api.js and the `createAsyncThunk` network halves of the slices are HTTP plumbing. The thunks' outcomes enter the model as reducer arguments.
- Slice payload objects are reduced to the fields the reducers read. A track, playlist, device or notification keeps only a few identifying fields.
- SpotifyHelpers.GetBestImage: the stability of the sort is built into the model, but no lemma states it. Non-string urls and widths that are not integers are not modelled.
- `getColorPaletteFromArtwork` is a constant placeholder and is not modelled.
- `formatDate` is not modelled. It depends on `toLocaleDateString`, which is locale data.
- Formatters.FormatPopularity: it rounds with integer arithmetic. Floating-point effects of `popularity / 100 * 5` on values that are not integers are not modelled.
- Formatters.FormatTime: `NaN` and values that are not integers are `None` or out of scope; only integer milliseconds are modelled.
- Formatters.FormatRelativeTime: a date string is not parsed; the timestamp is an integer in milliseconds.
- Formatters.TruncateString: lengths and the cut point are counted in Unicode characters, not in the UTF-16 code units of JavaScript's `length`. A title with characters outside the Basic Multilingual Plane, such as emoji, is therefore truncated later here than in the browser, and the browser can cut between the two halves of a surrogate pair.
- Formatters.Prefix: `substring` is modelled on Unicode characters, not UTF-16 code units, for the same reason.
- Formatters.ToLower: it lower-cases ASCII letters only. `toLowerCase` on other Unicode letters is not modelled.
- Numbers are modelled as exact unbounded integers, not JavaScript doubles. The source agrees with the model only for magnitudes below 2^53. Above that, `toString` prints the shortest digits that read back as the same double, not the exact value, and from 1e21 it switches to exponent notation. This applies to every use of Numbers.NatToString and Numbers.IntToString and to the divisions in formatTime, formatTrackNumber, formatRelativeTime, the rate-limit wait message and calculateRateLimitRemaining.
- Formatters.CommasRoundTrip: it is proved for every integer, but it describes the source only below 2^53 in magnitude. For example, `formatNumberWithCommas(2**64)` prints "18,446,744,073,709,552,000" in the browser.
- Formatters.FormatTime: for a negative duration only the leading '-' is stated; the rest of the text, such as "-1:-1" for -1000, follows the body.
- Formatters.FormatNumberWithCommas: only integers are modelled. Fractional numbers and exponent notation from `toString` are out of scope.
- React components, pages, styles and the store configuration are UI code.

## Findings

| source | as written | input that shows it | evidently intended | confidence | as-written member | corrected member |
|---|---|---|---|---|---|---|
| frontend/src/utils/formatters.js:78-84 | `types[albumType.toLowerCase()] \|\| albumType` looks the key up on a plain object literal, so inherited members of `Object.prototype` are found too | `formatAlbumType('constructor')` (or `'Constructor'`) returns the `Object` function, and `'__proto__'` returns `Object.prototype`; neither is a text | a lookup of the three own keys only, with any other type shown as given | not executed; follows from JavaScript's property lookup | Formatters.FormatAlbumTypeAsWritten (Formatters.AlbumTypeConstructorIsNotText) | Formatters.FormatAlbumType |
