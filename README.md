# sptify2yt core: jobs, search cache and the YouTube routes

A Dafny model of the server-side core of sptify2yt, a Spotify-to-YouTube-Music playlist migrator:

- **Job store** (`src/services/analysisQueue.js`). An in-memory map from job id to analysis job, with one file per job on disk. It supports creating a job under a size limit, a memory-then-disk lookup, listing a session's jobs newest first, status and track-match updates, the manual video-id override, and the 7-day cleanup.
- **Search cache** (`src/services/searchCache.js`). A map from a normalized `(artists, title)` key to the last search result for it, with a 30-day lifetime. A snapshot on disk is written whenever the entry count after an upsert is a multiple of ten (an overwrite at such a count included) and after a sweep that removed something.
- **YouTube routes** (`src/routes/youtube.js`):
  - `searchVideo`, the cached search;
  - `analyzePlaylist`, the background job that searches every track in order, records the matches, reports progress and waits between tracks;
  - the request checks of `POST /analyze`;
  - the video-id extraction of the manual-override route;
  - the loop of `POST /migrate`, which creates the playlist and adds every matched or overridden video.

Modules:

| file | module | what it holds |
|---|---|---|
| `common.dfy` | `Common` | `Option`, `Result`, the video match record and JavaScript truthiness of an optional string |
| `text.dfy` | `Text` | `toLowerCase`, `trim`, the default string `sort` and `join`, with their laws |
| `search_cache.dfy` | `SearchCache` | the cache key, the cache as values (`Get`, `Put`, `Sweep`) and the `Cache` class proved against them |
| `analysis_queue.dfy` | `AnalysisQueue` | jobs and tracks as values, the per-job updates, and the `JobStore` class |
| `video_url.dfy` | `VideoUrl` | the regular expression of the manual-override route as an explicit leftmost search |
| `youtube_routes.dfy` | `YouTubeRoutes` | `searchVideo`, the analysis pipeline, `/analyze`, the manual override and `/migrate` |

State the source updates in place is kept in classes:

- the `jobs` map and the job files are fields of `JobStore`;
- the cache map and its snapshot are fields of `Cache`.

Each method is proved against a function on values:

- `Get`, `Put`, `Sweep` and `Purged`;
- `WithStatus`, `WithMatch` and `WithManual`;
- `SearchSpec`, `Searches`, `MatchedUpTo`, `LoopLog`, `Outcomes` and `TransferLog`.

The laws are lemmas about those functions.

External effects are modelled as follows:

- The YouTube API is given as oracle parameters: `answer`, `search(k, query)`, `create` and `add(k)`. Each returns a value or throws with a message.
- `Date.now()` is the parameter `now`.
- The random part of a job id is the parameter `id`.
- Each `sendProgress` message, each timer wait and each playlist request is a `Step` appended to a returned log.
- The session's YouTube tokens are the flag `authenticated`.

The code works against its own comment at one point. `src/routes/youtube.js:67` says the result is cached "even if null/not found", which suggests a track that found nothing is not searched again. But a cached "not found" (a stored `null`) reads as a miss: `getCachedSearch` returns `null` and `searchVideo` tests `cached !== null`, so it searches again. The model follows the code. `StoredNoMatchReadsAsMiss` and `RepeatedSearch` state the behaviour.

## Model

| member | source | states |
|---|---|---|
| Common.Truthy | src/services/analysisQueue.js:170 | definition of JavaScript truthiness of an optional string: present and not empty; the same test is `if (!sessionId)`, `if (!videoId)`, the fallback from `manualVideoId` to the match id, and `if (videoId)` at youtube.js:122, 257, 320 and 332, used by `WithStatus`, `Rejection`, `ManualRoute`, `VideoIdFor` and `TrackOutcome` |
| Text.IsSpace | src/services/searchCache.js:50-51 | definition of the white-space set `trim` strips, which is also the class `\s` of the regular expression at youtube.js:263; `TrimSpec`, `TrimCutsOnlySpace` and `IdRun` are stated with it |
| Text.IsUpper | src/services/searchCache.js:50-51 | definition of the upper-case letters `toLowerCase` changes, limited to Basic Latin and Latin-1 (see Text.IsUpper under Left out); `LowerCharSpec` shows none survives lower-casing |
| Text.LowerChar | src/services/searchCache.js:50-51 | definition of `toLowerCase` on one character: an upper-case letter moves 32 code points, anything else is kept; its law is `LowerCharSpec` |
| Text.LowerCharSpec | src/services/searchCache.js:50-51 | lower-casing a character leaves no upper-case letter, keeps white space as white space, and leaves every other character unchanged |
| Text.TrimStartSpec | src/services/searchCache.js:50-51 | the front trim is a suffix of the input, everything it drops is white space, and it does not start with white space |
| Text.TrimEndSpec | src/services/searchCache.js:50-51 | the back trim is a prefix of the input, everything it drops is white space, and it does not end with white space |
| Text.TrimSpec | src/services/searchCache.js:50-51 | `trim` is no longer than its input and neither starts nor ends with white space |
| Text.TrimCutsOnlySpace | src/services/searchCache.js:50-51 | `trim` returns a contiguous slice `s[i..j]` of its input, and everything outside the slice is white space |
| Text.TrimOfTrimmed | src/services/searchCache.js:50-51 | a string without white space at either end is its own trim |
| Text.NormalizeOfNormal | src/services/searchCache.js:50-51 | a name with no upper-case letter and no surrounding white space is already in key form |
| Text.NormalizeIdempotent | src/services/searchCache.js:50-51 | lower-casing and trimming a second time changes nothing |
| Text.NotAfter | src/services/searchCache.js:50 | definition of the string comparison of the default `sort`: the first differing character decides, and a prefix comes first; a total order by `NotAfterReflexive`, `NotAfterTotal`, `NotAfterAntisymmetric` and `NotAfterTransitive`; it compares code points (see Text.Sort under Left out) |
| Text.NotAfterReflexive | src/services/searchCache.js:50 | the string order of the default `sort` is reflexive |
| Text.NotAfterTotal | src/services/searchCache.js:50 | any two strings are comparable in that order |
| Text.NotAfterAntisymmetric | src/services/searchCache.js:50 | strings that are each not after the other are equal |
| Text.NotAfterTransitive | src/services/searchCache.js:50 | the order is transitive |
| Text.InsertSpec | src/services/searchCache.js:50 | inserting into a sorted list keeps it sorted and adds exactly the new element |
| Text.SortSpec | src/services/searchCache.js:50 | `sort` returns a sorted permutation of its input |
| Text.SortedUnique | src/services/searchCache.js:50 | two sorted permutations of the same strings are the same list, so the sorted artists do not depend on input order |
| Text.ApplyPermutation | src/services/searchCache.js:50 | mapping a permutation of a list gives a permutation of the mapped list |
| Text.LowerCase | src/services/searchCache.js:50-51 | definition of `toLowerCase`: each character lower-cased on its own; its laws are `LowerCharSpec` and `NormalizeIdempotent` |
| Text.Trim | src/services/searchCache.js:50-51 | definition of `trim`: white space dropped from the front, then from the back; its laws are `TrimSpec` and `TrimCutsOnlySpace` |
| Text.Normalize | src/services/searchCache.js:50-51 | definition of `a.toLowerCase().trim()`; idempotent by `NormalizeIdempotent` |
| Text.Insert | src/services/searchCache.js:50 | definition: insertion of one string in front of the first element it is not after; sorted and a permutation by `InsertSpec` |
| Text.Sort | src/services/searchCache.js:50 | definition of the default `sort` on strings, as insertion sort; a sorted permutation by `SortSpec`, and equal to any other sorted permutation by `SortedUnique` |
| Text.Join | src/services/searchCache.js:50 | definition of `join(sep)`: the elements with `sep` between consecutive ones |
| Text.Apply | src/services/searchCache.js:50 | definition of `map(f)`; `ApplyPermutation` shows it respects permutations |
| SearchCache.CacheKeyOrderInsensitive | src/services/searchCache.js:48-53 | the key is the same for any order of the same artists |
| SearchCache.NormalizedArtists | src/services/searchCache.js:50 | definition: each artist lower-cased and trimmed, in the given order |
| SearchCache.CacheKey | src/services/searchCache.js:48-53 | definition of `generateCacheKey`: sorted normalized artists joined by the vertical bar, `::`, then the normalized title; its laws follow in the rows below |
| SearchCache.CacheKeyIgnoresCaseAndPadding | src/services/searchCache.js:48-53 | artists and titles that agree after lower-casing and trimming give the same key |
| SearchCache.CacheKeyOfNormalized | src/services/searchCache.js:48-53 | keying already-normalized names gives the key of the raw names |
| SearchCache.CacheKeySeparatorCollision | src/services/searchCache.js:50-52 | the vertical-bar separator is not escaped: one artist named a, bar, b and the two artists a and b share a key |
| SearchCache.Unexpired | src/services/searchCache.js:65 | definition of the lookup's age test `now - cachedAt < maxAge`; `GetLive`, `GetExpired` and `ThirtyDayBoundary` are stated with it |
| SearchCache.Expired | src/services/searchCache.js:117 | definition of the sweep's age test `now - cachedAt > maxAge`; `SweepRemovesExactlyExpired` and `ThirtyDayBoundary` are stated with it |
| SearchCache.GetLive | src/services/searchCache.js:58-67 | an entry younger than 30 days is returned as stored and nothing changes |
| SearchCache.Get | src/services/searchCache.js:58-73 | definition of `getCachedSearch` on a state: a live entry's result, otherwise null with an expired entry deleted; its laws are `GetLive`, `GetExpired`, `GetAbsent` and `GetAfterPut` |
| SearchCache.Put | src/services/searchCache.js:78-89 | definition of `cacheSearch` on a state: upsert, then a flush when the count is a multiple of ten; its laws are `PutUpserts`, `PutSize` and `PutFlushes` |
| SearchCache.Kept | src/services/searchCache.js:116-121 | definition: the entries the sweep keeps, those at most 30 days old |
| SearchCache.Sweep | src/services/searchCache.js:111-127 | definition of `cleanupSearchCache` on a state; its laws are `SweepRemovesExactlyExpired`, `SweepFlushesIffRemoved` and `SweepIdempotent` |
| SearchCache.GetExpired | src/services/searchCache.js:62-72 | an entry at least 30 days old reads as null and is deleted; the other entries and the snapshot stay |
| SearchCache.GetAbsent | src/services/searchCache.js:58-72 | an absent key reads as null and changes nothing |
| SearchCache.GetAfterPut | src/services/searchCache.js:58-89 | within 30 days, reading back a stored result gives that result and changes nothing |
| SearchCache.StoredNoMatchReadsAsMiss | src/services/searchCache.js:62-72 | a stored "not found" reads exactly as a key never searched |
| SearchCache.PutUpserts | src/services/searchCache.js:78-84 | `cacheSearch` sets the key to the new result and time and keeps every other entry |
| SearchCache.PutTwice | src/services/searchCache.js:78-84 | storing the same result twice leaves only the later timestamp |
| SearchCache.PutSize | src/services/searchCache.js:80-86 | the entry count grows by one for a new key and stays the same for an overwrite |
| SearchCache.PutFlushes | src/services/searchCache.js:85-88 | the snapshot is rewritten exactly when the count after the upsert is a multiple of ten, an overwrite at such a count included |
| SearchCache.SweepRemovesExactlyExpired | src/services/searchCache.js:111-121 | the sweep removes exactly the entries older than 30 days and leaves the rest untouched |
| SearchCache.SweepFlushesIffRemoved | src/services/searchCache.js:123-126 | the snapshot changes only if something was removed, and is the swept map whenever something was |
| SearchCache.SweepIdempotent | src/services/searchCache.js:111-127 | a second sweep at the same time changes nothing |
| SearchCache.ThirtyDayBoundary | src/services/searchCache.js:65 | at an age of exactly 30 days a lookup refuses and deletes the entry while the sweep keeps it (`<` against `>`) |
| SearchCache.Cache.Load | src/services/searchCache.js:129-133 | start-up: the saved snapshot is loaded and then swept |
| SearchCache.Cache.GetCachedSearch | src/services/searchCache.js:58-73 | the result and new state are those of `Get` on the key of the artists and title |
| SearchCache.Cache.CacheSearch | src/services/searchCache.js:78-89 | the new state is `Put` on the key |
| SearchCache.Cache.FlushSearchCache | src/services/searchCache.js:94-96 | the snapshot becomes the current map |
| SearchCache.Cache.CleanupSearchCache | src/services/searchCache.js:111-127 | the loop over all entries leaves the state `Sweep` gives; it also returns how many entries it removed, a count the source only logs (searchCache.js:125) and does not return |
| AnalysisQueue.NewJob | src/services/analysisQueue.js:101-126 | a created job is pending, has progress 0 of n, is stamped with the creation time, and copies each input track unmatched and pending |
| AnalysisQueue.WithStatus | src/services/analysisQueue.js:166-177 | the status is set with no transition refused, a truthy error replaces the old one, `completedAt` is stamped on complete or error, and nothing else changes |
| AnalysisQueue.WithMatch | src/services/analysisQueue.js:182-187 | only track i gets the match and status; progress moves to i + 1; nothing else changes |
| AnalysisQueue.WithManual | src/services/analysisQueue.js:200-204 | only track i gets the manual id and status `manual`; nothing else changes |
| AnalysisQueue.PurgedExactly | src/services/analysisQueue.js:214-221 | the cleanup keeps exactly the jobs at most 7 days old, unchanged |
| AnalysisQueue.PurgedShrinksOverTime | src/services/analysisQueue.js:214-221 | a later cleanup keeps no job an earlier one removed, and running the earlier one first makes no difference |
| AnalysisQueue.SevenDayBoundary | src/services/analysisQueue.js:216-219 | a job is kept at exactly 7 days of age and removed one millisecond later |
| AnalysisQueue.TooOld | src/services/analysisQueue.js:216-219 | definition of the cleanup test: created more than 7 days before now |
| AnalysisQueue.Purged | src/services/analysisQueue.js:214-233 | definition: the jobs the cleanup keeps; its laws are the three rows above |
| AnalysisQueue.SavesAfterMatch | src/services/analysisQueue.js:190 | definition of the save condition of `updateTrackMatch`: every tenth track and the last one |
| AnalysisQueue.NewestFirst | src/services/analysisQueue.js:160 | definition of the order the comparator `b.createdAt - a.createdAt` sorts into: no job is newer than one before it; `InsertNewestFirst` keeps it and `GetJobsBySession` ensures it |
| AnalysisQueue.InsertNewestFirst | src/services/analysisQueue.js:160 | inserting into a newest-first list keeps it newest first and adds exactly that job |
| AnalysisQueue.Fetched | src/services/analysisQueue.js:136-148 | a lookup finds a job exactly when it is in memory or on disk, and the in-memory one wins |
| AnalysisQueue.Hydrated | src/services/analysisQueue.js:142-146 | after a lookup, a job found on disk is in memory and no other key has changed |
| AnalysisQueue.JobStore.Load | src/services/analysisQueue.js:55-74 | start-up: every saved job is in memory |
| AnalysisQueue.JobStore.CreateJob | src/services/analysisQueue.js:93-131 | more tracks than the limit: the size error and no change; otherwise the new job is stored in memory and on disk and returned |
| AnalysisQueue.JobStore.GetJob | src/services/analysisQueue.js:136-148 | the three cases memory, disk (then cached in memory) and none, equal to `Fetched` and `Hydrated` |
| AnalysisQueue.JobStore.GetJobsBySession | src/services/analysisQueue.js:153-161 | exactly the in-memory jobs of the session, each as many times as ids hold it (so one entry per job id), newest first |
| AnalysisQueue.JobStore.UpdateJobStatus | src/services/analysisQueue.js:166-177 | a known job becomes `WithStatus` of itself and is saved; an unknown id changes nothing and gives nothing |
| AnalysisQueue.JobStore.UpdateTrackMatch | src/services/analysisQueue.js:182-195 | a known job with that track becomes `WithMatch` and is saved exactly on every tenth track and on the last one; otherwise nothing changes |
| AnalysisQueue.JobStore.SetManualVideoId | src/services/analysisQueue.js:200-209 | true exactly when the job is in memory and has that track, in which case the track gets the override and is saved; false changes nothing |
| AnalysisQueue.JobStore.CleanupOldJobs | src/services/analysisQueue.js:214-233 | memory becomes `Purged`, and exactly the removed jobs' files are deleted |
| VideoUrl.IsIdChar | src/routes/youtube.js:263 | definition of the class `[^&\s]`: neither `&` nor white space; `IdRun`, `CaptureShape` and `CaptureOf` are stated with it |
| VideoUrl.IdRun | src/routes/youtube.js:263 | the greedy run of `[^&\s]` characters: all of them are id characters and the one after is not |
| VideoUrl.Search | src/routes/youtube.js:263 | the leftmost position where the pattern matches, with its group; no match before it, or none at all |
| VideoUrl.ExtractVideoId | src/routes/youtube.js:262-266 | the group of the leftmost match, or the input unchanged when nothing matches |
| VideoUrl.Capture | src/routes/youtube.js:263 | definition: the group one alternative captures at a position, the greedy non-empty run after its prefix; characterised by `CaptureShape` and `CaptureOf` |
| VideoUrl.MatchAt | src/routes/youtube.js:263 | definition: a match at a position, the alternatives tried in the order written; characterised by `MatchShape` and `NoMatchUnlessY` |
| VideoUrl.CaptureShape | src/routes/youtube.js:263 | a capture follows its prefix and is a non-empty run of id characters |
| VideoUrl.MatchShape | src/routes/youtube.js:263 | any match follows one of the three prefixes and captures a non-empty run of id characters |
| VideoUrl.ExtractNonEmpty | src/routes/youtube.js:257-266 | a non-empty input never gives an empty id |
| VideoUrl.NoMatchUnlessY | src/routes/youtube.js:263 | the pattern cannot match at a position that does not hold `y` |
| VideoUrl.BareIdVerbatim | src/routes/youtube.js:262-266 | an input without `y` is stored as given |
| VideoUrl.CaptureOf | src/routes/youtube.js:263 | after a prefix, the capture is exactly the id characters up to the first stop character |
| VideoUrl.ShortLinkRoundTrip | src/routes/youtube.js:262-266 | `youtu.be/<id>` followed by nothing, `&…` or white space gives `<id>` |
| VideoUrl.WatchLinkRoundTrip | src/routes/youtube.js:262-266 | `https://www.youtube.com/watch?v=<id>&…` gives `<id>` |
| VideoUrl.IdRunExact | src/routes/youtube.js:263 | the run after a position is exactly as long as its id characters before a stop |
| YouTubeRoutes.FirstMatch | src/routes/youtube.js:56-65 | no items gives null; otherwise the match carries the first item's video id and thumbnail |
| YouTubeRoutes.Query | src/routes/youtube.js:46 | definition of the query: the artists joined by a comma and space, ` - `, then the title |
| YouTubeRoutes.SearchSpec | src/routes/youtube.js:37-76 | definition of `searchVideo` on a cache state: a cached match as is; otherwise ask the API and store its answer, null included, and store nothing on an error; its laws are the four rows after `SearchVideo` |
| YouTubeRoutes.SearchVideo | src/routes/youtube.js:37-76 | the result, the cache afterwards and the query sent are those of `SearchSpec` |
| YouTubeRoutes.CachedMatchSkipsApi | src/routes/youtube.js:39-43 | a live cached match is returned with the cache unchanged and no API call, whatever the API would say |
| YouTubeRoutes.AnswerIsStored | src/routes/youtube.js:45-71 | without a cached match, the query is sent and the first item's match, or null, is returned and stored |
| YouTubeRoutes.ApiErrorStoresNothing | src/routes/youtube.js:72-75 | an API error gives null and adds nothing to the cache |
| YouTubeRoutes.RepeatedSearch | src/routes/youtube.js:39-68 | within 30 days a second search calls the API again exactly when the first found nothing; a found match is served from the cache |
| YouTubeRoutes.WithTrackStatus | src/routes/youtube.js:170 | the write `job.tracks[i].status = …` sets that track's status; every other track and every other field of the job stay as they were |
| YouTubeRoutes.StatusOf | src/routes/youtube.js:188-216 | definition: `found` for a match, `not_found` for null |
| YouTubeRoutes.Searches | src/routes/youtube.js:166-186 | the searches of the first i tracks, one result per track, each run on the cache the previous one left |
| YouTubeRoutes.MatchedUpTo | src/routes/youtube.js:188-216 | the match updates of the first tracks keep the track count |
| YouTubeRoutes.CountStatus | src/routes/youtube.js:229-230 | the number of tracks with a given status, `tracks.filter(t => t.status === s).length`; `CountStatusOfResults` ties the `found` and `not_found` counts to `Hits`, and `StatusPartition` shows the five counts add up to the track count |
| YouTubeRoutes.Finished | src/routes/youtube.js:188-224 | definition: the job after all match updates and then `complete`; characterised by `AnalysisOutcome` |
| YouTubeRoutes.CompletionEvent | src/routes/youtube.js:226-238 | definition of the `analysis_complete` message of a job; its counts are given by `CompletionStats` |
| YouTubeRoutes.TrackSteps | src/routes/youtube.js:173-221 | definition: the steps of one track, progress, match and the wait unless it is the last track |
| YouTubeRoutes.LoopLog | src/routes/youtube.js:166-222 | definition: the steps of the first tracks in order; its shape is `LoopLogShape` and its waits `LoopDelays` |
| YouTubeRoutes.BeginAnalysis | src/routes/youtube.js:157-164 | an unknown job does nothing; otherwise the job is `analyzing` in memory and on disk, and building the API client throws without tokens |
| YouTubeRoutes.MatchedUpToStep | src/routes/youtube.js:188-216 | one more search result is one more match update |
| YouTubeRoutes.LoopLogStep | src/routes/youtube.js:166-222 | one more track appends that track's steps to the log |
| YouTubeRoutes.SearchingOverwritten | src/routes/youtube.js:170-203 | the `searching` mark does not survive the match update that follows it |
| YouTubeRoutes.AnalyzeTrack | src/routes/youtube.js:167-221 | one pass: the job gets the match update of track i, the cache follows `SearchSpec`, the steps are progress, match and the wait (none after the last track), and other jobs' files are untouched |
| YouTubeRoutes.AnalyzeNext | src/routes/youtube.js:166-222 | the next pass extends the run of searches, the job's matches and the log by one track |
| YouTubeRoutes.AnalyzeLoop | src/routes/youtube.js:166-222 | the loop searches all tracks in order (`Searches`), the job holds all their matches, and the log is `LoopLog` |
| YouTubeRoutes.AnalyzeTracks | src/routes/youtube.js:166-238 | after the loop the job is `Finished` in memory and on disk, and the log ends with the completion stats of that job |
| YouTubeRoutes.CompleteAnalysis | src/routes/youtube.js:224-227 | the job is marked complete, saved and read back |
| YouTubeRoutes.MatchedUpToTracks | src/routes/youtube.js:166-216 | after the matches, track k holds hit k with its status, later tracks are untouched, progress is the count, and nothing else changes |
| YouTubeRoutes.AnalysisOutcome | src/routes/youtube.js:157-239 | an analysed job is complete and stamped, and each track is `found` exactly when its search found a video; the match, the manual id and the Spotify id are kept |
| YouTubeRoutes.Hits | src/routes/youtube.js:188 | the number of searches that found a video; `CountStatusOfResults` shows it is the `found` count of the finished job, and `CompletionStats` puts it in the `analysis_complete` payload as `found`, with `notFound` the rest |
| YouTubeRoutes.CountStatusOfResults | src/routes/youtube.js:229-230 | tracks carrying the statuses of the results count as found and not found as the results do |
| YouTubeRoutes.CompletionStats | src/routes/youtube.js:226-238 | the completion message counts found as the hits, notFound as the misses and total as the tracks |
| YouTubeRoutes.StatusPartition | src/routes/youtube.js:229-231 | the five status counts add up to the track count, so `manual` tracks are in neither found nor notFound |
| YouTubeRoutes.LoopLogShape | src/routes/youtube.js:166-222 | track k gives its progress at step 3k, its match at 3k+1 and a wait at 3k+2, except after the last track |
| YouTubeRoutes.Delays | src/routes/youtube.js:219-221 | the number of rate-limit waits in a log; `DelaysConcat` adds them up over concatenation, and `LoopDelays` shows the analysis of n tracks waits n − 1 times, never after the last track |
| YouTubeRoutes.DelaysConcat | src/routes/youtube.js:219-221 | waits in concatenated logs add up |
| YouTubeRoutes.LoopDelays | src/routes/youtube.js:218-221 | n tracks give n − 1 waits |
| YouTubeRoutes.Rejection | src/routes/youtube.js:118-134 | a request passes exactly when it has a non-empty track array, a truthy session id and no more tracks than the limit; every refusal is a 400, and too many tracks reports the limit and the count |
| YouTubeRoutes.AnalyzeRoute | src/routes/youtube.js:115-154 | 401 without tokens, a 400 from the request validation (`Rejection`), or the 400 from a missing playlist, each with no change; otherwise `analyzing` with the track count, and the job ends `Finished` on the cache's searches with the full progress log |
| YouTubeRoutes.ManualRoute | src/routes/youtube.js:253-275 | 401; 400 without a truthy id; the extracted id saved on that track; or 404 when the job or track is missing, with no change |
| YouTubeRoutes.ManualOverrideWins | src/routes/youtube.js:262-268 | a saved override is the id `/migrate` uses for the track, ahead of any match, and it is non-empty |
| YouTubeRoutes.VideoIdFor | src/routes/youtube.js:320 | definition of `track.manualVideoId || track.youtubeMatch?.id`; `ManualOverrideWins` shows the override comes first |
| YouTubeRoutes.TrackOutcome | src/routes/youtube.js:332-379 | definition: the results entry of one track, skipped without an id, added or failed as the add call goes |
| YouTubeRoutes.Outcomes | src/routes/youtube.js:316-383 | definition: the entries of the first tracks in order; characterised by `OutcomesAt` |
| YouTubeRoutes.TransferSteps | src/routes/youtube.js:322-382 | definition: the steps of one track, progress, the add request and its report or the skip, then the 300 ms pause |
| YouTubeRoutes.TransferLog | src/routes/youtube.js:316-383 | definition: the steps of the first tracks in order |
| YouTubeRoutes.TransferTrack | src/routes/youtube.js:317-382 | one pass of the `/migrate` loop gives `TrackOutcome` and `TransferSteps` for the track |
| YouTubeRoutes.TransferTracks | src/routes/youtube.js:311-383 | every track is tried in order, a failed add does not stop the loop, and the counts are the successes and skips of the results |
| YouTubeRoutes.Successes | src/routes/youtube.js:335 | the number of tracks added to the playlist (`successCount`); `TransferTracks` returns it as the success count, and `CountsAddUp` with `Skips` and `Failures` sums it to the track count |
| YouTubeRoutes.Skips | src/routes/youtube.js:366 | the number of tracks skipped for want of a video id (`skipCount`); `TransferTracks` returns it as the skip count, and `CountsAddUp` sums it with `Successes` and `Failures` to the track count |
| YouTubeRoutes.Failures | src/routes/youtube.js:349-354 | the number of tracks whose add call threw; `CountsAddUp` makes it the track count minus the successes and the skips, and `OutcomesAt` says which tracks they are |
| YouTubeRoutes.CountsAddUp | src/routes/youtube.js:311-379 | successes, skips and failures add up to the number of tracks |
| YouTubeRoutes.OutcomesAt | src/routes/youtube.js:316-379 | one entry per track in order: skipped exactly without a video id, added with that id exactly when the add succeeds, and failed exactly when it throws |
| YouTubeRoutes.MigrateRoute | src/routes/youtube.js:280-413 | 401, 404 or 400 as the job is missing or incomplete; a throwing playlist creation gives the 500 details and the error message; otherwise the playlist URL, the counts, one entry per track and the full progress log |

## Left out

- File I/O. Reading and writing the cache snapshot and the job files, JSON encoding and the directory scan are left out; the disk is an abstract map. A failed read is an empty or missing map. A failed write is not modelled.
- `getSearchCacheStats`, `getMaxPlaylistSize` and `getRateLimitDelay` return configuration only. The two limits are the constants `maxPlaylistSize` and `rateLimitDelay` of `JobStore`, fixed at start-up by `JobStore.Load`. Parsing them from the environment, with the fallbacks 500 and 2000 of analysisQueue.js:6-7, is left out; any values can be passed.
- The hourly and daily `setInterval` sweeps are left out, because they are timers. Each sweep is the method `CleanupOldJobs` or `CleanupSearchCache`, called at any time.
- Concurrency is left out. Other requests cannot interleave with an analysis or a migration at its `await` points. A pipeline reads the clock once (`now`), and its waits are `Delay` steps. As a consequence the model's `completedAt` of an analysed job equals its `createdAt`, where the source stamps it at least (n − 1) times the rate-limit delay later (youtube.js:219, analysisQueue.js:172), and no cache entry can expire partway through a run. No stated property depends on the elapsed time.
- Jobs are values in the `jobs` map. The in-place writes to a shared job object are updates of that map entry, so aliasing between the job a pipeline holds and the stored one is not modelled.
- The `.catch` of the background analysis in `/analyze` (marking the job `error`) is left out. It is unreachable only because the model's tracks are typed. The middleware guarantees YouTube tokens, so `getYouTubeApi` does not throw, and the API call of `searchVideo` sits inside its `try`. A malformed track, such as one without an `artists` array, would make the cache lookup or the query building at youtube.js:39-46 throw, outside that `try`, and the job would end in `error`. Malformed tracks are left out (see below).
- `getYouTubeApi` inside `/migrate` is left out for the same reason.
- The search API calls are not recorded as `Call` steps of the analysis log. `SearchVideo` returns the query it sent, and `Searches` fixes which answer each track gets.
- The message text of the 400 "Playlist too large" response is left out. Its `maxSize` and `trackCount` fields are modelled.
- The text of the `createJob` TypeError is modelled only for an absent playlist. A `null` playlist gives a different V8 message.
- The `GET /analysis/:jobId` route, the playlist and configuration routes, the Spotify and auth routes, the server and the browser client are outside the modelled core.
- A `videoId` that is not a string, and malformed track objects, are left out. The request body is typed in the model.
- `parseInt` on the path segment is left out. The manual route receives its result, with None for NaN.
- Text.LowerCase, Text.LowerChar and Text.IsUpper only lower-case Basic Latin and Latin-1 letters; any other upper-case letter, such as U+0100, is kept as it is. Other scripts and the special mappings of `toLowerCase`, which may change the length, are left out.
- Text.Sort and Text.NotAfter order strings by code point. JavaScript compares UTF-16 code units, and the two orders differ only for characters outside the Basic Multilingual Plane.
- AnalysisQueue.JobStore.GetJobsBySession does not state the order of jobs with equal `createdAt`. The model's maps carry no insertion order. In the source, the stable `Array.prototype.sort` keeps such jobs in the insertion order of the `jobs` Map.
- YouTubeRoutes.AnalyzeTrack, YouTubeRoutes.AnalyzeNext and YouTubeRoutes.AnalyzeLoop do not state the intermediate saves of the analysed job (every tenth track and the last one). They state only that other jobs' files are untouched. `UpdateTrackMatch` states the saves exactly, and `AnalyzeTracks` states the final saved job.
- The id of a new job (`job_<time>_<random>`) is the parameter `id`. Its format and uniqueness are not modelled.
- AnalysisQueue.JobStore.Load: both services default `CACHE_PATH` to `./cache`, and `loadAllJobsFromDisk` (analysisQueue.js:55-71) reads every `.json` file there. So at start-up the search-cache snapshot `search_cache.json` becomes a pseudo-job `search_cache` in `jobs`. It has no `createdAt`, so it is never purged. It has no `tracks`, so `updateTrackMatch` and `setManualVideoId` on it throw a TypeError instead of returning. The abstract disk holds only well-formed jobs and cannot hold it.
