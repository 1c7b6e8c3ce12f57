/**
 * `src/routes/youtube.js`: the cached search, the background analysis of a
 * job, and the `/analyze`, manual-override and `/migrate` routes. The YouTube
 * API calls are oracle parameters, `sendProgress` and the waits are steps
 * appended to a returned log, and the clock is the parameter `now`.
 */
module YouTubeRoutes {
  import opened Common
  import opened Text
  import opened AnalysisQueue
  import opened VideoUrl
  import SC = SearchCache

  const NotAuthenticated: string := "Not authenticated with YouTube"
  /** The pause after every track of a migration, in milliseconds. */
  const AddDelay: nat := 300
  const PlaylistUrlPrefix: string := "https://music.youtube.com/playlist?list="
  const MigratedDescription: string := "Migrated from Spotify"
  const CreatingMessage: string := "Creating YouTube playlist..."
  /** What V8 throws when `createJob` reads `playlist.id` of an absent playlist. */
  const MissingPlaylistMessage: string := "Cannot read properties of undefined (reading 'id')"

  /** A call into the YouTube API: it returns a value or throws with a message. */
  datatype ApiOutcome<T> = Returned(value: T) | Threw(message: string)

  /** One item of a `search.list` response. */
  datatype VideoItem = VideoItem(videoId: string, title: string, channelTitle: string, thumbnailUrl: Option<string>)

  /** The requests the model sends to the YouTube API and records. */
  datatype Request =
    | PlaylistInsert(title: string, description: string)
    | PlaylistItemInsert(playlistId: string, videoId: string)

  /** The progress messages `sendProgress` pushes to a session. */
  datatype Event =
    | AnalysisProgress(jobId: string, current: nat, total: nat, name: string, artists: seq<string>)
    | AnalysisMatch(jobId: string, current: nat, total: nat, name: string, artists: seq<string>,
                    hit: Option<VideoMatch>, status: TrackStatus)
    | AnalysisComplete(jobId: string, found: nat, notFound: nat, total: nat)
    | StatusMessage(message: string)
    | PlaylistCreated(playlistId: string, playlistUrl: string)
    | Processing(current: nat, total: nat, name: string, artists: seq<string>)
    | TrackAdded(current: nat, total: nat, name: string)
    | TrackFailed(current: nat, total: nat, name: string, error: string)
    | TrackSkipped(current: nat, total: nat, name: string)
    | MigrationComplete(playlistId: string, playlistUrl: string, successCount: nat, skipCount: nat, total: nat)
    | MigrationError(message: string)

  /** What a pipeline does, in order: a message to a session, a wait, or an API request. */
  datatype Step = Send(session: string, event: Event) | Delay(ms: nat) | Call(request: Request)

  /** One entry of the `results` list of `/migrate`. */
  datatype TrackResult =
    | Added(track: string, videoId: string)
    | AddFailed(track: string, error: string)
    | Skipped(track: string, reason: string)

  /** The HTTP responses of the modelled routes. */
  datatype Response =
    | Fail(code: nat, error: string)
    | TooLarge(maxSize: nat, trackCount: nat)
    | Started(jobId: string, status: JobStatus, trackCount: nat)
    | ManualSaved(videoId: string)
    | Migrated(playlistId: string, playlistUrl: string, successCount: nat, skipCount: nat, results: seq<TrackResult>)
    | MigrationFailed(details: string)

  // ================================================================ searchVideo

  /** The query string: the artists joined by `, `, then ` - ` and the title. */
  function Query(artists: seq<string>, title: string): string {
    Join(artists, ", ") + " - " + title
  }

  /** The match built from the first item of a search response, if there is one. */
  function FirstMatch(items: seq<VideoItem>): (r: Option<VideoMatch>)
    ensures r.None? <==> items == []
    ensures r.Some? ==> r.value.id == items[0].videoId && r.value.thumbnail == items[0].thumbnailUrl
  {
    if items == [] then None
    else Some(VideoMatch(items[0].videoId, items[0].title, items[0].channelTitle, items[0].thumbnailUrl))
  }

  /** The result of a search, the cache afterwards, and the query sent to the API, if any. */
  datatype Searched = Searched(result: Option<VideoMatch>, cache: SC.CacheState, sent: Option<string>)

  /**
   * `searchVideo` on the cache state `st`, where `answer` is what the API
   * call would give. A present cached result is returned as is; otherwise
   * (a miss, an expired entry, or a cached "not found") the API is asked, and
   * its result is stored, even when it is null; an API error stores nothing.
   */
  function SearchSpec(st: SC.CacheState, artists: seq<string>, title: string, answer: ApiOutcome<seq<VideoItem>>, now: int): Searched {
    var key := SC.CacheKey(artists, title);
    var look := SC.Get(st, key, now);
    if look.result.Some? then Searched(look.result, look.state, None)
    else match answer
      case Threw(_) => Searched(None, look.state, Some(Query(artists, title)))
      case Returned(items) =>
        Searched(FirstMatch(items), SC.Put(look.state, key, FirstMatch(items), now), Some(Query(artists, title)))
  }

  /** `searchVideo(youtube, artists, trackName)` against `cache` at time `now`. */
  method SearchVideo(cache: SC.Cache, artists: seq<string>, title: string, answer: ApiOutcome<seq<VideoItem>>, now: int)
    returns (r: Option<VideoMatch>, sent: Option<string>)
    modifies cache
    ensures Searched(r, cache.State(), sent) == SearchSpec(old(cache.State()), artists, title, answer, now)
  {
    var cached := cache.GetCachedSearch(artists, title, now);
    if cached.Some? {
      return cached, None;
    }
    var query := Query(artists, title);
    match answer {
      case Threw(_) =>
        return None, Some(query);
      case Returned(items) =>
        var result := FirstMatch(items);
        cache.CacheSearch(artists, title, result, now);
        return result, Some(query);
    }
  }

  /** A live cached match is returned without asking the API, whatever it would have answered. */
  lemma CachedMatchSkipsApi(st: SC.CacheState, artists: seq<string>, title: string,
                            a1: ApiOutcome<seq<VideoItem>>, a2: ApiOutcome<seq<VideoItem>>, now: int)
    requires SC.CacheKey(artists, title) in st.entries
    requires SC.Unexpired(st.entries[SC.CacheKey(artists, title)], now)
    requires st.entries[SC.CacheKey(artists, title)].result.Some?
    ensures SearchSpec(st, artists, title, a1, now).sent == None
    ensures SearchSpec(st, artists, title, a1, now) == SearchSpec(st, artists, title, a2, now)
    ensures SearchSpec(st, artists, title, a1, now).result == st.entries[SC.CacheKey(artists, title)].result
    ensures SearchSpec(st, artists, title, a1, now).cache == st
  {
  }

  /** Without a cached match, the API is asked, and a successful answer is stored, "not found" included. */
  lemma AnswerIsStored(st: SC.CacheState, artists: seq<string>, title: string, items: seq<VideoItem>, now: int)
    requires SC.Get(st, SC.CacheKey(artists, title), now).result.None?
    ensures SearchSpec(st, artists, title, Returned(items), now).sent == Some(Query(artists, title))
    ensures SearchSpec(st, artists, title, Returned(items), now).result == FirstMatch(items)
    ensures SearchSpec(st, artists, title, Returned(items), now).cache.entries
      == SC.Get(st, SC.CacheKey(artists, title), now).state.entries[SC.CacheKey(artists, title) := SC.Entry(FirstMatch(items), now)]
  {
  }

  /** An API error gives null and stores nothing: the cache is left as the lookup left it, a sub-map of the old one. */
  lemma ApiErrorStoresNothing(st: SC.CacheState, artists: seq<string>, title: string, message: string, now: int)
    requires SC.Get(st, SC.CacheKey(artists, title), now).result.None?
    ensures SearchSpec(st, artists, title, Threw(message), now).result == None
    ensures SearchSpec(st, artists, title, Threw(message), now).cache == SC.Get(st, SC.CacheKey(artists, title), now).state
    ensures forall k :: k in SearchSpec(st, artists, title, Threw(message), now).cache.entries ==>
      k in st.entries && SearchSpec(st, artists, title, Threw(message), now).cache.entries[k] == st.entries[k]
    ensures SearchSpec(st, artists, title, Threw(message), now).cache.snapshot == st.snapshot
  {
  }

  /**
   * Searching the same track twice, the second time within 30 days: the
   * second search asks the API again exactly when the first found nothing,
   * since a cached "not found" reads as a miss.
   */
  lemma RepeatedSearch(st: SC.CacheState, artists: seq<string>, title: string, items: seq<VideoItem>,
                       answer: ApiOutcome<seq<VideoItem>>, t1: int, t2: int)
    requires SC.Get(st, SC.CacheKey(artists, title), t1).result.None?
    requires t1 <= t2 < t1 + SC.MaxAge
    ensures var first := SearchSpec(st, artists, title, Returned(items), t1);
      var second := SearchSpec(first.cache, artists, title, answer, t2);
      && (second.sent.Some? <==> first.result.None?)
      && (first.result.Some? ==> second.result == first.result)
  {
    var key := SC.CacheKey(artists, title);
    var first := SearchSpec(st, artists, title, Returned(items), t1);
    assert first.cache.entries[key] == SC.Entry(FirstMatch(items), t1);
  }

  // ================================================================ analyzePlaylist

  /** The track status `analyzePlaylist` records for a search result. */
  function StatusOf(hit: Option<VideoMatch>): TrackStatus {
    if hit.Some? then Found else NotFound
  }

  /** The in-place write `job.tracks[i].status = ...`. */
  function WithTrackStatus(job: Job, i: nat, status: TrackStatus): (r: Job)
    requires i < |job.tracks|
    ensures |r.tracks| == |job.tracks| && r.tracks[i].status == status
    ensures r.tracks[i] == job.tracks[i].(status := status)
    ensures forall k :: 0 <= k < |job.tracks| && k != i ==> r.tracks[k] == job.tracks[k]
    ensures r.(tracks := job.tracks) == job
  {
    job.(tracks := job.tracks[i := job.tracks[i].(status := status)])
  }

  /** The outcome of searching the tracks from position `i` on, in order. */
  datatype Run = Run(results: seq<Option<VideoMatch>>, final: SC.CacheState)

  /**
   * The searches of the first `i` tracks, in order, each on the cache the
   * previous one left; `search(k, query)` is the API's answer for track `k`.
   */
  function Searches(st: SC.CacheState, tracks: seq<Track>, i: nat,
                    search: (nat, string) -> ApiOutcome<seq<VideoItem>>, now: int): (r: Run)
    requires i <= |tracks|
    ensures |r.results| == i
  {
    if i == 0 then Run([], st)
    else
      var before := Searches(st, tracks, i - 1, search, now);
      var t := tracks[i - 1];
      var o := SearchSpec(before.final, t.artists, t.name, search(i - 1, Query(t.artists, t.name)), now);
      Run(before.results + [o.result], o.cache)
  }

  /** The job after `updateTrackMatch` for the first `|hits|` tracks, in order. */
  function MatchedUpTo(job: Job, hits: seq<Option<VideoMatch>>): (r: Job)
    requires |hits| <= |job.tracks|
    ensures |r.tracks| == |job.tracks|
    decreases |hits|
  {
    if hits == [] then job
    else
      var k := |hits| - 1;
      WithMatch(MatchedUpTo(job, hits[..k]), k, hits[k], StatusOf(hits[k]))
  }

  /** The job `analyzePlaylist` leaves: every track matched, then `complete`. */
  function Finished(start: Job, hits: seq<Option<VideoMatch>>, now: int): Job
    requires |hits| <= |start.tracks|
  {
    WithStatus(MatchedUpTo(start, hits), Complete, None, now)
  }

  /** `tracks.filter(t => t.status === status).length`. */
  function CountStatus(tracks: seq<Track>, status: TrackStatus): (n: nat)
    ensures n <= |tracks|
  {
    if tracks == [] then 0
    else (if tracks[0].status == status then 1 else 0) + CountStatus(tracks[1..], status)
  }

  /** The completion message with the stats of the finished job. */
  function CompletionEvent(jobId: string, done: Job): Event {
    AnalysisComplete(jobId, CountStatus(done.tracks, Found), CountStatus(done.tracks, NotFound), |done.tracks|)
  }

  /** The steps for track `i`: progress, match, and the wait unless it is the last track. */
  function TrackSteps(jobId: string, session: string, tracks: seq<Track>, i: nat, hit: Option<VideoMatch>, delay: nat): seq<Step>
    requires i < |tracks|
  {
    var t := tracks[i];
    var n := |tracks|;
    [Send(session, AnalysisProgress(jobId, i + 1, n, t.name, t.artists)),
     Send(session, AnalysisMatch(jobId, i + 1, n, t.name, t.artists, hit, StatusOf(hit)))]
    + (if i < n - 1 then [Delay(delay)] else [])
  }

  /** The steps of the loop over the first `|hits|` tracks. */
  function LoopLog(jobId: string, session: string, tracks: seq<Track>, hits: seq<Option<VideoMatch>>, delay: nat): seq<Step>
    requires |hits| <= |tracks|
    decreases |hits|
  {
    if hits == [] then []
    else
      var k := |hits| - 1;
      LoopLog(jobId, session, tracks, hits[..k], delay) + TrackSteps(jobId, session, tracks, k, hits[k], delay)
  }

  /**
   * The synchronous start of `analyzePlaylist(jobId, session)`: fetch the
   * job, mark it `analyzing`, then build the API client, which throws when
   * the session has no YouTube tokens.
   */
  method BeginAnalysis(store: JobStore, jobId: string, authenticated: bool, now: int)
    returns (job: Option<Job>, thrown: Option<string>)
    modifies store
    ensures var fetched := Fetched(old(store.jobs), old(store.disk), jobId);
      && (fetched.None? ==> job == None && thrown == None && store.jobs == old(store.jobs) && store.disk == old(store.disk))
      && (fetched.Some? ==>
        && job == Some(WithStatus(fetched.value, Analyzing, None, now))
        && store.jobs == old(store.jobs)[jobId := job.value]
        && store.disk == old(store.disk)[jobId := job.value]
        && thrown == (if authenticated then None else Some(NotAuthenticated)))
  {
    var got := store.GetJob(jobId);
    if got.None? {
      return None, None;
    }
    var updated := store.UpdateJobStatus(jobId, Analyzing, None, now);
    job := updated;
    thrown := if authenticated then None else Some(NotAuthenticated);
  }

  lemma MatchedUpToStep(job: Job, hits: seq<Option<VideoMatch>>, hit: Option<VideoMatch>)
    requires |hits| < |job.tracks|
    ensures MatchedUpTo(job, hits + [hit]) == WithMatch(MatchedUpTo(job, hits), |hits|, hit, StatusOf(hit))
  {
    assert (hits + [hit])[..|hits|] == hits;
  }

  lemma LoopLogStep(jobId: string, session: string, tracks: seq<Track>, hits: seq<Option<VideoMatch>>,
                    hit: Option<VideoMatch>, delay: nat)
    requires |hits| < |tracks|
    ensures LoopLog(jobId, session, tracks, hits + [hit], delay)
      == LoopLog(jobId, session, tracks, hits, delay) + TrackSteps(jobId, session, tracks, |hits|, hit, delay)
  {
    assert (hits + [hit])[..|hits|] == hits;
  }

  /** The `searching` mark on track `i` does not survive the match update that follows it. */
  lemma SearchingOverwritten(job: Job, i: nat, hit: Option<VideoMatch>, status: TrackStatus)
    requires i < |job.tracks|
    ensures WithMatch(WithTrackStatus(job, i, Searching), i, hit, status) == WithMatch(job, i, hit, status)
  {
    assert WithMatch(WithTrackStatus(job, i, Searching), i, hit, status).tracks == WithMatch(job, i, hit, status).tracks;
  }

  /**
   * One pass of the loop of `analyzePlaylist` over track `i`: mark it
   * `searching`, report progress, search, record the match as `found` or
   * `not_found`, report it, and wait unless it is the last track.
   */
  method AnalyzeTrack(store: JobStore, cache: SC.Cache, jobId: string, job: Job, i: nat,
                      search: (nat, string) -> ApiOutcome<seq<VideoItem>>, now: int)
    returns (hit: Option<VideoMatch>, sent: Option<string>, steps: seq<Step>)
    requires i < |job.tracks|
    requires jobId in store.jobs && |store.jobs[jobId].tracks| == |job.tracks|
    modifies store, cache
    ensures store.jobs == old(store.jobs)[jobId := WithMatch(old(store.jobs)[jobId], i, hit, StatusOf(hit))]
    ensures forall k :: k != jobId ==>
      (k in store.disk <==> k in old(store.disk)) && (k in store.disk ==> store.disk[k] == old(store.disk)[k])
    ensures Searched(hit, cache.State(), sent) == SearchSpec(old(cache.State()), job.tracks[i].artists, job.tracks[i].name,
      search(i, Query(job.tracks[i].artists, job.tracks[i].name)), now)
    ensures steps == TrackSteps(jobId, job.sessionId, job.tracks, i, hit, store.rateLimitDelay)
  {
    var n := |job.tracks|;
    var track := job.tracks[i];
    ghost var before := store.jobs[jobId];
    store.jobs := store.jobs[jobId := WithTrackStatus(store.jobs[jobId], i, Searching)];
    var progress := Send(job.sessionId, AnalysisProgress(jobId, i + 1, n, track.name, track.artists));
    hit, sent := SearchVideo(cache, track.artists, track.name, search(i, Query(track.artists, track.name)), now);
    var status := if hit.Some? then Found else NotFound;
    var _ := store.UpdateTrackMatch(jobId, i, hit, status);
    SearchingOverwritten(before, i, hit, status);
    var reported := Send(job.sessionId, AnalysisMatch(jobId, i + 1, n, track.name, track.artists, hit, status));
    steps := [progress, reported];
    if i < n - 1 {
      steps := steps + [Delay(store.rateLimitDelay)];
    }
  }

  /** `AnalyzeTrack` on the next track extends the run of searches, the matches and the log by that track. */
  method AnalyzeNext(store: JobStore, cache: SC.Cache, jobId: string, job: Job,
                     search: (nat, string) -> ApiOutcome<seq<VideoItem>>, now: int,
                     ghost st0: SC.CacheState, hits: seq<Option<VideoMatch>>)
    returns (hit: Option<VideoMatch>, steps: seq<Step>)
    requires |hits| < |job.tracks|
    requires jobId in store.jobs && store.jobs[jobId] == MatchedUpTo(job, hits)
    requires Searches(st0, job.tracks, |hits|, search, now) == Run(hits, cache.State())
    modifies store, cache
    ensures Searches(st0, job.tracks, |hits| + 1, search, now) == Run(hits + [hit], cache.State())
    ensures store.jobs == old(store.jobs)[jobId := MatchedUpTo(job, hits + [hit])]
    ensures forall k :: k != jobId ==>
      (k in store.disk <==> k in old(store.disk)) && (k in store.disk ==> store.disk[k] == old(store.disk)[k])
    ensures steps == TrackSteps(jobId, job.sessionId, job.tracks, |hits|, hit, store.rateLimitDelay)
  {
    var sent;
    hit, sent, steps := AnalyzeTrack(store, cache, jobId, job, |hits|, search, now);
    MatchedUpToStep(job, hits, hit);
    assert (hits + [hit])[..|hits|] == hits;
  }

  /**
   * The loop of `analyzePlaylist` over every track of `job`, in order; it
   * returns the search results and the steps taken.
   */
  method AnalyzeLoop(store: JobStore, cache: SC.Cache, jobId: string, job: Job,
                     search: (nat, string) -> ApiOutcome<seq<VideoItem>>, now: int)
    returns (hits: seq<Option<VideoMatch>>, log: seq<Step>)
    requires jobId in store.jobs && store.jobs[jobId] == job
    modifies store, cache
    ensures Run(hits, cache.State()) == Searches(old(cache.State()), job.tracks, |job.tracks|, search, now)
    ensures store.jobs == old(store.jobs)[jobId := MatchedUpTo(job, hits)]
    ensures forall k :: k != jobId ==>
      (k in store.disk <==> k in old(store.disk)) && (k in store.disk ==> store.disk[k] == old(store.disk)[k])
    ensures log == LoopLog(jobId, job.sessionId, job.tracks, hits, store.rateLimitDelay)
  {
    var n := |job.tracks|;
    ghost var st0 := cache.State();
    hits := [];
    log := [];
    while |hits| < n
      invariant |hits| <= n
      invariant store.jobs == old(store.jobs)[jobId := MatchedUpTo(job, hits)]
      invariant forall k :: k != jobId ==>
        (k in store.disk <==> k in old(store.disk)) && (k in store.disk ==> store.disk[k] == old(store.disk)[k])
      invariant Searches(st0, job.tracks, |hits|, search, now) == Run(hits, cache.State())
      invariant log == LoopLog(jobId, job.sessionId, job.tracks, hits, store.rateLimitDelay)
      decreases n - |hits|
    {
      var hit, steps := AnalyzeNext(store, cache, jobId, job, search, now, st0, hits);
      log := log + steps;
      LoopLogStep(jobId, job.sessionId, job.tracks, hits, hit, store.rateLimitDelay);
      hits := hits + [hit];
    }
  }

  /**
   * The rest of `analyzePlaylist`, on the in-memory `job` that
   * `BeginAnalysis` left: the loop over the tracks, then the job marked
   * `complete` and the stats of the completed job reported.
   */
  method AnalyzeTracks(store: JobStore, cache: SC.Cache, jobId: string, job: Job,
                       search: (nat, string) -> ApiOutcome<seq<VideoItem>>, now: int)
    returns (hits: seq<Option<VideoMatch>>, log: seq<Step>)
    requires jobId in store.jobs && store.jobs[jobId] == job
    modifies store, cache
    ensures Run(hits, cache.State()) == Searches(old(cache.State()), job.tracks, |job.tracks|, search, now)
    ensures store.jobs == old(store.jobs)[jobId := Finished(job, hits, now)]
    ensures store.disk == old(store.disk)[jobId := Finished(job, hits, now)]
    ensures log == LoopLog(jobId, job.sessionId, job.tracks, hits, store.rateLimitDelay)
                   + [Send(job.sessionId, CompletionEvent(jobId, Finished(job, hits, now)))]
  {
    var loopLog;
    hits, loopLog := AnalyzeLoop(store, cache, jobId, job, search, now);
    ghost var jobs, disk := store.jobs, store.disk;
    var done := CompleteAnalysis(store, jobId, now);
    assert done == Finished(job, hits, now);
    UpdateSameKey(jobs, old(store.jobs), jobId, done);
    UpdateSameKey(disk, old(store.disk), jobId, done);
    log := loopLog + [Send(job.sessionId, CompletionEvent(jobId, done))];
  }

  /** Two maps that agree away from `key` are equal once `key` is set in both. */
  lemma UpdateSameKey<K, V>(a: map<K, V>, b: map<K, V>, key: K, v: V)
    requires forall k :: k != key ==> (k in a <==> k in b) && (k in a ==> a[k] == b[k])
    ensures a[key := v] == b[key := v]
  {
  }

  /**
   * The end of `analyzePlaylist`: mark the job `complete`, then read it
   * back for the stats of the completion message.
   */
  method CompleteAnalysis(store: JobStore, jobId: string, now: int) returns (done: Job)
    requires jobId in store.jobs
    modifies store
    ensures done == WithStatus(old(store.jobs)[jobId], Complete, None, now)
    ensures store.jobs == old(store.jobs)[jobId := done]
    ensures store.disk == old(store.disk)[jobId := done]
  {
    var _ := store.UpdateJobStatus(jobId, Complete, None, now);
    var completed := store.GetJob(jobId);
    done := completed.value;
  }

  // ---------------------------------------------------------------- properties of the analysis

  /**
   * After the matches of the first `|hits|` tracks: track `k` holds hit `k`
   * and its status, the later tracks are untouched, progress stands at
   * `|hits|`, and no other field of the job differs.
   */
  lemma {:induction false} MatchedUpToTracks(job: Job, hits: seq<Option<VideoMatch>>)
    requires |hits| <= |job.tracks|
    ensures forall k :: 0 <= k < |hits| ==>
      MatchedUpTo(job, hits).tracks[k] == job.tracks[k].(youtubeMatch := hits[k], status := StatusOf(hits[k]))
    ensures forall k :: |hits| <= k < |job.tracks| ==> MatchedUpTo(job, hits).tracks[k] == job.tracks[k]
    ensures MatchedUpTo(job, hits).progress == if hits == [] then job.progress else Progress(|hits|, job.progress.total)
    ensures MatchedUpTo(job, hits).(tracks := job.tracks, progress := job.progress) == job
    decreases |hits|
  {
    if hits != [] {
      var k := |hits| - 1;
      MatchedUpToTracks(job, hits[..k]);
    }
  }

  /**
   * The job an analysis leaves: `complete`, stamped, every track `found`
   * with its match exactly when the search found one and `not_found` with
   * none otherwise, manual overrides kept, and progress at the last track.
   */
  lemma AnalysisOutcome(job: Job, hits: seq<Option<VideoMatch>>, now: int)
    requires |hits| == |job.tracks|
    ensures var done := Finished(job, hits, now);
      && done.status == Complete && done.completedAt == Some(now) && done.error == job.error
      && done.id == job.id && done.sessionId == job.sessionId && |done.tracks| == |job.tracks|
      && (forall k :: 0 <= k < |hits| ==>
            && (done.tracks[k].status == Found <==> hits[k].Some?)
            && (done.tracks[k].status == NotFound <==> hits[k].None?)
            && done.tracks[k].youtubeMatch == hits[k]
            && done.tracks[k].manualVideoId == job.tracks[k].manualVideoId
            && done.tracks[k].spotifyId == job.tracks[k].spotifyId)
      && (hits != [] ==> done.progress == Progress(|hits|, job.progress.total))
  {
    MatchedUpToTracks(job, hits);
  }

  /** The number of searches that found a video. */
  function Hits(results: seq<Option<VideoMatch>>): (n: nat)
    ensures n <= |results|
  {
    if results == [] then 0 else (if results[0].Some? then 1 else 0) + Hits(results[1..])
  }

  /** Tracks whose statuses are those of `results` count as `found` and `not_found` as the results say. */
  lemma {:induction false} CountStatusOfResults(tracks: seq<Track>, results: seq<Option<VideoMatch>>)
    requires |tracks| == |results|
    requires forall k :: 0 <= k < |tracks| ==> tracks[k].status == StatusOf(results[k])
    ensures CountStatus(tracks, Found) == Hits(results)
    ensures CountStatus(tracks, NotFound) == |results| - Hits(results)
  {
    if tracks != [] {
      CountStatusOfResults(tracks[1..], results[1..]);
    }
  }

  /**
   * The completion message: `found` counts the searches that found a video,
   * `notFound` the others, and together they make up `total`.
   */
  lemma CompletionStats(jobId: string, job: Job, hits: seq<Option<VideoMatch>>, now: int)
    requires |hits| == |job.tracks|
    ensures CompletionEvent(jobId, Finished(job, hits, now)) == AnalysisComplete(jobId, Hits(hits), |hits| - Hits(hits), |hits|)
  {
    var tracks := Finished(job, hits, now).tracks;
    assert tracks == MatchedUpTo(job, hits).tracks;
    forall k | 0 <= k < |tracks| ensures tracks[k].status == StatusOf(hits[k]) {
      MatchedUpToTracks(job, hits);
    }
    CountStatusOfResults(tracks, hits);
  }

  /** Every track has one of the five statuses, so a `manual` track counts neither as found nor as not found. */
  lemma {:induction false} StatusPartition(tracks: seq<Track>)
    ensures CountStatus(tracks, TrackPending) + CountStatus(tracks, Searching) + CountStatus(tracks, Found)
      + CountStatus(tracks, NotFound) + CountStatus(tracks, Manual) == |tracks|
  {
    if tracks != [] {
      StatusPartition(tracks[1..]);
    }
  }

  /**
   * The steps of the loop: track `k` gives its progress message at `3k`, its
   * match message at `3k + 1` and a wait at `3k + 2`, except that the last
   * track of the job is not followed by a wait.
   */
  lemma {:induction false} LoopLogShape(jobId: string, session: string, tracks: seq<Track>,
                                        hits: seq<Option<VideoMatch>>, delay: nat)
    requires |hits| <= |tracks|
    ensures |LoopLog(jobId, session, tracks, hits, delay)| == 3 * |hits| - (if 0 < |hits| == |tracks| then 1 else 0)
    ensures forall k :: 0 <= k < |hits| ==>
      && LoopLog(jobId, session, tracks, hits, delay)[3 * k]
           == Send(session, AnalysisProgress(jobId, k + 1, |tracks|, tracks[k].name, tracks[k].artists))
      && LoopLog(jobId, session, tracks, hits, delay)[3 * k + 1]
           == Send(session, AnalysisMatch(jobId, k + 1, |tracks|, tracks[k].name, tracks[k].artists, hits[k], StatusOf(hits[k])))
      && (k < |tracks| - 1 ==> LoopLog(jobId, session, tracks, hits, delay)[3 * k + 2] == Delay(delay))
    decreases |hits|
  {
    if hits != [] {
      var k := |hits| - 1;
      LoopLogShape(jobId, session, tracks, hits[..k], delay);
    }
  }

  /** The number of waits in a log. */
  function Delays(log: seq<Step>): (n: nat)
    ensures n <= |log|
  {
    if log == [] then 0 else (if log[0].Delay? then 1 else 0) + Delays(log[1..])
  }

  lemma {:induction false} DelaysConcat(a: seq<Step>, b: seq<Step>)
    ensures Delays(a + b) == Delays(a) + Delays(b)
  {
    if a != [] {
      assert (a + b)[0] == a[0] && (a + b)[1..] == a[1..] + b;
      DelaysConcat(a[1..], b);
    } else {
      assert a + b == b;
    }
  }

  /** Over `n` tracks the analysis waits `n - 1` times: after every track but the last. */
  lemma {:induction false} LoopDelays(jobId: string, session: string, tracks: seq<Track>,
                                      hits: seq<Option<VideoMatch>>, delay: nat)
    requires |hits| <= |tracks|
    ensures Delays(LoopLog(jobId, session, tracks, hits, delay)) == |hits| - (if 0 < |hits| == |tracks| then 1 else 0)
    decreases |hits|
  {
    if hits != [] {
      var k := |hits| - 1;
      LoopDelays(jobId, session, tracks, hits[..k], delay);
      var steps := TrackSteps(jobId, session, tracks, k, hits[k], delay);
      var messages, wait := steps[..2], steps[2..];
      assert steps == messages + wait;
      assert Delays(messages) == 0 by {
        assert messages[1..][1..] == [];
      }
      assert Delays(wait) == if k < |tracks| - 1 then 1 else 0 by {
        if wait != [] {
          assert wait[1..] == [];
        }
      }
      DelaysConcat(messages, wait);
      DelaysConcat(LoopLog(jobId, session, tracks, hits[..k], delay), steps);
    }
  }

  // ================================================================ /analyze

  /** The body of an `/analyze` request; `tracks` is None when it is missing or not an array. */
  datatype AnalyzeRequest = AnalyzeRequest(playlist: Option<PlaylistInfo>, tracks: Option<seq<TrackInput>>, sessionId: Option<string>)

  /** The checks `/analyze` makes before creating a job, in order: the rejection, if any. */
  function Rejection(req: AnalyzeRequest, maxSize: nat): (r: Option<Response>)
    ensures r.None? <==> req.tracks.Some? && req.tracks.value != [] && Truthy(req.sessionId) && |req.tracks.value| <= maxSize
    ensures r.Some? ==> (r.value.Fail? && r.value.code == 400) || r.value.TooLarge?
    ensures req.tracks.Some? && req.tracks.value != [] && |req.tracks.value| > maxSize && Truthy(req.sessionId) ==>
      r == Some(TooLarge(maxSize, |req.tracks.value|))
  {
    if req.tracks.None? || req.tracks.value == [] then Some(Fail(400, "No tracks provided"))
    else if !Truthy(req.sessionId) then Some(Fail(400, "Session ID required"))
    else if |req.tracks.value| > maxSize then Some(TooLarge(maxSize, |req.tracks.value|))
    else None
  }

  /**
   * `POST /analyze`, with the background analysis run to its end. The
   * response is built after the synchronous start of the analysis, so it
   * reports the job as `analyzing`. A request refused by the checks, or
   * one without a playlist (on which `createJob` throws), changes nothing.
   */
  method AnalyzeRoute(store: JobStore, cache: SC.Cache, req: AnalyzeRequest, authenticated: bool, id: string,
                      search: (nat, string) -> ApiOutcome<seq<VideoItem>>, now: int)
    returns (resp: Response, log: seq<Step>)
    modifies store, cache
    ensures !authenticated || Rejection(req, store.maxPlaylistSize).Some? || req.playlist.None? ==>
      && store.jobs == old(store.jobs) && store.disk == old(store.disk) && cache.State() == old(cache.State())
      && log == []
      && resp == if !authenticated then Fail(401, NotAuthenticated)
                 else if Rejection(req, store.maxPlaylistSize).Some? then Rejection(req, store.maxPlaylistSize).value
                 else Fail(400, MissingPlaylistMessage)
    ensures authenticated && Rejection(req, store.maxPlaylistSize).None? && req.playlist.Some? ==>
      var start := WithStatus(NewJob(req.sessionId.value, req.playlist.value, req.tracks.value, id, now), Analyzing, None, now);
      var run := Searches(old(cache.State()), start.tracks, |start.tracks|, search, now);
      var done := Finished(start, run.results, now);
      && resp == Started(id, Analyzing, |req.tracks.value|)
      && store.jobs == old(store.jobs)[id := done] && store.disk == old(store.disk)[id := done]
      && cache.State() == run.final
      && log == LoopLog(id, start.sessionId, start.tracks, run.results, store.rateLimitDelay)
                + [Send(start.sessionId, CompletionEvent(id, done))]
  {
    if !authenticated {
      return Fail(401, NotAuthenticated), [];
    }
    var rejected := Rejection(req, store.maxPlaylistSize);
    if rejected.Some? {
      return rejected.value, [];
    }
    if req.playlist.None? {
      return Fail(400, MissingPlaylistMessage), [];
    }
    var created := store.CreateJob(req.sessionId.value, req.playlist.value, req.tracks.value, id, now);
    ghost var jobs, disk := store.jobs, store.disk;
    var started, _ := BeginAnalysis(store, id, true, now);
    resp := Started(id, store.jobs[id].status, |req.tracks.value|);
    ghost var jobs', disk' := store.jobs, store.disk;
    var hits;
    hits, log := AnalyzeTracks(store, cache, id, started.value, search, now);
    UpdateSameKey(jobs', old(store.jobs), id, Finished(started.value, hits, now));
    UpdateSameKey(disk', old(store.disk), id, Finished(started.value, hits, now));
  }

  // ================================================================ manual override

  /**
   * `POST /analysis/:jobId/track/:trackIndex/manual`. `trackIndex` is what
   * `parseInt` makes of the path segment (None for NaN). The id stored is
   * the one extracted from `videoId`.
   */
  method ManualRoute(store: JobStore, authenticated: bool, jobId: string, trackIndex: Option<int>, videoId: Option<string>)
    returns (resp: Response)
    modifies store
    ensures !authenticated || !Truthy(videoId) ==>
      && resp == (if !authenticated then Fail(401, NotAuthenticated) else Fail(400, "Video ID required"))
      && store.jobs == old(store.jobs) && store.disk == old(store.disk)
    ensures authenticated && Truthy(videoId) ==>
      var saved := ExtractVideoId(videoId.value);
      if trackIndex.Some? && jobId in old(store.jobs) && 0 <= trackIndex.value < |old(store.jobs)[jobId].tracks| then
        && resp == ManualSaved(saved)
        && store.jobs == old(store.jobs)[jobId := WithManual(old(store.jobs)[jobId], trackIndex.value, saved)]
        && store.disk == old(store.disk)[jobId := store.jobs[jobId]]
      else
        resp == Fail(404, "Job or track not found") && store.jobs == old(store.jobs) && store.disk == old(store.disk)
  {
    if !authenticated {
      return Fail(401, NotAuthenticated);
    }
    if !Truthy(videoId) {
      return Fail(400, "Video ID required");
    }
    var saved := ExtractVideoId(videoId.value);
    var ok := false;
    if trackIndex.Some? {
      ok := store.SetManualVideoId(jobId, trackIndex.value, saved);
    }
    if !ok {
      return Fail(404, "Job or track not found");
    }
    return ManualSaved(saved);
  }

  // ================================================================ /migrate

  /** `track.manualVideoId || track.youtubeMatch?.id`. */
  function VideoIdFor(t: Track): Option<string> {
    if Truthy(t.manualVideoId) then t.manualVideoId
    else if t.youtubeMatch.Some? then Some(t.youtubeMatch.value.id)
    else None
  }

  /** A saved manual override is the id `/migrate` adds, ahead of any match; it is never empty. */
  lemma ManualOverrideWins(job: Job, i: nat, raw: string)
    requires i < |job.tracks| && raw != ""
    ensures var t := WithManual(job, i, ExtractVideoId(raw)).tracks[i];
      VideoIdFor(t) == Some(ExtractVideoId(raw)) && Truthy(VideoIdFor(t))
  {
    ExtractNonEmpty(raw);
  }

  /** The entry of `results` for one track, given the outcome of adding its video. */
  function TrackOutcome(t: Track, added: ApiOutcome<()>): TrackResult {
    var id := VideoIdFor(t);
    if !Truthy(id) then Skipped(t.name, "No video ID")
    else match added
      case Returned(_) => Added(t.name, id.value)
      case Threw(message) => AddFailed(t.name, message)
  }

  /** The entries of the first `i` tracks, in order; `add(k)` is the outcome of adding track `k`. */
  function Outcomes(tracks: seq<Track>, add: nat -> ApiOutcome<()>, i: nat): seq<TrackResult>
    requires i <= |tracks|
  {
    if i == 0 then [] else Outcomes(tracks, add, i - 1) + [TrackOutcome(tracks[i - 1], add(i - 1))]
  }

  /** The steps for track `i`: progress, the add request and its report (or the skip), then the pause. */
  function TransferSteps(session: string, tracks: seq<Track>, playlistId: string, i: nat, added: ApiOutcome<()>): seq<Step>
    requires i < |tracks|
  {
    var t := tracks[i];
    var n := |tracks|;
    var id := VideoIdFor(t);
    [Send(session, Processing(i + 1, n, t.name, t.artists))]
    + (if !Truthy(id) then [Send(session, TrackSkipped(i + 1, n, t.name))]
       else [Call(PlaylistItemInsert(playlistId, id.value)),
             Send(session, match added
                             case Returned(_) => TrackAdded(i + 1, n, t.name)
                             case Threw(message) => TrackFailed(i + 1, n, t.name, message))])
    + [Delay(AddDelay)]
  }

  /** The steps of the loop over the first `i` tracks. */
  function TransferLog(session: string, tracks: seq<Track>, playlistId: string, add: nat -> ApiOutcome<()>, i: nat): seq<Step>
    requires i <= |tracks|
  {
    if i == 0 then []
    else TransferLog(session, tracks, playlistId, add, i - 1) + TransferSteps(session, tracks, playlistId, i - 1, add(i - 1))
  }

  /** `successCount`: the entries that were added. */
  function Successes(results: seq<TrackResult>): (n: nat)
    ensures n <= |results|
  {
    if results == [] then 0
    else Successes(results[..|results| - 1]) + (if results[|results| - 1].Added? then 1 else 0)
  }

  /** `skipCount`: the entries that had no video id. */
  function Skips(results: seq<TrackResult>): (n: nat)
    ensures n <= |results|
  {
    if results == [] then 0
    else Skips(results[..|results| - 1]) + (if results[|results| - 1].Skipped? then 1 else 0)
  }

  /** The entries whose add failed. */
  function Failures(results: seq<TrackResult>): (n: nat)
    ensures n <= |results|
  {
    if results == [] then 0
    else Failures(results[..|results| - 1]) + (if results[|results| - 1].AddFailed? then 1 else 0)
  }

  /** One pass of the `/migrate` loop: report, add the video if there is an id, report the outcome, pause. */
  method TransferTrack(session: string, tracks: seq<Track>, playlistId: string, i: nat, added: ApiOutcome<()>)
    returns (entry: TrackResult, steps: seq<Step>)
    requires i < |tracks|
    ensures entry == TrackOutcome(tracks[i], added)
    ensures steps == TransferSteps(session, tracks, playlistId, i, added)
  {
    var track := tracks[i];
    var n := |tracks|;
    var videoId := VideoIdFor(track);
    steps := [Send(session, Processing(i + 1, n, track.name, track.artists))];
    if Truthy(videoId) {
      steps := steps + [Call(PlaylistItemInsert(playlistId, videoId.value))];
      match added {
        case Returned(_) =>
          entry := Added(track.name, videoId.value);
          steps := steps + [Send(session, TrackAdded(i + 1, n, track.name))];
        case Threw(message) =>
          entry := AddFailed(track.name, message);
          steps := steps + [Send(session, TrackFailed(i + 1, n, track.name, message))];
      }
    } else {
      entry := Skipped(track.name, "No video ID");
      steps := steps + [Send(session, TrackSkipped(i + 1, n, track.name))];
    }
    steps := steps + [Delay(AddDelay)];
  }

  /** The loop of `/migrate` over `tracks`: every track is tried, a failed add does not stop it. */
  method TransferTracks(session: string, tracks: seq<Track>, playlistId: string, add: nat -> ApiOutcome<()>)
    returns (results: seq<TrackResult>, successCount: nat, skipCount: nat, log: seq<Step>)
    ensures results == Outcomes(tracks, add, |tracks|)
    ensures successCount == Successes(results) && skipCount == Skips(results)
    ensures log == TransferLog(session, tracks, playlistId, add, |tracks|)
  {
    results, successCount, skipCount, log := [], 0, 0, [];
    var i := 0;
    while i < |tracks|
      invariant i <= |tracks|
      invariant results == Outcomes(tracks, add, i)
      invariant successCount == Successes(results) && skipCount == Skips(results)
      invariant log == TransferLog(session, tracks, playlistId, add, i)
    {
      var entry, steps := TransferTrack(session, tracks, playlistId, i, add(i));
      if entry.Added? {
        successCount := successCount + 1;
      } else if entry.Skipped? {
        skipCount := skipCount + 1;
      }
      log := log + steps;
      assert (results + [entry])[..|results|] == results;
      assert Outcomes(tracks, add, i + 1) == results + [entry];
      results := results + [entry];
      i := i + 1;
    }
  }

  /** Every entry is a success, a skip or a failure: the three counts make up the total. */
  lemma {:induction false} CountsAddUp(results: seq<TrackResult>)
    ensures Successes(results) + Skips(results) + Failures(results) == |results|
  {
    if results != [] {
      CountsAddUp(results[..|results| - 1]);
    }
  }

  /**
   * One entry per track, in order: track `k` is skipped exactly when it has
   * no video id, added with its id when the add succeeds, and failed with
   * the error otherwise.
   */
  lemma {:induction false} OutcomesAt(tracks: seq<Track>, add: nat -> ApiOutcome<()>, i: nat)
    requires i <= |tracks|
    ensures |Outcomes(tracks, add, i)| == i
    ensures forall k :: 0 <= k < i ==>
      && Outcomes(tracks, add, i)[k].track == tracks[k].name
      && (Outcomes(tracks, add, i)[k].Skipped? <==> !Truthy(VideoIdFor(tracks[k])))
      && (Outcomes(tracks, add, i)[k].Added? <==> Truthy(VideoIdFor(tracks[k])) && add(k).Returned?)
      && (Outcomes(tracks, add, i)[k].Added? ==> Outcomes(tracks, add, i)[k].videoId == VideoIdFor(tracks[k]).value)
      && (Outcomes(tracks, add, i)[k].AddFailed? <==> Truthy(VideoIdFor(tracks[k])) && add(k).Threw?)
    decreases i
  {
    if i > 0 {
      OutcomesAt(tracks, add, i - 1);
    }
  }

  /**
   * `POST /migrate`. The job is looked up with `getJob` (so a job only on
   * disk is loaded); `create` is the outcome of creating the playlist and
   * `add(k)` that of adding the video of track `k`.
   */
  method MigrateRoute(store: JobStore, authenticated: bool, jobId: string, sessionId: string,
                      create: ApiOutcome<string>, add: nat -> ApiOutcome<()>)
    returns (resp: Response, log: seq<Step>)
    modifies store`jobs
    ensures store.jobs == if authenticated then Hydrated(old(store.jobs), store.disk, jobId) else old(store.jobs)
    ensures var found := Fetched(old(store.jobs), store.disk, jobId);
      && (!authenticated ==> resp == Fail(401, NotAuthenticated) && log == [])
      && (authenticated && found.None? ==> resp == Fail(404, "Analysis job not found") && log == [])
      && (authenticated && found.Some? && found.value.status != Complete ==>
            resp == Fail(400, "Analysis not complete") && log == [])
      && (authenticated && found.Some? && found.value.status == Complete ==>
            var job := found.value;
            var opening := [Send(sessionId, StatusMessage(CreatingMessage)),
                            Call(PlaylistInsert(job.playlist.name, MigratedDescription))];
            match create
              case Threw(message) =>
                && resp == MigrationFailed(message)
                && log == opening + [Send(sessionId, MigrationError(if message != "" then message else "Migration failed"))]
              case Returned(playlistId) =>
                var url := PlaylistUrlPrefix + playlistId;
                var results := Outcomes(job.tracks, add, |job.tracks|);
                && resp == Migrated(playlistId, url, Successes(results), Skips(results), results)
                && log == opening + [Send(sessionId, PlaylistCreated(playlistId, url))]
                          + TransferLog(sessionId, job.tracks, playlistId, add, |job.tracks|)
                          + [Send(sessionId, MigrationComplete(playlistId, url, Successes(results), Skips(results), |job.tracks|))])
  {
    if !authenticated {
      return Fail(401, NotAuthenticated), [];
    }
    var found := store.GetJob(jobId);
    if found.None? {
      return Fail(404, "Analysis job not found"), [];
    }
    var job := found.value;
    if job.status != Complete {
      return Fail(400, "Analysis not complete"), [];
    }
    log := [Send(sessionId, StatusMessage(CreatingMessage)), Call(PlaylistInsert(job.playlist.name, MigratedDescription))];
    match create {
      case Threw(message) =>
        log := log + [Send(sessionId, MigrationError(if message != "" then message else "Migration failed"))];
        return MigrationFailed(message), log;
      case Returned(playlistId) =>
        var url := PlaylistUrlPrefix + playlistId;
        log := log + [Send(sessionId, PlaylistCreated(playlistId, url))];
        var results, successCount, skipCount, steps := TransferTracks(sessionId, job.tracks, playlistId, add);
        log := log + steps + [Send(sessionId, MigrationComplete(playlistId, url, successCount, skipCount, |job.tracks|))];
        return Migrated(playlistId, url, successCount, skipCount, results), log;
    }
  }
}
