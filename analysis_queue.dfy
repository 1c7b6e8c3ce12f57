/**
 * The job store of `src/services/analysisQueue.js`: the in-memory `jobs`
 * map from job id to job record, backed by one record per job on disk.
 */
module AnalysisQueue {
  import opened Common

  const Day: int := 24 * 60 * 60 * 1000
  /** `cleanupOldJobs` removes jobs older than this, in milliseconds. */
  const MaxJobAge: int := 7 * Day
  /** `updateTrackMatch` saves the job after every this many tracks. */
  const SaveEvery: nat := 10

  /** `pending, searching, found, not_found, manual`. */
  datatype TrackStatus = TrackPending | Searching | Found | NotFound | Manual

  /** `pending, analyzing, complete, error`. */
  datatype JobStatus = Pending | Analyzing | Complete | Error

  /** A track as the client posts it. */
  datatype TrackInput = TrackInput(id: string, name: string, artists: seq<string>, album: Option<string>)

  /** The Spotify playlist summary kept with a job. */
  datatype PlaylistInfo = PlaylistInfo(id: string, name: string, image: Option<string>)

  /** A track of a job with its matching state. */
  datatype Track = Track(
    spotifyId: string, name: string, artists: seq<string>, album: Option<string>,
    youtubeMatch: Option<VideoMatch>, manualVideoId: Option<string>, status: TrackStatus)

  datatype Progress = Progress(current: nat, total: nat)

  datatype Job = Job(
    id: string, sessionId: string, playlist: PlaylistInfo, tracks: seq<Track>,
    status: JobStatus, progress: Progress,
    createdAt: int, completedAt: Option<int>, error: Option<string>)

  /** The error `createJob` throws. */
  datatype CreateError = SizeLimitExceeded(maxSize: nat)

  /** Track `t` of a just-created job: copied from the input, nothing matched yet. */
  predicate IsFreshTrack(t: Track, input: TrackInput) {
    && t.spotifyId == input.id && t.name == input.name
    && t.artists == input.artists && t.album == input.album
    && t.youtubeMatch == None && t.manualVideoId == None && t.status == TrackPending
  }

  /**
   * The record `createJob` builds: a pending job with no progress, its
   * playlist summary, and one unmatched pending track per input track.
   */
  function NewJob(sessionId: string, playlist: PlaylistInfo, tracks: seq<TrackInput>, id: string, now: int): (r: Job)
    ensures r.id == id && r.sessionId == sessionId && r.playlist == playlist
    ensures r.status == Pending && r.progress == Progress(0, |tracks|)
    ensures r.createdAt == now && r.completedAt == None && r.error == None
    ensures |r.tracks| == |tracks|
    ensures forall i :: 0 <= i < |tracks| ==> IsFreshTrack(r.tracks[i], tracks[i])
  {
    var created := seq(|tracks|, i requires 0 <= i < |tracks| =>
      Track(tracks[i].id, tracks[i].name, tracks[i].artists, tracks[i].album, None, None, TrackPending));
    Job(id, sessionId, PlaylistInfo(playlist.id, playlist.name, playlist.image), created,
      Pending, Progress(0, |tracks|), now, None, None)
  }

  /** `updateJobStatus` on one job: any status is accepted; a truthy error replaces the old one. */
  function WithStatus(job: Job, status: JobStatus, error: Option<string>, now: int): (r: Job)
    ensures r.status == status
    ensures r.error == (if Truthy(error) then error else job.error)
    ensures r.completedAt == (if status == Complete || status == Error then Some(now) else job.completedAt)
    ensures r.(status := job.status, error := job.error, completedAt := job.completedAt) == job
  {
    var j := job.(status := status);
    var j := if Truthy(error) then j.(error := error) else j;
    if status == Complete || status == Error then j.(completedAt := Some(now)) else j
  }

  /** `updateTrackMatch` on one job: track `i` gets the match and status, progress moves to `i + 1`. */
  function WithMatch(job: Job, i: nat, hit: Option<VideoMatch>, status: TrackStatus): (r: Job)
    requires i < |job.tracks|
    ensures |r.tracks| == |job.tracks|
    ensures r.tracks[i] == job.tracks[i].(youtubeMatch := hit, status := status)
    ensures forall k :: 0 <= k < |job.tracks| && k != i ==> r.tracks[k] == job.tracks[k]
    ensures r.progress == Progress(i + 1, job.progress.total)
    ensures r.(tracks := job.tracks, progress := job.progress) == job
  {
    var t := job.tracks[i].(youtubeMatch := hit, status := status);
    job.(tracks := job.tracks[i := t], progress := job.progress.(current := i + 1))
  }

  /** Whether `updateTrackMatch` for track `i` writes the job to disk. */
  predicate SavesAfterMatch(job: Job, i: int) {
    (i + 1) % SaveEvery == 0 || i == |job.tracks| - 1
  }

  /** `setManualVideoId` on one job: track `i` gets the id and the status `manual`. */
  function WithManual(job: Job, i: nat, videoId: string): (r: Job)
    requires i < |job.tracks|
    ensures |r.tracks| == |job.tracks|
    ensures r.tracks[i] == job.tracks[i].(manualVideoId := Some(videoId), status := Manual)
    ensures forall k :: 0 <= k < |job.tracks| && k != i ==> r.tracks[k] == job.tracks[k]
    ensures r.(tracks := job.tracks) == job
  {
    job.(tracks := job.tracks[i := job.tracks[i].(manualVideoId := Some(videoId), status := Manual)])
  }

  /** What `cleanupOldJobs` removes: jobs created more than 7 days before `now`. */
  predicate TooOld(job: Job, now: int) {
    now - job.createdAt > MaxJobAge
  }

  /** The jobs `cleanupOldJobs` keeps. */
  function Purged(jobs: map<string, Job>, now: int): map<string, Job> {
    map id | id in jobs && !TooOld(jobs[id], now) :: jobs[id]
  }

  /** The sweep removes exactly the jobs older than 7 days and keeps the others as they are. */
  lemma PurgedExactly(jobs: map<string, Job>, now: int)
    ensures forall id :: id in Purged(jobs, now) <==> id in jobs && now - jobs[id].createdAt <= MaxJobAge
    ensures forall id :: id in Purged(jobs, now) ==> Purged(jobs, now)[id] == jobs[id]
  {
  }

  /** A later sweep keeps no job an earlier one removed. */
  lemma PurgedShrinksOverTime(jobs: map<string, Job>, t1: int, t2: int)
    requires t1 <= t2
    ensures Purged(jobs, t2).Keys <= Purged(jobs, t1).Keys
    ensures Purged(Purged(jobs, t1), t2) == Purged(jobs, t2)
  {
  }

  /** A job is kept up to an age of exactly 7 days, and removed one millisecond later. */
  lemma SevenDayBoundary(jobs: map<string, Job>, id: string)
    requires id in jobs
    ensures id in Purged(jobs, jobs[id].createdAt + MaxJobAge)
    ensures id !in Purged(jobs, jobs[id].createdAt + MaxJobAge + 1)
  {
  }

  /** The newest job first: `sort((a, b) => b.createdAt - a.createdAt)`. */
  predicate NewestFirst(s: seq<Job>) {
    forall i, k :: 0 <= i < k < |s| ==> s[i].createdAt >= s[k].createdAt
  }

  /** No job of `s` is newer than `t`. */
  predicate NoneNewer(t: int, s: seq<Job>) {
    forall k :: 0 <= k < |s| ==> s[k].createdAt <= t
  }

  lemma ConsNewestFirst(x: Job, s: seq<Job>)
    requires NewestFirst(s) && NoneNewer(x.createdAt, s)
    ensures NewestFirst([x] + s)
  {
    var r := [x] + s;
    forall i, k | 0 <= i < k < |r| ensures r[i].createdAt >= r[k].createdAt {
      assert r[k] == s[k - 1];
      if i > 0 {
        assert r[i] == s[i - 1];
      }
    }
  }

  /** Puts `job` after every job at least as new, keeping `s` newest first. */
  function InsertNewestFirst(job: Job, s: seq<Job>): (r: seq<Job>)
    requires NewestFirst(s)
    ensures NewestFirst(r)
    ensures multiset(r) == multiset(s) + multiset{job}
    ensures forall t :: NoneNewer(t, s) && job.createdAt <= t ==> NoneNewer(t, r)
  {
    if s == [] then [job]
    else if s[0].createdAt < job.createdAt then
      ConsNewestFirst(job, s);
      [job] + s
    else
      var rest := InsertNewestFirst(job, s[1..]);
      InsertBehindHead(job, s, rest);
      [s[0]] + rest
  }

  /** Putting the head of `s` back in front of `job` inserted into the tail keeps the three properties. */
  lemma InsertBehindHead(job: Job, s: seq<Job>, rest: seq<Job>)
    requires s != [] && NewestFirst(s) && job.createdAt <= s[0].createdAt
    requires NewestFirst(rest) && multiset(rest) == multiset(s[1..]) + multiset{job}
    requires forall t :: NoneNewer(t, s[1..]) && job.createdAt <= t ==> NoneNewer(t, rest)
    ensures NewestFirst([s[0]] + rest)
    ensures multiset([s[0]] + rest) == multiset(s) + multiset{job}
    ensures forall t :: NoneNewer(t, s) && job.createdAt <= t ==> NoneNewer(t, [s[0]] + rest)
  {
    assert s == [s[0]] + s[1..];
    assert NoneNewer(s[0].createdAt, s[1..]);
    ConsNewestFirst(s[0], rest);
    forall t | NoneNewer(t, s) && job.createdAt <= t ensures NoneNewer(t, [s[0]] + rest) {
      assert NoneNewer(t, s[1..]);
    }
  }

  /** The ids among `within` whose job belongs to the session. */
  ghost function SessionIds(jobs: map<string, Job>, sessionId: string, within: set<string>): set<string> {
    set x | x in within && x in jobs && jobs[x].sessionId == sessionId
  }

  lemma SessionIdsStep(jobs: map<string, Job>, sessionId: string, seen: set<string>, id: string)
    requires id in jobs && id !in seen
    ensures jobs[id].sessionId == sessionId ==>
      SessionIds(jobs, sessionId, seen + {id}) == SessionIds(jobs, sessionId, seen) + {id}
      && |SessionIds(jobs, sessionId, seen + {id})| == |SessionIds(jobs, sessionId, seen)| + 1
    ensures jobs[id].sessionId != sessionId ==>
      SessionIds(jobs, sessionId, seen + {id}) == SessionIds(jobs, sessionId, seen)
  {
  }

  /** The ids among `within` that hold exactly `job`, when it belongs to the session. */
  ghost function Holders(jobs: map<string, Job>, sessionId: string, job: Job, within: set<string>): set<string> {
    set x | x in within && x in jobs && jobs[x] == job && job.sessionId == sessionId
  }

  lemma HoldersStep(jobs: map<string, Job>, sessionId: string, seen: set<string>, id: string)
    requires id in jobs && id !in seen
    ensures forall j :: |Holders(jobs, sessionId, j, seen + {id})| == |Holders(jobs, sessionId, j, seen)| + Count(jobs[id], j, sessionId)
  {
    forall j ensures |Holders(jobs, sessionId, j, seen + {id})| == |Holders(jobs, sessionId, j, seen)| + Count(jobs[id], j, sessionId) {
      if jobs[id] == j && j.sessionId == sessionId {
        assert Holders(jobs, sessionId, j, seen + {id}) == Holders(jobs, sessionId, j, seen) + {id};
      } else {
        assert Holders(jobs, sessionId, j, seen + {id}) == Holders(jobs, sessionId, j, seen);
      }
    }
  }

  /** One when `job` is `j` and belongs to the session, else zero. */
  function Count(job: Job, j: Job, sessionId: string): nat {
    if job == j && j.sessionId == sessionId then 1 else 0
  }

  /** Inserting a job of the session adds one to its multiplicity; skipping one of another session adds nothing. */
  lemma MultiplicityStep(all: map<string, Job>, sessionId: string, seen: set<string>, r: seq<Job>, id: string)
    requires id in all && id !in seen && NewestFirst(r)
    requires forall j :: multiset(r)[j] == |Holders(all, sessionId, j, seen)|
    ensures var r' := if all[id].sessionId == sessionId then InsertNewestFirst(all[id], r) else r;
      forall j :: multiset(r')[j] == |Holders(all, sessionId, j, seen + {id})|
  {
    HoldersStep(all, sessionId, seen, id);
    if all[id].sessionId == sessionId {
      var r' := InsertNewestFirst(all[id], r);
      forall j ensures multiset(r')[j] == |Holders(all, sessionId, j, seen + {id})| {
        assert multiset(r')[j] == multiset(r)[j] + Count(all[id], j, sessionId);
      }
    }
  }

  lemma InsertedMembers(job: Job, s: seq<Job>, r: seq<Job>)
    requires multiset(r) == multiset(s) + multiset{job}
    ensures |r| == |s| + 1
    ensures forall x :: x in r <==> x in s || x == job
  {
    assert |multiset(r)| == |multiset(s)| + 1;
    forall x ensures x in r <==> x in s || x == job {
      assert x in r <==> x in multiset(r);
      assert x in s <==> x in multiset(s);
    }
  }

  /** `r` lists exactly the jobs of the session held by the ids in `seen`, each once per id, newest first. */
  ghost predicate Collected(all: map<string, Job>, sessionId: string, seen: set<string>, r: seq<Job>) {
    && NewestFirst(r)
    && (forall j :: j in r ==> j.sessionId == sessionId && j in all.Values)
    && (forall id :: id in seen && id in all && all[id].sessionId == sessionId ==> all[id] in r)
    && |r| == |SessionIds(all, sessionId, seen)|
    && (forall j :: multiset(r)[j] == |Holders(all, sessionId, j, seen)|)
  }

  /** Visiting one more id keeps `Collected`, inserting its job when it belongs to the session. */
  lemma CollectStep(all: map<string, Job>, sessionId: string, seen: set<string>, r: seq<Job>, id: string)
    requires id in all && id !in seen && Collected(all, sessionId, seen, r)
    ensures Collected(all, sessionId, seen + {id},
      if all[id].sessionId == sessionId then InsertNewestFirst(all[id], r) else r)
  {
    MultiplicityStep(all, sessionId, seen, r, id);
    MembersStep(all, sessionId, seen, r, id);
  }

  /** Visiting one more id keeps the membership and size facts of `Collected`. */
  lemma MembersStep(all: map<string, Job>, sessionId: string, seen: set<string>, r: seq<Job>, id: string)
    requires id in all && id !in seen && NewestFirst(r)
    requires forall j :: j in r ==> j.sessionId == sessionId && j in all.Values
    requires forall x :: x in seen && x in all && all[x].sessionId == sessionId ==> all[x] in r
    requires |r| == |SessionIds(all, sessionId, seen)|
    ensures var r' := if all[id].sessionId == sessionId then InsertNewestFirst(all[id], r) else r;
      && (forall j :: j in r' ==> j.sessionId == sessionId && j in all.Values)
      && (forall x :: x in seen + {id} && x in all && all[x].sessionId == sessionId ==> all[x] in r')
      && |r'| == |SessionIds(all, sessionId, seen + {id})|
  {
    SessionIdsStep(all, sessionId, seen, id);
    if all[id].sessionId == sessionId {
      InsertedMembers(all[id], r, InsertNewestFirst(all[id], r));
    }
  }

  /** Nothing visited, nothing collected. */
  lemma CollectedEmpty(all: map<string, Job>, sessionId: string)
    ensures Collected(all, sessionId, {}, [])
  {
    forall j ensures multiset([])[j] == |Holders(all, sessionId, j, {})| {
      assert Holders(all, sessionId, j, {}) == {};
    }
  }

  /** What `getJob` returns: the in-memory job, else the saved one, else nothing. */
  function Fetched(jobs: map<string, Job>, disk: map<string, Job>, id: string): (r: Option<Job>)
    ensures r.Some? <==> id in jobs || id in disk
    ensures id in jobs ==> r == Some(jobs[id])
  {
    if id in jobs then Some(jobs[id]) else if id in disk then Some(disk[id]) else None
  }

  /** The in-memory map after `getJob`: a job found only on disk has been put into it. */
  function Hydrated(jobs: map<string, Job>, disk: map<string, Job>, id: string): (r: map<string, Job>)
    ensures Fetched(jobs, disk, id).Some? ==> id in r && r[id] == Fetched(jobs, disk, id).value
    ensures forall k :: k != id ==> (k in r <==> k in jobs) && (k in r ==> r[k] == jobs[k])
  {
    if id !in jobs && id in disk then jobs[id := disk[id]] else jobs
  }

  /** The module-level `jobs` map together with the job files on disk. */
  class JobStore {
    /** `MAX_PLAYLIST_SIZE`, as `getMaxPlaylistSize` returns it. */
    const maxPlaylistSize: nat
    /** `RATE_LIMIT_DELAY_MS`, as `getRateLimitDelay` returns it. */
    const rateLimitDelay: nat
    var jobs: map<string, Job>
    var disk: map<string, Job>

    /** Module start-up: `loadAllJobsFromDisk` puts every saved job into memory. */
    constructor Load(maxPlaylistSize: nat, rateLimitDelay: nat, saved: map<string, Job>)
      ensures this.maxPlaylistSize == maxPlaylistSize && this.rateLimitDelay == rateLimitDelay
      ensures jobs == saved && disk == saved
    {
      this.maxPlaylistSize, this.rateLimitDelay := maxPlaylistSize, rateLimitDelay;
      jobs, disk := saved, saved;
    }

    /**
     * `createJob(sessionId, playlist, tracks)` with the id and the clock
     * reading passed in. Too many tracks: the error, and nothing changes.
     * Otherwise a fresh pending job, stored in memory and on disk.
     */
    method CreateJob(sessionId: string, playlist: PlaylistInfo, tracks: seq<TrackInput>, id: string, now: int)
      returns (r: Result<Job, CreateError>)
      modifies this
      ensures |tracks| > maxPlaylistSize ==>
        r == Failure(SizeLimitExceeded(maxPlaylistSize)) && jobs == old(jobs) && disk == old(disk)
      ensures |tracks| <= maxPlaylistSize ==>
        && r == Success(NewJob(sessionId, playlist, tracks, id, now))
        && jobs == old(jobs)[id := r.value] && disk == old(disk)[id := r.value]
    {
      if |tracks| > maxPlaylistSize {
        return Failure(SizeLimitExceeded(maxPlaylistSize));
      }
      var job := NewJob(sessionId, playlist, tracks, id, now);
      jobs := jobs[id := job];
      disk := disk[id := job];
      return Success(job);
    }

    /**
     * `getJob(jobId)`: the in-memory job if there is one; otherwise the job
     * on disk, which is then put into memory; otherwise None.
     */
    method GetJob(id: string) returns (r: Option<Job>)
      modifies this`jobs
      ensures id in old(jobs) ==> r == Some(old(jobs)[id]) && jobs == old(jobs)
      ensures id !in old(jobs) && id in disk ==> r == Some(disk[id]) && jobs == old(jobs)[id := disk[id]]
      ensures id !in old(jobs) && id !in disk ==> r == None && jobs == old(jobs)
      ensures r == Fetched(old(jobs), disk, id) && jobs == Hydrated(old(jobs), disk, id)
    {
      if id in jobs {
        return Some(jobs[id]);
      }
      if id in disk {
        jobs := jobs[id := disk[id]];
        return Some(disk[id]);
      }
      return None;
    }

    /**
     * `getJobsBySession(sessionId)`: exactly the in-memory jobs of the
     * session, each as many times as ids hold it, newest first.
     */
    method GetJobsBySession(sessionId: string) returns (r: seq<Job>)
      ensures forall j :: j in r ==> j.sessionId == sessionId && j in jobs.Values
      ensures forall id :: id in jobs && jobs[id].sessionId == sessionId ==> jobs[id] in r
      ensures |r| == |SessionIds(jobs, sessionId, jobs.Keys)|
      ensures forall j :: multiset(r)[j] == |Holders(jobs, sessionId, j, jobs.Keys)|
      ensures NewestFirst(r)
    {
      var all := jobs;
      var pending := all.Keys;
      ghost var seen: set<string> := {};
      r := [];
      CollectedEmpty(all, sessionId);
      while pending != {}
        invariant pending + seen == all.Keys && pending !! seen
        invariant Collected(all, sessionId, seen, r)
        decreases pending
      {
        var id :| id in pending;
        CollectStep(all, sessionId, seen, r, id);
        if all[id].sessionId == sessionId {
          r := InsertNewestFirst(all[id], r);
        }
        seen := seen + {id};
        pending := pending - {id};
      }
    }

    /**
     * `updateJobStatus(jobId, status, error)`: for an in-memory job, set the
     * status (no transition is refused), keep the error unless a truthy one
     * is passed, stamp `completedAt` on `complete` and `error`, and save.
     * An unknown id changes nothing.
     */
    method UpdateJobStatus(id: string, status: JobStatus, error: Option<string>, now: int) returns (r: Option<Job>)
      modifies this
      ensures id in old(jobs) ==>
        && jobs == old(jobs)[id := WithStatus(old(jobs)[id], status, error, now)]
        && disk == old(disk)[id := jobs[id]]
        && r == Some(jobs[id])
      ensures id !in old(jobs) ==> jobs == old(jobs) && disk == old(disk) && r == None
    {
      if id in jobs {
        var job := jobs[id].(status := status);
        if Truthy(error) {
          job := job.(error := error);
        }
        if status == Complete || status == Error {
          job := job.(completedAt := Some(now));
        }
        jobs := jobs[id := job];
        disk := disk[id := job];
        return Some(job);
      }
      return None;
    }

    /**
     * `updateTrackMatch(jobId, trackIndex, youtubeMatch, status)`: for an
     * in-memory job with that track, record the match and status, move
     * progress to `trackIndex + 1`, and save every tenth track and on the
     * last one. Otherwise nothing changes.
     */
    method UpdateTrackMatch(id: string, i: int, hit: Option<VideoMatch>, status: TrackStatus) returns (r: Option<Job>)
      modifies this
      ensures id in old(jobs) && 0 <= i < |old(jobs)[id].tracks| ==>
        && jobs == old(jobs)[id := WithMatch(old(jobs)[id], i, hit, status)]
        && disk == (if SavesAfterMatch(old(jobs)[id], i) then old(disk)[id := jobs[id]] else old(disk))
        && r == Some(jobs[id])
      ensures !(id in old(jobs) && 0 <= i < |old(jobs)[id].tracks|) ==>
        && jobs == old(jobs) && disk == old(disk)
        && r == (if id in old(jobs) then Some(old(jobs)[id]) else None)
    {
      if id !in jobs {
        return None;
      }
      var job := jobs[id];
      if 0 <= i < |job.tracks| {
        var t := job.tracks[i].(youtubeMatch := hit, status := status);
        job := job.(tracks := job.tracks[i := t], progress := job.progress.(current := i + 1));
        jobs := jobs[id := job];
        if (i + 1) % SaveEvery == 0 || i == |job.tracks| - 1 {
          disk := disk[id := job];
        }
      }
      return Some(job);
    }

    /**
     * `setManualVideoId(jobId, trackIndex, videoId)`: true, with the id
     * recorded, the track marked `manual` and the job saved, exactly when the
     * job is in memory and has that track; otherwise false and no change.
     */
    method SetManualVideoId(id: string, i: int, videoId: string) returns (ok: bool)
      modifies this
      ensures ok <==> id in old(jobs) && 0 <= i < |old(jobs)[id].tracks|
      ensures ok ==> jobs == old(jobs)[id := WithManual(old(jobs)[id], i, videoId)] && disk == old(disk)[id := jobs[id]]
      ensures !ok ==> jobs == old(jobs) && disk == old(disk)
    {
      if id in jobs && 0 <= i < |jobs[id].tracks| {
        var job := jobs[id];
        var t := job.tracks[i].(manualVideoId := Some(videoId), status := Manual);
        job := job.(tracks := job.tracks[i := t]);
        jobs := jobs[id := job];
        disk := disk[id := job];
        return true;
      }
      return false;
    }

    /**
     * `cleanupOldJobs()` at time `now`: visits every in-memory job and
     * deletes, from memory and from disk, those older than 7 days.
     */
    method CleanupOldJobs(now: int)
      modifies this
      ensures jobs == Purged(old(jobs), now)
      ensures disk == old(disk) - (old(jobs).Keys - jobs.Keys)
    {
      var pending := jobs.Keys;
      ghost var removed: set<string> := {};
      while pending != {}
        invariant pending <= old(jobs).Keys && removed <= old(jobs).Keys && pending !! removed
        invariant jobs == map id | id in old(jobs) && (id in pending || !TooOld(old(jobs)[id], now)) :: old(jobs)[id]
        invariant removed == old(jobs).Keys - jobs.Keys
        invariant disk == old(disk) - removed
        decreases pending
      {
        var id :| id in pending;
        if now - jobs[id].createdAt > MaxJobAge {
          jobs := jobs - {id};
          removed := removed + {id};
          if id in disk {
            disk := disk - {id};
          }
        }
        pending := pending - {id};
      }
    }
  }
}
