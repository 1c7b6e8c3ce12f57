/**
 * The search-result cache of `src/services/searchCache.js`: a map from a
 * normalized (artists, title) key to the last YouTube search result for it,
 * with a 30-day lifetime and a snapshot on disk.
 */
module SearchCache {
  import opened Common
  import opened Text

  const Day: int := 24 * 60 * 60 * 1000
  /** Lifetime of an entry, in milliseconds. */
  const MaxAge: int := 30 * Day
  /** `cacheSearch` writes the snapshot when the entry count is a multiple of this. */
  const FlushEvery: nat := 10

  // ---------------------------------------------------------------- keys

  /** The artist names, each lower-cased and trimmed, in their given order. */
  function NormalizedArtists(artists: seq<string>): seq<string> {
    Apply(Normalize, artists)
  }

  /** `generateCacheKey`: sorted normalized artists joined by `|`, then `::`, then the normalized title. */
  function CacheKey(artists: seq<string>, title: string): string {
    Join(Sort(NormalizedArtists(artists)), "|") + "::" + Normalize(title)
  }

  /** The key does not depend on the order in which the artists are listed. */
  lemma CacheKeyOrderInsensitive(a: seq<string>, b: seq<string>, title: string)
    requires multiset(a) == multiset(b)
    ensures CacheKey(a, title) == CacheKey(b, title)
  {
    ApplyPermutation(Normalize, a, b);
    SortSpec(NormalizedArtists(a));
    SortSpec(NormalizedArtists(b));
    SortedUnique(Sort(NormalizedArtists(a)), Sort(NormalizedArtists(b)));
  }

  /** Names that agree once lower-cased and trimmed give the same key. */
  lemma CacheKeyIgnoresCaseAndPadding(a: seq<string>, b: seq<string>, title: string, title': string)
    requires |a| == |b| && forall i :: 0 <= i < |a| ==> Normalize(a[i]) == Normalize(b[i])
    requires Normalize(title) == Normalize(title')
    ensures CacheKey(a, title) == CacheKey(b, title')
  {
    assert NormalizedArtists(a) == NormalizedArtists(b);
  }

  /** Keying the already-normalized names gives the same key as the raw names. */
  lemma CacheKeyOfNormalized(artists: seq<string>, title: string)
    ensures CacheKey(NormalizedArtists(artists), Normalize(title)) == CacheKey(artists, title)
  {
    NormalizeIdempotent(title);
    forall i | 0 <= i < |artists| ensures Normalize(NormalizedArtists(artists)[i]) == Normalize(artists[i]) {
      NormalizeIdempotent(artists[i]);
    }
    CacheKeyIgnoresCaseAndPadding(NormalizedArtists(artists), artists, Normalize(title), title);
  }

  /** The `|` separator is not escaped: one artist "a|b" and two artists "a", "b" share a key. */
  lemma CacheKeySeparatorCollision(title: string)
    ensures CacheKey(["a|b"], title) == CacheKey(["a", "b"], title)
  {
    NormalizeOfNormal("a|b");
    NormalizeOfNormal("a");
    NormalizeOfNormal("b");
    assert NormalizedArtists(["a|b"]) == ["a|b"];
    assert NormalizedArtists(["a", "b"]) == ["a", "b"];
    assert ["a|b"][1..] == [];
    assert Sort(["a|b"]) == Insert("a|b", Sort([])) == ["a|b"];
    assert Sorted(["a", "b"]) by {
      assert NotAfter("a", "b");
    }
    SortSpec(["a", "b"]);
    SortedUnique(Sort(["a", "b"]), ["a", "b"]);
    assert ["a", "b"][1..] == ["b"];
    var one := Join(Sort(NormalizedArtists(["a|b"])), "|");
    var two := Join(Sort(NormalizedArtists(["a", "b"])), "|");
    assert one == "a|b";
    assert two == "a" + "|" + "b" == "a|b";
  }

  // ---------------------------------------------------------------- state

  /** A cached search: the result (None for "no video found") and when it was stored. */
  datatype Entry = Entry(result: Option<VideoMatch>, cachedAt: int)

  /** The in-memory map and the snapshot last written to disk. */
  datatype CacheState = CacheState(entries: map<string, Entry>, snapshot: map<string, Entry>)

  /** What a lookup accepts: younger than 30 days. */
  predicate Unexpired(e: Entry, now: int) {
    now - e.cachedAt < MaxAge
  }

  /** What the sweep removes: older than 30 days. */
  predicate Expired(e: Entry, now: int) {
    now - e.cachedAt > MaxAge
  }

  /** The outcome of `getCachedSearch`: the value returned and the state afterwards. */
  datatype Lookup = Lookup(result: Option<VideoMatch>, state: CacheState)

  /** `getCachedSearch` on a key: a live entry gives its result, an expired one is deleted. */
  function Get(st: CacheState, key: string, now: int): Lookup {
    if key in st.entries then
      if Unexpired(st.entries[key], now) then Lookup(st.entries[key].result, st)
      else Lookup(None, st.(entries := st.entries - {key}))
    else Lookup(None, st)
  }

  /** `cacheSearch` on a key: upsert, then flush when the size is a multiple of ten. */
  function Put(st: CacheState, key: string, result: Option<VideoMatch>, now: int): CacheState {
    var entries := st.entries[key := Entry(result, now)];
    CacheState(entries, if |entries| % FlushEvery == 0 then entries else st.snapshot)
  }

  /** The entries a sweep at `now` keeps. */
  function Kept(entries: map<string, Entry>, now: int): map<string, Entry> {
    map k | k in entries && !Expired(entries[k], now) :: entries[k]
  }

  /** `cleanupSearchCache`: drop the expired entries, and flush if anything was dropped. */
  function Sweep(st: CacheState, now: int): CacheState {
    var kept := Kept(st.entries, now);
    CacheState(kept, if kept == st.entries then st.snapshot else kept)
  }

  // ---------------------------------------------------------------- lemmas

  /** A live entry is returned as stored and nothing changes; a lookup never touches the snapshot. */
  lemma GetLive(st: CacheState, key: string, now: int)
    requires key in st.entries && Unexpired(st.entries[key], now)
    ensures Get(st, key, now) == Lookup(st.entries[key].result, st)
  {
  }

  /** An expired entry reads as a miss and is deleted; other keys stay. */
  lemma GetExpired(st: CacheState, key: string, now: int)
    requires key in st.entries && !Unexpired(st.entries[key], now)
    ensures Get(st, key, now).result == None
    ensures Get(st, key, now).state.entries.Keys == st.entries.Keys - {key}
    ensures forall k :: k in st.entries && k != key ==> Get(st, key, now).state.entries[k] == st.entries[k]
    ensures Get(st, key, now).state.snapshot == st.snapshot
  {
  }

  /** An absent key reads as a miss and changes nothing. */
  lemma GetAbsent(st: CacheState, key: string, now: int)
    requires key !in st.entries
    ensures Get(st, key, now) == Lookup(None, st)
  {
  }

  /**
   * Reading back what was stored, within 30 days, gives it back. For a stored
   * "no video found" that is None: the same answer as a miss.
   */
  lemma GetAfterPut(st: CacheState, key: string, result: Option<VideoMatch>, stored: int, now: int)
    requires now - stored < MaxAge
    ensures Get(Put(st, key, result, stored), key, now).result == result
    ensures Get(Put(st, key, result, stored), key, now).state == Put(st, key, result, stored)
  {
  }

  /** A stored "no video found" is indistinguishable from a key never searched. */
  lemma StoredNoMatchReadsAsMiss(st: CacheState, key: string, stored: int, now: int)
    requires key !in st.entries
    ensures Get(Put(st, key, None, stored), key, now).result == Get(st, key, now).result
  {
  }

  /** `cacheSearch` is an upsert: the key holds the new entry, every other key is as before. */
  lemma PutUpserts(st: CacheState, key: string, result: Option<VideoMatch>, now: int)
    ensures Put(st, key, result, now).entries.Keys == st.entries.Keys + {key}
    ensures Put(st, key, result, now).entries[key] == Entry(result, now)
    ensures forall k :: k in st.entries && k != key ==> Put(st, key, result, now).entries[k] == st.entries[k]
  {
  }

  /** Repeating `cacheSearch` with the same result changes only the timestamp. */
  lemma PutTwice(st: CacheState, key: string, result: Option<VideoMatch>, t1: int, t2: int)
    ensures Put(Put(st, key, result, t1), key, result, t2).entries == Put(st, key, result, t2).entries
  {
  }

  /** The entry count after an upsert: one more for a new key, the same for an overwrite. */
  lemma PutSize(st: CacheState, key: string, result: Option<VideoMatch>, now: int)
    ensures |Put(st, key, result, now).entries| == |st.entries| + (if key in st.entries then 0 else 1)
  {
    var entries := Put(st, key, result, now).entries;
    assert entries.Keys == st.entries.Keys + {key};
    if key in st.entries {
      assert entries.Keys == st.entries.Keys;
    } else {
      assert |st.entries.Keys + {key}| == |st.entries.Keys| + 1;
    }
  }

  /**
   * The snapshot is rewritten exactly when the size after the upsert is a
   * multiple of ten; an overwrite at such a size flushes again.
   */
  lemma PutFlushes(st: CacheState, key: string, result: Option<VideoMatch>, now: int)
    ensures var after := Put(st, key, result, now);
      after.snapshot == (if |after.entries| % FlushEvery == 0 then after.entries else st.snapshot)
    ensures key in st.entries && |st.entries| % FlushEvery == 0 ==>
      Put(st, key, result, now).snapshot == Put(st, key, result, now).entries
  {
    PutSize(st, key, result, now);
  }

  /** The sweep removes exactly the entries older than 30 days and leaves the others untouched. */
  lemma SweepRemovesExactlyExpired(st: CacheState, now: int)
    ensures forall k :: k in Sweep(st, now).entries <==> k in st.entries && !Expired(st.entries[k], now)
    ensures forall k :: k in Sweep(st, now).entries ==> Sweep(st, now).entries[k] == st.entries[k]
  {
  }

  /** The sweep flushes exactly when some entry was expired. */
  lemma SweepFlushesIffRemoved(st: CacheState, now: int)
    ensures Sweep(st, now).snapshot != st.snapshot ==> exists k :: k in st.entries && Expired(st.entries[k], now)
    ensures (exists k :: k in st.entries && Expired(st.entries[k], now)) ==> Sweep(st, now).snapshot == Sweep(st, now).entries
  {
    var kept := Kept(st.entries, now);
    if exists k :: k in st.entries && Expired(st.entries[k], now) {
      var k :| k in st.entries && Expired(st.entries[k], now);
      assert k !in kept;
    } else {
      assert kept == st.entries;
    }
  }

  /** A second sweep at the same instant changes nothing. */
  lemma SweepIdempotent(st: CacheState, now: int)
    ensures Sweep(Sweep(st, now), now) == Sweep(st, now)
  {
    assert Kept(Kept(st.entries, now), now) == Kept(st.entries, now);
  }

  /**
   * At an age of exactly 30 days a lookup no longer accepts an entry (and
   * deletes it), while the sweep still keeps it.
   */
  lemma ThirtyDayBoundary(st: CacheState, key: string, now: int)
    requires key in st.entries && now - st.entries[key].cachedAt == MaxAge
    ensures Get(st, key, now).result == None && key !in Get(st, key, now).state.entries
    ensures key in Sweep(st, now).entries
  {
  }

  // ---------------------------------------------------------------- the module state

  /** The module-level `searchCache` map together with the snapshot file. */
  class Cache {
    var entries: map<string, Entry>
    var snapshot: map<string, Entry>

    function State(): CacheState
      reads this
    {
      CacheState(entries, snapshot)
    }

    /** Module start-up: `loadSearchCache` from the snapshot, then the start-up `cleanupSearchCache`. */
    constructor Load(saved: map<string, Entry>, now: int)
      ensures State() == Sweep(CacheState(saved, saved), now)
    {
      entries, snapshot := saved, saved;
      new;
      var _ := CleanupSearchCache(now);
    }

    /** `getCachedSearch(artists, trackName)` at time `now`. */
    method GetCachedSearch(artists: seq<string>, title: string, now: int) returns (r: Option<VideoMatch>)
      modifies this`entries
      ensures Lookup(r, State()) == Get(old(State()), CacheKey(artists, title), now)
    {
      var key := CacheKey(artists, title);
      if key in entries {
        var cached := entries[key];
        if now - cached.cachedAt < MaxAge {
          return cached.result;
        }
        entries := entries - {key};
      }
      return None;
    }

    /** `cacheSearch(artists, trackName, result)` at time `now`. */
    method CacheSearch(artists: seq<string>, title: string, result: Option<VideoMatch>, now: int)
      modifies this
      ensures State() == Put(old(State()), CacheKey(artists, title), result, now)
    {
      var key := CacheKey(artists, title);
      entries := entries[key := Entry(result, now)];
      if |entries| % FlushEvery == 0 {
        snapshot := entries;
      }
    }

    /** `flushSearchCache`: write the snapshot now. */
    method FlushSearchCache()
      modifies this`snapshot
      ensures snapshot == entries
    {
      snapshot := entries;
    }

    /**
     * `cleanupSearchCache` at time `now`: visits every entry, deletes the
     * expired ones and counts them, and flushes when the count is positive.
     */
    method CleanupSearchCache(now: int) returns (removed: nat)
      modifies this
      ensures State() == Sweep(old(State()), now)
      ensures removed == |old(entries)| - |entries|
    {
      var pending := entries.Keys;
      removed := 0;
      while pending != {}
        invariant pending <= old(entries).Keys
        invariant entries == map k | k in old(entries) && (k in pending || !Expired(old(entries)[k], now)) :: old(entries)[k]
        invariant removed == |old(entries)| - |entries|
        invariant removed == 0 <==> entries == old(entries)
        invariant snapshot == old(snapshot)
        decreases pending
      {
        var k :| k in pending;
        if now - entries[k].cachedAt > MaxAge {
          assert (entries - {k}).Keys == entries.Keys - {k};
          assert |entries.Keys - {k}| == |entries.Keys| - 1;
          entries := entries - {k};
          removed := removed + 1;
        }
        pending := pending - {k};
      }
      assert entries == Kept(old(entries), now);
      if removed > 0 {
        snapshot := entries;
      }
    }
  }
}
