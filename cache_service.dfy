/**
 * The in-memory summary cache: a dictionary from a key derived from the request to
 * entries that expire a fixed number of seconds after they were stored, with
 * hit/miss/store/eviction counters and a purge of expired entries on every
 * hundredth store. Time is an integer clock reading in seconds passed to each call.
 */
module CacheService {
  import opened Wrappers
  import opened Text
  import opened Schemas

  /** A purge of expired entries runs when the store counter reaches a multiple of this. */
  const CleanupEvery: nat := 100
  /** Chunks longer than this are represented in the key by their two ends only. */
  const FullChunkLimit: nat := 1000
  const ChunkEndLength: nat := 500

  // ---- the key ----

  /** `value or "none"`: an absent or empty value becomes "none". */
  function OrNone(o: Option<string>): (r: string)
    ensures r != ""
    ensures o.Some? && o.value != "" ==> r == o.value
    ensures o.None? || o.value == "" ==> r == "none"
  {
    if o.Some? && o.value != "" then o.value else "none"
  }

  /** The chunk as it enters the key: whole up to 1000 characters, otherwise its first
      500 characters followed by its last 500. */
  function ChunkKeyPart(text: string): (r: string)
    ensures |r| <= FullChunkLimit
    ensures |text| <= FullChunkLimit ==> r == text
    ensures |text| > FullChunkLimit ==>
      r == text[..ChunkEndLength] + text[|text| - ChunkEndLength..]
  {
    if |text| > FullChunkLimit then Take(text, ChunkEndLength) + TakeLast(text, ChunkEndLength)
    else text
  }

  function KeyComponents(r: SummaryRequest): seq<string>
  {
    [OrNone(r.bookId), OrNone(r.chapterTitle), ChunkKeyPart(r.textChunk), ModeValue(r.mode)]
  }

  /** `_generate_key`: the four components joined by "|". The source hashes this string
      with SHA-256 and keeps 32 hex digits; the hash is modelled as injective, so the
      joined string itself is the key. */
  function GenerateKey(r: SummaryRequest): (k: string)
    ensures k == OrNone(r.bookId) + "|" + OrNone(r.chapterTitle) + "|" + ChunkKeyPart(r.textChunk)
                 + "|" + ModeValue(r.mode)
  {
    JoinFour("|", OrNone(r.bookId), OrNone(r.chapterTitle), ChunkKeyPart(r.textChunk), ModeValue(r.mode));
    Join("|", KeyComponents(r))
  }

  /** Two requests that agree on the book (or its absence), the chapter title (or its
      absence), the mode and the part of the chunk the key uses get the same key;
      nothing else about a request (its contexts, the middle of a long chunk) matters. */
  lemma KeyDependsOnlyOnComponents(r1: SummaryRequest, r2: SummaryRequest)
    requires OrNone(r1.bookId) == OrNone(r2.bookId)
    requires OrNone(r1.chapterTitle) == OrNone(r2.chapterTitle)
    requires r1.mode == r2.mode
    requires |r1.textChunk| > FullChunkLimit && |r2.textChunk| > FullChunkLimit
    requires r1.textChunk[..ChunkEndLength] == r2.textChunk[..ChunkEndLength]
    requires r1.textChunk[|r1.textChunk| - ChunkEndLength..] == r2.textChunk[|r2.textChunk| - ChunkEndLength..]
    ensures GenerateKey(r1) == GenerateKey(r2)
  {
  }

  /** The key ends with the mode's value. */
  lemma KeyEndsWithMode(r: SummaryRequest)
    ensures EndsWith(GenerateKey(r), ModeValue(r.mode))
  {
    var front := OrNone(r.bookId) + "|" + OrNone(r.chapterTitle) + "|" + ChunkKeyPart(r.textChunk) + "|";
    assert GenerateKey(r) == front + ModeValue(r.mode);
    ConcatPrefixSuffix(front, ModeValue(r.mode));
  }

  /** The three mode values end in three different characters. */
  lemma ModeValuesEndApart(m1: SummaryMode, m2: SummaryMode)
    requires m1 != m2
    ensures ModeValue(m1)[|ModeValue(m1)| - 1] != ModeValue(m2)[|ModeValue(m2)| - 1]
  {
  }

  /** Requests in different modes never share a key, whatever their other fields. */
  lemma ModeSeparatesKeys(r1: SummaryRequest, r2: SummaryRequest)
    requires r1.mode != r2.mode
    ensures GenerateKey(r1) != GenerateKey(r2)
  {
    KeyEndsWithMode(r1);
    KeyEndsWithMode(r2);
    ModeValuesEndApart(r1.mode, r2.mode);
    var k1, k2 := GenerateKey(r1), GenerateKey(r2);
    var m1, m2 := ModeValue(r1.mode), ModeValue(r2.mode);
    assert k1[|k1| - 1] == m1[|m1| - 1];
    assert k2[|k2| - 1] == m2[|m2| - 1];
  }

  /** The separator is not escaped: a "|" inside the book id or chapter title can make two
      requests for different books and chapters share a key (and so share a cached summary). */
  lemma SeparatorCollision(chunk: string, mode: SummaryMode, prev: Option<string>, next: Option<string>)
    ensures var r1 := SummaryRequest(Some("a|b"), Some("c"), chunk, mode, prev, next);
            var r2 := SummaryRequest(Some("a"), Some("b|c"), chunk, mode, prev, next);
            r1.bookId != r2.bookId && r1.chapterTitle != r2.chapterTitle
            && GenerateKey(r1) == GenerateKey(r2)
  {
    var r1 := SummaryRequest(Some("a|b"), Some("c"), chunk, mode, prev, next);
    var r2 := SummaryRequest(Some("a"), Some("b|c"), chunk, mode, prev, next);
    var p, m := ChunkKeyPart(chunk), ModeValue(mode);
    var c1, c2 := KeyComponents(r1), KeyComponents(r2);
    assert Join("|", c1[..2]) == "a|b|c" by {
      assert c1[..2][..1] == ["a|b"];
    }
    assert Join("|", c2[..2]) == "a|b|c" by {
      assert c2[..2][..1] == ["a"];
    }
    assert Join("|", c1[..3]) == Join("|", c2[..3]) by {
      assert c1[..3][..2] == c1[..2];
      assert c2[..3][..2] == c2[..2];
    }
    assert c1[..4][..3] == c1[..3];
    assert c2[..4][..3] == c2[..3];
    assert c1 == c1[..4] && c2 == c2[..4];
  }

  // ---- entries and expiry ----

  /** `CacheEntry`: the stored response, when it was stored, when it expires, how often it was hit. */
  datatype CacheEntry = CacheEntry(data: SummaryResponse, createdAt: int, expiresAt: int, hitCount: nat)

  /** `_is_expired`: strictly after the expiry time. */
  predicate IsExpired(e: CacheEntry, now: int)
  {
    now > e.expiresAt
  }

  /** An entry is still live at its expiry time and expired at every later time. */
  lemma ExpiryIsStrictAndFinal(e: CacheEntry, now: int, later: int)
    ensures !IsExpired(e, e.expiresAt)
    ensures IsExpired(e, now) <==> now >= e.expiresAt + 1
    ensures IsExpired(e, now) && now <= later ==> IsExpired(e, later)
  {
  }

  /** Deleting a key that is not there leaves the map as it was. */
  lemma RemoveAbsentKey(m: map<string, CacheEntry>, key: string)
    ensures key !in m ==> m - {key} == m
  {
  }

  /** The lookup of `get` finds a live entry under `key`. */
  predicate IsHit(m: map<string, CacheEntry>, key: string, now: int)
  {
    key in m && !IsExpired(m[key], now)
  }

  function ExpiredKeys(m: map<string, CacheEntry>, now: int): set<string>
  {
    set k | k in m && IsExpired(m[k], now)
  }

  function LiveEntries(m: map<string, CacheEntry>, now: int): map<string, CacheEntry>
  {
    map k | k in m && !IsExpired(m[k], now) :: m[k]
  }

  /** A purge splits the entries into the ones it keeps and the ones it evicts: it keeps
      exactly the unexpired entries, unchanged, and evicts the rest. */
  lemma PurgePartitions(m: map<string, CacheEntry>, now: int)
    ensures |LiveEntries(m, now)| + |ExpiredKeys(m, now)| == |m|
    ensures forall k :: k in LiveEntries(m, now) ==> k in m && LiveEntries(m, now)[k] == m[k]
    ensures forall k :: k in m ==> (k in LiveEntries(m, now) <==> !IsExpired(m[k], now))
  {
    var live := LiveEntries(m, now);
    var dead := ExpiredKeys(m, now);
    assert live.Keys !! dead;
    assert live.Keys + dead == m.Keys;
    assert |live.Keys + dead| == |live.Keys| + |dead|;
  }

  /** Every entry lives `ttl` seconds and is stored with `cached` unset. */
  ghost predicate ValidEntries(m: map<string, CacheEntry>, ttl: int)
  {
    forall k :: k in m ==> m[k].expiresAt == m[k].createdAt + ttl && !m[k].data.cached
  }

  lemma ValidWithout(m: map<string, CacheEntry>, keys: set<string>, ttl: int)
    requires ValidEntries(m, ttl)
    ensures ValidEntries(m - keys, ttl)
  {
  }

  /** Removing the expired keys from a map leaves its live entries. */
  lemma WithoutExpiredIsLive(m: map<string, CacheEntry>, now: int)
    ensures m - ExpiredKeys(m, now) == LiveEntries(m, now)
  {
  }

  lemma MapMinusTwice(m: map<string, CacheEntry>, gone: set<string>, key: string)
    ensures m - gone - {key} == m - (gone + {key})
  {
  }

  /** Evicting one more key of the expired set moves it from the pending keys to the evicted ones. */
  lemma OneMoreEvicted(all: set<string>, pending: set<string>, key: string)
    requires pending <= all && key in pending
    ensures all - (pending - {key}) == (all - pending) + {key}
    ensures |pending - {key}| == |pending| - 1
  {
  }

  /** `get_stats`, without the floating-point hit rate. */
  datatype CacheStats = CacheStats(hits: nat, misses: nat, stores: nat, evictions: nat, entries: nat)

  function StoredEntry(response: SummaryResponse, now: int, ttl: int): CacheEntry
  {
    CacheEntry(response.(cached := false), now, now + ttl, 0)
  }

  class Cache {
    const ttl: int
    var entries: map<string, CacheEntry>
    var hits: nat
    var misses: nat
    var stores: nat
    var evictions: nat

    /** Every entry expires `ttl` seconds after it was stored and holds a response with
        `cached` false; the flag is set only on the copy a hit returns. */
    ghost predicate Valid()
      reads this
    {
      ValidEntries(entries, ttl)
    }

    constructor (ttl: int)
      ensures Valid() && this.ttl == ttl
      ensures entries == map[] && hits == 0 && misses == 0 && stores == 0 && evictions == 0
    {
      this.ttl := ttl;
      entries := map[];
      hits, misses, stores, evictions := 0, 0, 0, 0;
    }

    /** `get_stats`: the four counters and the number of entries. */
    function GetStats(): (s: CacheStats)
      reads this
      ensures s.entries == |entries|
      ensures s.hits == hits && s.misses == misses && s.stores == stores && s.evictions == evictions
    {
      CacheStats(hits, misses, stores, evictions, |entries|)
    }

    /** `get`: a miss on an absent key, an eviction and a miss on an expired one, otherwise
        a hit that returns the stored response marked as cached. */
    method Get(request: SummaryRequest, now: int) returns (r: Option<SummaryResponse>)
      requires Valid()
      modifies this
      ensures Valid()
      ensures var key := GenerateKey(request);
        if key !in old(entries) then
          && r.None? && entries == old(entries)
          && misses == old(misses) + 1 && hits == old(hits) && evictions == old(evictions)
        else if IsExpired(old(entries)[key], now) then
          && r.None? && entries == old(entries) - {key}
          && misses == old(misses) + 1 && evictions == old(evictions) + 1 && hits == old(hits)
        else
          && r == Some(old(entries)[key].data.(cached := true))
          && entries == old(entries)[key := old(entries)[key].(hitCount := old(entries)[key].hitCount + 1)]
          && hits == old(hits) + 1 && misses == old(misses) && evictions == old(evictions)
      ensures stores == old(stores)
      ensures hits + misses == old(hits) + old(misses) + 1
    {
      var key := GenerateKey(request);
      if key !in entries {
        misses := misses + 1;
        return None;
      }
      var entry := entries[key];
      if IsExpired(entry, now) {
        entries := entries - {key};
        misses := misses + 1;
        evictions := evictions + 1;
        return None;
      }
      entries := entries[key := entry.(hitCount := entry.hitCount + 1)];
      hits := hits + 1;
      r := Some(entry.data.(cached := true));
    }

    /** `_cleanup_expired`: evicts exactly the expired entries and counts each eviction. */
    method CleanupExpired(now: int)
      requires Valid()
      modifies this
      ensures Valid()
      ensures entries == LiveEntries(old(entries), now)
      ensures evictions == old(evictions) + |ExpiredKeys(old(entries), now)|
      ensures hits == old(hits) && misses == old(misses) && stores == old(stores)
    {
      EvictAll(ExpiredKeys(entries, now));
      WithoutExpiredIsLive(old(entries), now);
    }

    /** The loop of `_cleanup_expired`: deletes each given key and counts one eviction per key. */
    method EvictAll(keys: set<string>)
      requires Valid()
      requires keys <= entries.Keys
      modifies this
      ensures Valid()
      ensures entries == old(entries) - keys
      ensures evictions == old(evictions) + |keys|
      ensures hits == old(hits) && misses == old(misses) && stores == old(stores)
    {
      var left := keys;
      while left != {}
        invariant left <= keys
        invariant entries == old(entries) - (keys - left)
        invariant evictions + |left| == old(evictions) + |keys|
        invariant hits == old(hits) && misses == old(misses) && stores == old(stores)
        decreases |left|
      {
        var key :| key in left;
        OneMoreEvicted(keys, left, key);
        MapMinusTwice(old(entries), keys - left, key);
        entries := entries - {key};
        evictions := evictions + 1;
        left := left - {key};
      }
      assert keys - left == keys;
      ValidWithout(old(entries), keys, ttl);
    }

    /** `store`: (re)writes the request's entry, then purges on every hundredth store. */
    method Store(request: SummaryRequest, response: SummaryResponse, now: int)
      requires Valid()
      modifies this
      ensures Valid()
      ensures stores == old(stores) + 1
      ensures hits == old(hits) && misses == old(misses)
      ensures var written := old(entries)[GenerateKey(request) := StoredEntry(response, now, ttl)];
        if stores % CleanupEvery == 0 then
          entries == LiveEntries(written, now)
          && evictions == old(evictions) + |ExpiredKeys(written, now)|
        else
          entries == written && evictions == old(evictions)
      ensures ttl >= 0 ==>
        GenerateKey(request) in entries && entries[GenerateKey(request)] == StoredEntry(response, now, ttl)
    {
      var key := GenerateKey(request);
      entries := entries[key := StoredEntry(response, now, ttl)];
      stores := stores + 1;
      if stores % CleanupEvery == 0 {
        ghost var written := entries;
        CleanupExpired(now);
        assert ttl >= 0 ==> key in LiveEntries(written, now);
      }
    }

    /** `invalidate`: reports whether the entry was there; it is gone afterwards. */
    method Invalidate(request: SummaryRequest) returns (found: bool)
      requires Valid()
      modifies this
      ensures Valid()
      ensures found <==> GenerateKey(request) in old(entries)
      ensures entries == old(entries) - {GenerateKey(request)}
      ensures hits == old(hits) && misses == old(misses)
      ensures stores == old(stores) && evictions == old(evictions)
    {
      var key := GenerateKey(request);
      found := key in entries;
      if found {
        entries := entries - {key};
      }
    }

    /** `clear`: empties the cache, returns how many entries it held, keeps the counters. */
    method Clear() returns (count: nat)
      requires Valid()
      modifies this
      ensures Valid()
      ensures count == |old(entries)| && entries == map[]
      ensures GetStats() == old(GetStats()).(entries := 0)
    {
      count := |entries|;
      entries := map[];
    }
  }

  /** Storing a response and reading it back before it expires returns that response,
      marked as cached. */
  method StoreThenGet(cache: Cache, request: SummaryRequest, response: SummaryResponse,
                      storedAt: int, readAt: int) returns (r: Option<SummaryResponse>)
    requires cache.Valid() && cache.ttl >= 0
    requires readAt <= storedAt + cache.ttl
    modifies cache
    ensures cache.Valid()
    ensures r == Some(response.(cached := true))
  {
    cache.Store(request, response, storedAt);
    r := cache.Get(request, readAt);
  }
}
