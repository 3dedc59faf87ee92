/** The load balancer's response cache: entries keyed by method and URL that
    answer until their expiry time, and the expiry half of the cleanup sweep. */
module Cache {
  import opened Basics
  import opened Backends

  /** The time-to-live `ServeHTTP` gives every cached response. */
  const DefaultTTL: int := 5 * Minute

  type Headers = map<string, string>

  datatype CacheEntry = CacheEntry(data: seq<bv8>, headers: Headers, expiresAt: int)

  type Store = map<string, CacheEntry>

  /** `Get`: the stored response while `now` is strictly before its expiry. */
  function Lookup(m: Store, key: string, now: int): (r: Option<(seq<bv8>, Headers)>)
    ensures r.Some? <==> key in m && now < m[key].expiresAt
    ensures r.Some? ==> r.value == (m[key].data, m[key].headers)
  {
    if key in m && now < m[key].expiresAt then Some((m[key].data, m[key].headers)) else None
  }

  /** `Set`: the entry for `key` is replaced, expiring `ttl` after `now`. */
  function Put(m: Store, key: string, data: seq<bv8>, headers: Headers, ttl: int, now: int): (r: Store)
    ensures r.Keys == m.Keys + {key}
    ensures r[key].expiresAt == now + ttl
  {
    m[key := CacheEntry(data, headers, now + ttl)]
  }

  /** The cache after the sweep of `cleanupLoop`: entries whose expiry `now` is
      strictly after are dropped. */
  function SweepExpired(m: Store, now: int): (r: Store)
    ensures forall k :: k in r <==> k in m && now <= m[k].expiresAt
    ensures forall k :: k in r ==> r[k] == m[k]
  {
    map k | k in m && now <= m[k].expiresAt :: m[k]
  }

  /** A stored response is returned unchanged, with its headers, at any time before
      it expires, and is reported missing from its expiry on. */
  lemma PutThenLookup(m: Store, key: string, data: seq<bv8>, headers: Headers, ttl: int, now: int, later: int)
    ensures Lookup(Put(m, key, data, headers, ttl, now), key, later)
      == if later < now + ttl then Some((data, headers)) else None
  {
  }

  /** Storing one key leaves every other key's answer as it was. */
  lemma PutOthers(m: Store, key: string, other: string, data: seq<bv8>, headers: Headers, ttl: int, now: int, later: int)
    requires other != key
    ensures Lookup(Put(m, key, data, headers, ttl, now), other, later) == Lookup(m, other, later)
  {
  }

  /** The sweep never changes what a lookup at or after the sweep time answers:
      it only removes entries a lookup would already miss. */
  lemma SweepInvisible(m: Store, now: int, key: string, later: int)
    requires now <= later
    ensures Lookup(SweepExpired(m, now), key, later) == Lookup(m, key, later)
  {
  }

  class CacheManager {
    var cache: Store

    constructor ()
      ensures cache == map[]
    {
      cache := map[];
    }

    method Get(key: string, now: int) returns (found: Option<(seq<bv8>, Headers)>)
      ensures found == Lookup(cache, key, now)
    {
      if key in cache && now < cache[key].expiresAt {
        var entry := cache[key];
        return Some((entry.data, entry.headers));
      }
      return None;
    }

    method Set(key: string, data: seq<bv8>, headers: Headers, ttl: int, now: int)
      modifies this`cache
      ensures cache == Put(old(cache), key, data, headers, ttl, now)
    {
      cache := cache[key := CacheEntry(data, headers, now + ttl)];
    }

    /** The cache half of the `cleanupLoop` body. */
    method Sweep(now: int)
      modifies this`cache
      ensures cache == SweepExpired(old(cache), now)
    {
      ghost var m0 := cache;
      var pending := cache.Keys;
      while pending != {}
        invariant pending <= m0.Keys
        invariant cache == map k | k in m0 && (k in pending || now <= m0[k].expiresAt) :: m0[k]
        decreases pending
      {
        var key :| key in pending;
        if now > cache[key].expiresAt {
          cache := cache - {key};
        }
        pending := pending - {key};
      }
    }
  }
}
