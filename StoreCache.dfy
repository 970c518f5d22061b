/** The in-memory branch of `EnhancedLocationCache` in bot.py (the Redis
    branch is not modelled). Time is an integer count of seconds; the cache
    key is abstract (the rounded coordinates, radius and category of the
    source are one value of type K). */
module StoreCache {
  import opened Wrappers

  /** An entry is the cached data and the instant it expires. */
  type Entries<K, V> = map<K, (V, int)>

  /** `ttl or self.default_ttl`: an absent or zero ttl falls back to the default. */
  function EffectiveTtl(ttl: Option<int>, defaultTtl: int): (r: int)
    ensures (ttl.None? || ttl.value == 0) ==> r == defaultTtl
    ensures (ttl.Some? && ttl.value != 0) ==> r == ttl.value
  {
    if ttl.Some? && ttl.value != 0 then ttl.value else defaultTtl
  }

  /** What a read at time `now` returns: the data strictly before its expiry. */
  function Lookup<K, V>(m: Entries<K, V>, key: K, now: int): (r: Option<V>)
    ensures r.Some? <==> key in m && now < m[key].1
    ensures r.Some? ==> r.value == m[key].0
  {
    if key in m && now < m[key].1 then Some(m[key].0) else None
  }

  /** The entries that survive a sweep at time `now`. */
  function Sweep<K(!new), V>(m: Entries<K, V>, now: int): (r: Entries<K, V>)
    ensures forall k :: k in r <==> k in m && now < m[k].1
    ensures forall k :: k in r ==> r[k] == m[k]
  {
    map k | k in m && now < m[k].1 :: m[k]
  }

  /** A sweep never changes what a read at or after the sweep returns. */
  lemma SweepPreservesLookups<K(!new), V>(m: Entries<K, V>, key: K, now: int, later: int)
    requires now <= later
    ensures Lookup(Sweep(m, now), key, later) == Lookup(m, key, later)
  {
  }

  /** Sweeping twice at the same instant removes nothing more. */
  lemma SweepIdempotent<K(!new), V>(m: Entries<K, V>, now: int)
    ensures Sweep(Sweep(m, now), now) == Sweep(m, now)
  {
  }

  /** Data written at `now` with an effective ttl `t` is read back exactly during [now, now + t). */
  lemma SetThenLookup<K, V>(m: Entries<K, V>, key: K, data: V, now: int, ttl: Option<int>,
                            defaultTtl: int, later: int)
    ensures var expiry := now + EffectiveTtl(ttl, defaultTtl);
            Lookup(m[key := (data, expiry)], key, later) == if later < expiry then Some(data) else None
  {
  }

  class MemoryCache<K(==,!new), V> {
    var defaultTtl: int
    var entries: Entries<K, V>

    constructor (defaultTtl: int)
      ensures this.defaultTtl == defaultTtl && entries == map[]
    {
      this.defaultTtl := defaultTtl;
      entries := map[];
    }

    /** `get`: a live entry is returned; an expired one is deleted and None returned. */
    method Get(key: K, now: int) returns (r: Option<V>)
      modifies this
      ensures r == Lookup(old(entries), key, now)
      ensures entries == if key in old(entries) && now >= old(entries)[key].1
                         then old(entries) - {key} else old(entries)
      ensures defaultTtl == old(defaultTtl)
    {
      r := None;
      if key in entries {
        var (data, expiry) := entries[key];
        if now < expiry {
          r := Some(data);
        } else {
          entries := entries - {key};
        }
      }
    }

    /** `set`: store the data with its expiry, replacing any previous entry for the key. */
    method Set(key: K, data: V, now: int, ttl: Option<int>)
      modifies this
      ensures entries == old(entries)[key := (data, now + EffectiveTtl(ttl, defaultTtl))]
      ensures defaultTtl == old(defaultTtl)
    {
      var cacheTtl := if ttl.Some? && ttl.value != 0 then ttl.value else defaultTtl;
      entries := entries[key := (data, now + cacheTtl)];
    }

    /** `clear_expired`: collect the keys with `now >= expiry`, then delete them one by one. */
    method ClearExpired(now: int)
      modifies this
      ensures entries == Sweep(old(entries), now)
      ensures defaultTtl == old(defaultTtl)
    {
      var expiredKeys := set k | k in entries && now >= entries[k].1;
      while expiredKeys != {}
        invariant forall k :: k in expiredKeys ==> k in old(entries) && now >= old(entries)[k].1
        invariant forall k :: k in entries <==>
                    k in old(entries) && (now < old(entries)[k].1 || k in expiredKeys)
        invariant forall k :: k in entries ==> entries[k] == old(entries)[k]
        invariant defaultTtl == old(defaultTtl)
        decreases expiredKeys
      {
        var k :| k in expiredKeys;
        entries := entries - {k};
        expiredKeys := expiredKeys - {k};
      }
    }
  }
}
