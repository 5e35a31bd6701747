/**
 * The in-memory TTL cache: a table from key to value and expiry instant,
 * expired lazily on read and in bulk by the periodic sweep. The clock is the
 * injected `now`.
 */
module Cache {
  import opened Common

  datatype CacheItem<V> = CacheItem(value: V, expiration: Time)

  datatype CacheStats = CacheStats(hits: int, misses: int, itemCount: int, memory: int, avgTTL: Duration)

  /** Nothing in the cache ever updates its statistics. */
  const NoStats: CacheStats := CacheStats(0, 0, 0, 0, 0)

  /** An entry is still served at `now` unless `now` is strictly after its expiration. */
  predicate Live<V>(item: CacheItem<V>, now: Time) {
    !(now > item.expiration)
  }

  /** What `Get(key)` returns at `now`. */
  function Lookup<V>(items: map<string, CacheItem<V>>, key: string, now: Time): (r: Option<V>)
    ensures r.Some? <==> key in items && Live(items[key], now)
    ensures r.Some? ==> r.value == items[key].value
  {
    if key in items && Live(items[key], now) then Some(items[key].value) else None
  }

  /** The table after `Get(key)` at `now`: an expired entry for `key` is dropped. */
  function AfterLookup<V>(items: map<string, CacheItem<V>>, key: string, now: Time): (m: map<string, CacheItem<V>>)
    ensures forall k :: k in m <==> k in items && (k != key || Live(items[k], now))
    ensures forall k :: k in m ==> m[k] == items[k]
  {
    if key in items && !Live(items[key], now) then items - {key} else items
  }

  /** The table after the sweep at `now`: exactly the live entries. */
  function Unexpired<V>(items: map<string, CacheItem<V>>, now: Time): (m: map<string, CacheItem<V>>)
    ensures forall k :: k in m <==> k in items && Live(items[k], now)
    ensures forall k :: k in m ==> m[k] == items[k]
  {
    map k | k in items && Live(items[k], now) :: items[k]
  }

  class MemoryCache<V> {
    var items: map<string, CacheItem<V>>
    var stats: CacheStats

    ghost predicate Valid()
      reads this
    {
      stats == NoStats
    }

    /** `NewMemoryCache` (the sweeping goroutine it starts is not modelled; see `Sweep`). */
    constructor ()
      ensures Valid() && items == map[]
    {
      items := map[];
      stats := NoStats;
    }

    /** `Get`: the live value, or nothing; an expired entry is removed on the way. */
    method Get(key: string, now: Time) returns (value: Option<V>)
      requires Valid()
      modifies this
      ensures Valid()
      ensures value == Lookup(old(items), key, now)
      ensures items == AfterLookup(old(items), key, now)
    {
      if key !in items {
        return None;
      }
      var item := items[key];
      if now > item.expiration {
        items := items - {key};
        return None;
      }
      return Some(item.value);
    }

    /** `Set`: store `value` until `now + ttl`, replacing any earlier entry. */
    method Set(key: string, value: V, ttl: Duration, now: Time)
      requires Valid()
      modifies this
      ensures Valid()
      ensures items == old(items)[key := CacheItem(value, now + ttl)]
    {
      items := items[key := CacheItem(value, now + ttl)];
    }

    /** `Delete`: remove `key`, if present. */
    method Delete(key: string)
      requires Valid()
      modifies this
      ensures Valid()
      ensures items == old(items) - {key}
    {
      items := items - {key};
    }

    /** One pass of `cleanupLoop`: delete every entry whose expiration `now` is after. */
    method Sweep(now: Time)
      requires Valid()
      modifies this
      ensures Valid()
      ensures items == Unexpired(old(items), now)
    {
      var pending := items.Keys;
      while pending != {}
        invariant pending <= old(items).Keys
        invariant items == map k | k in old(items) && (k in pending || Live(old(items)[k], now)) :: old(items)[k]
        invariant stats == old(stats)
        decreases pending
      {
        var key :| key in pending;
        if now > items[key].expiration {
          items := items - {key};
        }
        pending := pending - {key};
      }
    }

    /** `Stats`: the stored statistics, which no operation changes. */
    method Stats() returns (s: CacheStats)
      requires Valid()
      ensures s == stats && s == NoStats
    {
      return stats;
    }
  }

  /** A key never stored is not found. */
  lemma MissingKeyMisses<V>(items: map<string, CacheItem<V>>, key: string, now: Time)
    requires key !in items
    ensures Lookup(items, key, now) == None && AfterLookup(items, key, now) == items
  {
  }

  /** After `Set(k, v, ttl)` at `t0`, `Get(k)` finds `v` exactly while `now` is not after `t0 + ttl`. */
  lemma SetThenGet<V>(items: map<string, CacheItem<V>>, key: string, value: V, ttl: Duration, t0: Time, now: Time)
    ensures Lookup(items[key := CacheItem(value, t0 + ttl)], key, now)
            == if now > t0 + ttl then None else Some(value)
  {
  }

  /**
   * A non-positive TTL does not cache indefinitely: the entry is gone as soon
   * as the clock moves past the moment it was set.
   */
  lemma NonPositiveTtlExpires<V>(items: map<string, CacheItem<V>>, key: string, value: V, ttl: Duration, t0: Time, now: Time)
    requires ttl <= 0 && now > t0
    ensures Lookup(items[key := CacheItem(value, t0 + ttl)], key, now) == None
  {
  }

  /** Sweeping changes no answer `Get` would give at the same instant. */
  lemma SweepPreservesLookups<V>(items: map<string, CacheItem<V>>, key: string, now: Time)
    ensures Lookup(Unexpired(items, now), key, now) == Lookup(items, key, now)
  {
  }

  /** A second sweep at the same instant (or earlier) removes nothing more. */
  lemma SweepIdempotent<V>(items: map<string, CacheItem<V>>, now: Time, earlier: Time)
    requires earlier <= now
    ensures Unexpired(Unexpired(items, now), earlier) == Unexpired(items, now)
  {
  }

  /** After a sweep, a lookup at that instant never has to delete anything. */
  lemma SweptLookupKeepsTable<V>(items: map<string, CacheItem<V>>, key: string, now: Time)
    ensures AfterLookup(Unexpired(items, now), key, now) == Unexpired(items, now)
  {
  }
}
