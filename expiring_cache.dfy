/** The in-memory expiring cache: a map from string keys to `{data, timestamp}`
    entries with a fixed time-to-live of ten minutes, enforced lazily when a
    key is looked up. The pure functions below describe one lookup and one
    store on a map value; the class `Cache` holds the map as a field and its
    methods update it in place as the server's module-level `Map` is updated. */
module ExpiringCache {
  import opened Values

  /** Ten minutes, in milliseconds. */
  const CacheDurationMs: int := 10 * 60 * 1000

  /** A cached upstream answer and the clock reading (ms) when it was stored. */
  datatype Entry = Entry(data: Json, timestamp: int)

  type Entries = map<string, Entry>

  /** An entry stored at `timestamp` is stale at time `now` once strictly more
      than the time-to-live has elapsed; an entry exactly the TTL old is not. */
  predicate IsExpired(now: int, timestamp: int)
  {
    now - timestamp > CacheDurationMs
  }

  /** What a lookup of `key` at time `now` returns. */
  function Lookup(m: Entries, key: string, now: int): Option<Json>
  {
    if key !in m then None
    else if IsExpired(now, m[key].timestamp) then None
    else Some(m[key].data)
  }

  /** The map after a lookup of `key` at time `now`: a stale entry is deleted. */
  function AfterLookup(m: Entries, key: string, now: int): Entries
  {
    if key in m && IsExpired(now, m[key].timestamp) then m - {key} else m
  }

  /** The map after storing `data` under `key` at time `now`. */
  function Store(m: Entries, key: string, data: Json, now: int): Entries
  {
    m[key := Entry(data, now)]
  }

  /** The data a reader at time `now` can see: every entry that is not stale.
      This is the eager-expiry view the lazy implementation must agree with. */
  function Visible(m: Entries, now: int): map<string, Json>
  {
    map k | k in m && !IsExpired(now, m[k].timestamp) :: m[k].data
  }

  /** The three outcomes of a lookup: a miss leaves the map alone, a stale
      entry is deleted (and nothing else is), a fresh entry is a hit. */
  lemma LookupOutcomes(m: Entries, key: string, now: int)
    ensures key !in m ==> Lookup(m, key, now) == None && AfterLookup(m, key, now) == m
    ensures key in m && now - m[key].timestamp > CacheDurationMs ==>
      Lookup(m, key, now) == None && AfterLookup(m, key, now).Keys == m.Keys - {key}
      && forall k :: k in AfterLookup(m, key, now) ==> AfterLookup(m, key, now)[k] == m[k]
    ensures key in m && now - m[key].timestamp <= CacheDurationMs ==>
      Lookup(m, key, now) == Some(m[key].data) && AfterLookup(m, key, now) == m
  {
  }

  /** A lookup answers exactly what the eager-expiry view holds for the key. */
  lemma LookupAgreesWithVisible(m: Entries, key: string, now: int)
    ensures Lookup(m, key, now) == if key in Visible(m, now) then Some(Visible(m, now)[key]) else None
  {
  }

  /** Deleting a stale entry on lookup is unobservable: at the time of the
      lookup and at any later time, readers see the same data as without the
      deletion. */
  lemma LazyDeletionIsUnobservable(m: Entries, key: string, now: int, later: int)
    requires now <= later
    ensures Visible(AfterLookup(m, key, now), later) == Visible(m, later)
  {
  }

  /** Storing at time `now` makes the key visible with the new data and
      changes what is visible under no other key. */
  lemma StoreIsVisible(m: Entries, key: string, data: Json, now: int)
    ensures Visible(Store(m, key, data, now), now) == Visible(m, now)[key := data]
  {
  }

  /** Storing always leaves exactly `{data, timestamp: now}` under the key,
      whether or not the key was present, and no other key changes. */
  lemma StoreOverwrites(m: Entries, key: string, data: Json, now: int)
    ensures key in Store(m, key, data, now) && Store(m, key, data, now)[key] == Entry(data, now)
    ensures Store(m, key, data, now).Keys == m.Keys + {key}
    ensures forall k :: k in m && k != key ==> Store(m, key, data, now)[k] == m[k]
  {
  }

  /** Round trip: data stored at `t` is returned by a lookup at `t'` exactly
      when no more than the TTL has elapsed; afterwards the lookup misses. */
  lemma StoreThenLookup(m: Entries, key: string, data: Json, t: int, t': int)
    ensures Lookup(Store(m, key, data, t), key, t') == if t' - t <= CacheDurationMs then Some(data) else None
  {
  }

  /** A second store for the same key replaces the first, whatever the age of
      the first. */
  lemma SecondStoreWins(m: Entries, key: string, d1: Json, t1: int, d2: Json, t2: int)
    ensures Store(Store(m, key, d1, t1), key, d2, t2) == Store(m, key, d2, t2)
    ensures Lookup(Store(Store(m, key, d1, t1), key, d2, t2), key, t2) == Some(d2)
  {
  }

  /** The boundary is strict: an entry 9 min 59 s old is served, one exactly
      10 min old is still served, one 10 min 1 s old is not. */
  lemma ExpiryBoundary(m: Entries, data: Json, t: int)
    ensures Lookup(Store(m, "trending", data, t), "trending", t + 599000) == Some(data)
    ensures Lookup(Store(m, "trending", data, t), "trending", t + 600000) == Some(data)
    ensures Lookup(Store(m, "trending", data, t), "trending", t + 601000) == None
  {
  }

  /** The server's single, process-wide cache. */
  class Cache {
    var entries: Entries

    /** The cache starts empty. */
    constructor ()
      ensures entries == map[]
    {
      entries := map[];
    }

    /** Looks `key` up at time `now`: absent is a miss, a stale entry is
        deleted and is a miss, otherwise the stored data is returned. */
    method GetFromCache(key: string, now: int) returns (r: Option<Json>)
      modifies this
      ensures r == Lookup(old(entries), key, now)
      ensures entries == AfterLookup(old(entries), key, now)
      ensures key !in old(entries) ==> r == None && entries == old(entries)
      ensures key in old(entries) && IsExpired(now, old(entries)[key].timestamp) ==>
        r == None && entries == old(entries) - {key}
      ensures key in old(entries) && !IsExpired(now, old(entries)[key].timestamp) ==>
        r == Some(old(entries)[key].data) && entries == old(entries)
    {
      if key !in entries {
        return None;
      }
      var cachedItem := entries[key];
      var isExpired := now - cachedItem.timestamp > CacheDurationMs;
      if isExpired {
        entries := entries - {key};
        return None;
      }
      return Some(cachedItem.data);
    }

    /** Inserts or overwrites the entry for `key` with `data` stamped `now`. */
    method SetInCache(key: string, data: Json, now: int)
      modifies this
      ensures entries == Store(old(entries), key, data, now)
    {
      entries := entries[key := Entry(data, now)];
    }
  }
}
