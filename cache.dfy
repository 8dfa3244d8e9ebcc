/**
  The in-memory time-to-live cache (src/services/cache/cacheService.ts).

  A string-keyed map of entries, each remembering the clock reading at which it
  was stored and how many milliseconds it lives. Expiry is checked lazily: an
  entry past its lifetime stays in the map (and is counted by GetSize) until a
  Get on its key finds it expired and deletes it. The wall clock is a parameter.
*/
module Cache {
  import opened Wrappers

  /** Lifetime given to an entry when the caller names none (five minutes). */
  const DefaultTtl: int := 300000

  /** A stored value, the clock reading when it was stored, and its lifetime in milliseconds. */
  datatype Entry<T> = Entry(data: T, timestamp: int, ttl: int)

  /** An entry is expired strictly after `ttl` milliseconds have elapsed since it was stored. */
  predicate Expired<T>(e: Entry<T>, now: int)
  {
    now - e.timestamp > e.ttl
  }

  /** What a read of `key` at clock `now` answers. */
  function Lookup<T>(m: map<string, Entry<T>>, key: string, now: int): (r: Option<T>)
    ensures r.Some? <==> key in m && !Expired(m[key], now)
    ensures r.Some? ==> r.value == m[key].data
  {
    if key !in m then None
    else if Expired(m[key], now) then None
    else Some(m[key].data)
  }

  /** The map left behind by a read of `key` at clock `now`: an expired entry is evicted. */
  function AfterGet<T>(m: map<string, Entry<T>>, key: string, now: int): (r: map<string, Entry<T>>)
    ensures r.Keys <= m.Keys
    ensures forall k :: k in r ==> r[k] == m[k]
    ensures forall k :: k != key ==> (k in r <==> k in m)
    ensures key in r <==> Lookup(m, key, now).Some?
  {
    if key in m && Expired(m[key], now) then m - {key} else m
  }

  /** Once expired, an entry stays expired at every later clock reading. */
  lemma ExpiredStaysExpired<T>(e: Entry<T>, now: int, later: int)
    requires Expired(e, now) && now <= later
    ensures Expired(e, later)
  {
  }

  class CacheService<T> {
    /** The stored entries, expired ones included until they are read. */
    var entries: map<string, Entry<T>>

    constructor ()
      ensures entries == map[]
    {
      entries := map[];
    }

    /** Stores `data` under `key`, replacing any previous entry and restarting its lifetime. */
    method Set(key: string, data: T, now: int, ttlMs: int := DefaultTtl)
      modifies this
      ensures entries == old(entries)[key := Entry(data, now, ttlMs)]
    {
      entries := entries[key := Entry(data, now, ttlMs)];
    }

    /** Answers the live value under `key`, evicting the entry if it has expired. */
    method Get(key: string, now: int) returns (r: Option<T>)
      modifies this
      ensures r == Lookup(old(entries), key, now)
      ensures entries == AfterGet(old(entries), key, now)
    {
      if key !in entries {
        return None;
      }
      var entry := entries[key];
      var isExpired := now - entry.timestamp > entry.ttl;
      if isExpired {
        entries := entries - {key};
        return None;
      }
      r := Some(entry.data);
    }

    /** Removes every entry. */
    method Clear()
      modifies this
      ensures entries == map[]
    {
      entries := map[];
    }

    /** Removes the entry under `key`, if there is one. */
    method Delete(key: string)
      modifies this
      ensures entries == old(entries) - {key}
    {
      entries := entries - {key};
    }

    /** The number of stored entries, expired or not. */
    method GetSize() returns (n: nat)
      ensures n == |entries|
    {
      n := |entries|;
    }
  }

  /** Removing a present key shrinks the map by exactly one. */
  lemma RemoveOneSize<T>(m: map<string, Entry<T>>, key: string)
    requires key in m
    ensures |m - {key}| == |m| - 1
  {
    var rest := m - {key};
    assert m.Keys == rest.Keys + {key};
    assert |m.Keys| == |rest.Keys| + 1;
  }

  /** A read right after a store, at the same clock reading and with a non-negative lifetime, is a hit. */
  lemma GetAfterSet<T>(m: map<string, Entry<T>>, key: string, v: T, now: int, ttl: int)
    requires ttl >= 0
    ensures Lookup(m[key := Entry(v, now, ttl)], key, now) == Some(v)
    ensures AfterGet(m[key := Entry(v, now, ttl)], key, now) == m[key := Entry(v, now, ttl)]
  {
  }

  /** A read of a key never stored answers nothing and changes nothing. */
  lemma GetAbsent<T>(m: map<string, Entry<T>>, key: string, now: int)
    requires key !in m
    ensures Lookup(m, key, now) == None && AfterGet(m, key, now) == m
  {
  }

  /** Expiry is strict: an entry is still a hit when exactly `ttl` has elapsed, and a miss one millisecond later. */
  lemma ExpiryBoundary<T>(m: map<string, Entry<T>>, key: string, v: T, t: int, ttl: int)
    ensures Lookup(m[key := Entry(v, t, ttl)], key, t + ttl) == Some(v)
    ensures Lookup(m[key := Entry(v, t, ttl)], key, t + ttl + 1) == None
  {
  }

  /** A read of an expired entry answers nothing, evicts exactly that key, and leaves every other entry alone. */
  lemma {:induction false} ExpiredGetEvicts<T>(m: map<string, Entry<T>>, key: string, now: int)
    requires key in m && Expired(m[key], now)
    ensures Lookup(m, key, now) == None
    ensures key !in AfterGet(m, key, now)
    ensures |AfterGet(m, key, now)| == |m| - 1
    ensures forall k :: k != key ==> (k in AfterGet(m, key, now) <==> k in m)
    ensures forall k :: k != key && k in m ==> AfterGet(m, key, now)[k] == m[k]
  {
    RemoveOneSize(m, key);
  }

  /** Storing overwrites the key, grows the map only if the key was new, and leaves the other keys alone. */
  lemma {:induction false} SetSize<T>(m: map<string, Entry<T>>, key: string, e: Entry<T>)
    ensures key in m ==> |m[key := e]| == |m|
    ensures key !in m ==> |m[key := e]| == |m| + 1
    ensures forall k :: k != key ==> (k in m[key := e] <==> k in m)
    ensures forall k :: k != key && k in m ==> m[key := e][k] == m[k]
  {
    if key in m {
      assert m[key := e].Keys == m.Keys;
    } else {
      assert m[key := e].Keys == m.Keys + {key};
    }
  }

  /** Deleting removes only `key`, shrinking the map by one if present and changing nothing otherwise. */
  lemma {:induction false} DeleteSize<T>(m: map<string, Entry<T>>, key: string)
    ensures key in m ==> |m - {key}| == |m| - 1
    ensures key !in m ==> m - {key} == m
    ensures forall k :: k != key ==> (k in m - {key} <==> k in m)
  {
    if key in m {
      RemoveOneSize(m, key);
    }
  }

  /** After Clear, every read misses. */
  lemma GetAfterClear<T>(m: map<string, Entry<T>>, key: string, now: int)
    requires m == map[]
    ensures |m| == 0 && Lookup(m, key, now) == None
  {
  }
}
