/**
  The generic time-to-live cache of pkg/cache/cache.go: a map from keys to
  timestamped values. An entry older than the ttl is stale. `Get` removes a
  stale entry when it meets one, and a periodic sweep removes every stale
  entry. Times are integers passed in by the caller; the mutex and the
  goroutine that sleeps between sweeps are not modelled.
 */
module TtlCache {
  import opened Wrappers

  /** A stored value (Go's *T, so possibly nil) and the time it was stored. */
  datatype Entry<T> = Entry(value: Option<T>, timestamp: int)

  /** The test of Get and of the sweep: more than ttl has passed since the entry was stored. */
  predicate Stale<T>(e: Entry<T>, ttl: int, now: int) {
    now - e.timestamp > ttl
  }

  /**
    Get on values: the value returned and the map afterwards. The three cases
    (fresh hit, stale hit that evicts the key, miss) are the promise of Get;
    SetThenGet, GetSweepsKey and SweepInvisible relate them to Set and to the
    sweep.
   */
  function GetSpec<T>(m: map<string, Entry<T>>, ttl: int, key: string, now: int): (r: (Option<T>, map<string, Entry<T>>))
    ensures key in m && !Stale(m[key], ttl, now) ==> r == (m[key].value, m)
    ensures key in m && Stale(m[key], ttl, now) ==> r == (None, m - {key})
    ensures key !in m ==> r == (None, m)
  {
    if key in m then
      if Stale(m[key], ttl, now) then (None, m - {key}) else (m[key].value, m)
    else (None, m)
  }

  /** The map after a sweep at `now`: exactly the entries that are not stale, unchanged. */
  function Swept<T>(m: map<string, Entry<T>>, ttl: int, now: int): (r: map<string, Entry<T>>)
    ensures forall k :: k in r <==> k in m && !Stale(m[k], ttl, now)
    ensures forall k :: k in r ==> r[k] == m[k]
  {
    map k | k in m && !Stale(m[k], ttl, now) :: m[k]
  }

  /** A Get within ttl of a Set of the same key returns the value set. */
  lemma SetThenGet<T>(m: map<string, Entry<T>>, ttl: int, key: string, v: Option<T>, t: int, now: int)
    requires now - t <= ttl
    ensures GetSpec(m[key := Entry(v, t)], ttl, key, now) == (v, m[key := Entry(v, t)])
  {
  }

  /** A Set of one key does not change what Get returns for another. */
  lemma SetKeepsOthers<T>(m: map<string, Entry<T>>, ttl: int, key: string, v: Option<T>, t: int, other: string, now: int)
    requires other != key
    ensures GetSpec(m[key := Entry(v, t)], ttl, other, now).0 == GetSpec(m, ttl, other, now).0
  {
  }

  /** A sweep changes no answer of Get at the same time. */
  lemma SweepInvisible<T>(m: map<string, Entry<T>>, ttl: int, key: string, now: int)
    ensures GetSpec(Swept(m, ttl, now), ttl, key, now).0 == GetSpec(m, ttl, key, now).0
  {
  }

  /** Get leaves the map as a sweep would leave that key: kept iff present and fresh. */
  lemma GetSweepsKey<T>(m: map<string, Entry<T>>, ttl: int, key: string, now: int)
    ensures var m2 := GetSpec(m, ttl, key, now).1;
      (key in m2 <==> key in Swept(m, ttl, now)) && forall k :: k != key ==> (k in m2 <==> k in m)
  {
  }

  /** An entry stale at one time stays stale later, so a later sweep removes at least as much. */
  lemma SweepLater<T>(m: map<string, Entry<T>>, ttl: int, now1: int, now2: int)
    requires now1 <= now2
    ensures Swept(Swept(m, ttl, now1), ttl, now2) == Swept(m, ttl, now2)
  {
    var a, b := Swept(Swept(m, ttl, now1), ttl, now2), Swept(m, ttl, now2);
    assert forall k :: k in b ==> k in Swept(m, ttl, now1);
    assert a.Keys == b.Keys;
  }

  class Cache<T> {
    var entries: map<string, Entry<T>>
    const ttl: int

    /** New: an empty cache (the sweeping goroutine is the Sweep method). */
    constructor (ttl: int)
      ensures entries == map[] && this.ttl == ttl
    {
      entries := map[];
      this.ttl := ttl;
    }

    method Get(key: string, now: int) returns (v: Option<T>)
      modifies this
      ensures (v, entries) == GetSpec(old(entries), ttl, key, now)
    {
      if key in entries {
        var entry := entries[key];
        if now - entry.timestamp > ttl {
          entries := entries - {key};
          return None;
        }
        return entry.value;
      }
      return None;
    }

    /** Flush: replaces the map by an empty one. */
    method Flush()
      modifies this
      ensures entries == map[]
    {
      entries := map[];
    }

    /** Set: stores the value with the current time, replacing any entry for the key. */
    method Set(key: string, value: Option<T>, now: int)
      modifies this
      ensures entries == old(entries)[key := Entry(value, now)]
    {
      entries := entries[key := Entry(value, now)];
    }

    /** One pass of the cleanup loop: every entry is visited and the stale ones deleted. */
    method Sweep(now: int)
      modifies this
      ensures entries == Swept(old(entries), ttl, now)
    {
      ghost var m := entries;
      var keys := entries.Keys;
      while keys != {}
        invariant keys <= m.Keys
        invariant forall k :: k in entries <==> k in m && (k in keys || !Stale(m[k], ttl, now))
        invariant forall k :: k in entries ==> entries[k] == m[k]
        decreases keys
      {
        var k :| k in keys;
        if now - entries[k].timestamp > ttl {
          entries := entries - {k};
        }
        keys := keys - {k};
      }
      assert entries.Keys == Swept(m, ttl, now).Keys;
    }
  }

}
