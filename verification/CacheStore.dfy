/** The in-memory cache: a map of entries with a time to live, bounded by a last-touch queue. */
module CacheStore {
  import opened Wrappers

  datatype MemoryEntry<V> = MemoryEntry(value: V, expiresAt: int)

  datatype Cache<V> = Cache(entries: map<string, MemoryEntry<V>>, lru: seq<string>)

  datatype CacheLookupResult<V> = CacheLookupResult(value: Option<V>, expired: bool)

  datatype CacheInsertResult = CacheInsertResult(inserted: bool, evicted: nat)

  // ----- the operations as functions -----

  /** `lru.retain(|k| k != key)` */
  function Without(lru: seq<string>, key: string): seq<string> {
    if lru == [] then [] else (if lru[0] == key then [] else [lru[0]]) + Without(lru[1..], key)
  }

  function Touched(lru: seq<string>, key: string): seq<string> {
    Without(lru, key) + [key]
  }

  function Lookup<V>(c: Cache<V>, key: string, now: int): (Cache<V>, CacheLookupResult<V>) {
    if key !in c.entries then (c, CacheLookupResult(None, false))
    else if now >= c.entries[key].expiresAt then
      (Cache(c.entries - {key}, Without(c.lru, key)), CacheLookupResult(None, true))
    else (c.(lru := Touched(c.lru, key)), CacheLookupResult(Some(c.entries[key].value), false))
  }

  /** Pop the queue until the entries fit. */
  function Evict<V>(c: Cache<V>, maxEntries: nat): (Cache<V>, nat)
    decreases |c.lru|
  {
    if |c.entries| > maxEntries && c.lru != [] then
      var oldest := c.lru[0];
      var (c1, n) := Evict(Cache(c.entries - {oldest}, c.lru[1..]), maxEntries);
      (c1, n + if oldest in c.entries then 1 else 0)
    else (c, 0)
  }

  /** One turn of the loop, on the specification. */
  lemma EvictPops<V>(c: Cache<V>, maxEntries: nat)
    requires |c.entries| > maxEntries && c.lru != []
    ensures var rest := Evict(Cache(c.entries - {c.lru[0]}, c.lru[1..]), maxEntries);
            && Evict(c, maxEntries).0 == rest.0
            && Evict(c, maxEntries).1 == rest.1 + if c.lru[0] in c.entries then 1 else 0
  {
  }

  /** The cache with a new or renewed entry, before anything is evicted. */
  function Filled<V>(c: Cache<V>, key: string, value: V, expiresAt: int): Cache<V> {
    Cache(c.entries[key := MemoryEntry(value, expiresAt)], Touched(c.lru, key))
  }

  function Insertion<V>(c: Cache<V>, key: string, value: V, now: int, ttl: nat, maxEntries: nat):
    (Cache<V>, CacheInsertResult)
  {
    var (c1, evicted) := Evict(Filled(c, key, value, now + ttl), maxEntries);
    (c1, CacheInsertResult(key !in c.entries, evicted))
  }

  /** The queue lists exactly the keys of the map, each once, and there are not too many. */
  ghost predicate Consistent<V>(c: Cache<V>, maxEntries: nat) {
    && (forall i, j :: 0 <= i < j < |c.lru| ==> c.lru[i] != c.lru[j])
    && (forall k :: k in c.lru <==> k in c.entries)
    && |c.lru| == |c.entries| <= maxEntries
  }

  // ----- the store itself -----

  class MemoryCacheStore<V> {
    var entries: map<string, MemoryEntry<V>>
    var lru: seq<string>
    const ttl: nat
    const maxEntries: nat

    ghost function View(): Cache<V>
      reads this
    {
      Cache(entries, lru)
    }

    ghost predicate Valid()
      reads this
    {
      maxEntries >= 1 && Consistent(View(), maxEntries)
    }

    constructor (ttl: nat, maxEntries: nat)
      ensures View() == Cache(map[], []) && Valid()
      ensures this.ttl == ttl && this.maxEntries == if maxEntries >= 1 then maxEntries else 1
    {
      entries, lru := map[], [];
      this.ttl := ttl;
      this.maxEntries := if maxEntries >= 1 then maxEntries else 1;
    }

    method Touch(key: string)
      modifies this`lru
      ensures lru == Touched(old(lru), key)
    {
      if lru == [] {
        lru := lru + [key];
        return;
      }
      lru := Without(lru, key);
      lru := lru + [key];
    }

    method PurgeKey(key: string)
      modifies this
      ensures View() == Cache(old(entries) - {key}, Without(old(lru), key))
    {
      entries := entries - {key};
      lru := Without(lru, key);
    }

    method Get(key: string, now: int) returns (r: CacheLookupResult<V>)
      requires Valid()
      modifies this
      ensures (View(), r) == Lookup(old(View()), key, now)
      ensures Valid()
    {
      LookupConsistent(View(), key, now, maxEntries);
      if key !in entries {
        return CacheLookupResult(None, false);
      }
      var expiresAt, value := entries[key].expiresAt, entries[key].value;
      if now >= expiresAt {
        PurgeKey(key);
        return CacheLookupResult(None, true);
      }
      Touch(key);
      r := CacheLookupResult(Some(value), false);
    }

    method Insert(key: string, value: V, now: int) returns (r: CacheInsertResult)
      requires Valid()
      modifies this
      ensures (View(), r) == Insertion(old(View()), key, value, now, ttl, maxEntries)
      ensures Valid() && r.evicted <= 1
    {
      ghost var before := View();
      var expiresAt := now + ttl;
      var inserted := key !in entries;
      entries := entries[key := MemoryEntry(value, expiresAt)];
      Touch(key);
      assert View() == Filled(before, key, value, expiresAt);
      var evicted := EvictOverflow();
      r := CacheInsertResult(inserted, evicted);
      InsertionConsistent(before, key, value, now, ttl, maxEntries);
    }

    /** The loop of `insert`: pop the oldest keys while there are too many entries. */
    method EvictOverflow() returns (evicted: nat)
      modifies this
      ensures View() == Evict(old(View()), maxEntries).0 && evicted == Evict(old(View()), maxEntries).1
    {
      evicted := 0;
      ghost var target := Evict(View(), maxEntries);
      while |entries| > maxEntries && lru != []
        invariant Evict(View(), maxEntries).0 == target.0
        invariant evicted + Evict(View(), maxEntries).1 == target.1
        decreases |lru|
      {
        var oldest := lru[0];
        EvictPops(View(), maxEntries);
        evicted := evicted + if oldest in entries then 1 else 0;
        lru := lru[1..];
        entries := entries - {oldest};
      }
    }
  }

  // ----- every operation keeps the store consistent -----

  lemma {:induction false} WithoutKeepsOrder(lru: seq<string>, key: string)
    requires forall i, j :: 0 <= i < j < |lru| ==> lru[i] != lru[j]
    ensures var out := Without(lru, key);
            && (forall i, j :: 0 <= i < j < |out| ==> out[i] != out[j])
            && (forall k :: k in out <==> k in lru && k != key)
            && |out| == |lru| - (if key in lru then 1 else 0)
            && (key !in lru ==> out == lru)
  {
    if lru != [] {
      WithoutKeepsOrder(lru[1..], key);
      var rest := Without(lru[1..], key);
      assert lru[0] !in lru[1..];
      assert Without(lru, key) == (if lru[0] == key then [] else [lru[0]]) + rest;
      if lru[0] == key {
        assert Without(lru, key) == rest;
      } else {
        assert lru[0] !in rest;
      }
    }
  }

  lemma LookupConsistent<V>(c: Cache<V>, key: string, now: int, maxEntries: nat)
    requires Consistent(c, maxEntries)
    ensures Consistent(Lookup(c, key, now).0, maxEntries)
  {
    WithoutKeepsOrder(c.lru, key);
    if key in c.entries {
      assert (c.entries - {key}).Keys == c.entries.Keys - {key};
      assert |(c.entries - {key}).Keys| == |c.entries.Keys| - 1;
    }
  }

  /** At most the oldest key has to go, and only when a new key came in. */
  lemma EvictAtMostOne<V>(c: Cache<V>, maxEntries: nat)
    requires maxEntries >= 1 && Consistent(c, maxEntries + 1)
    ensures Consistent(Evict(c, maxEntries).0, maxEntries)
    ensures Evict(c, maxEntries) ==
            if |c.entries| > maxEntries then (Cache(c.entries - {c.lru[0]}, c.lru[1..]), 1) else (c, 0)
  {
    if |c.entries| > maxEntries {
      var oldest := c.lru[0];
      assert (c.entries - {oldest}).Keys == c.entries.Keys - {oldest};
      assert |(c.entries - {oldest}).Keys| == |c.entries.Keys| - 1;
    }
  }

  lemma FilledConsistent<V>(c: Cache<V>, key: string, value: V, expiresAt: int, maxEntries: nat)
    requires Consistent(c, maxEntries)
    ensures Consistent(Filled(c, key, value, expiresAt), maxEntries + 1)
  {
    WithoutKeepsOrder(c.lru, key);
    var c0 := Filled(c, key, value, expiresAt);
    assert c0.entries.Keys == c.entries.Keys + {key};
    assert |c0.entries.Keys| == |c.entries.Keys| + (if key in c.entries then 0 else 1);
  }

  lemma InsertionConsistent<V>(c: Cache<V>, key: string, value: V, now: int, ttl: nat, maxEntries: nat)
    requires maxEntries >= 1 && Consistent(c, maxEntries)
    ensures var (c1, r) := Insertion(c, key, value, now, ttl, maxEntries);
            Consistent(c1, maxEntries) && r.evicted <= 1
  {
    FilledConsistent(c, key, value, now + ttl, maxEntries);
    EvictAtMostOne(Filled(c, key, value, now + ttl), maxEntries);
  }
}
