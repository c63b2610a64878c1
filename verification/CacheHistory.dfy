/** What the cache remembers, told from the operations that were made on it. */
module CacheHistory {
  import opened Wrappers
  import opened CacheStore

  datatype Op<V> = GetOp(key: string, now: int) | InsertOp(key: string, value: V, now: int)

  function Apply<V>(c: Cache<V>, op: Op<V>, ttl: nat, maxEntries: nat): Cache<V> {
    match op
    case GetOp(key, now) => Lookup(c, key, now).0
    case InsertOp(key, value, now) => Insertion(c, key, value, now, ttl, maxEntries).0
  }

  /** The cache after a sequence of operations. */
  ghost function After<V>(ops: seq<Op<V>>, ttl: nat, maxEntries: nat): Cache<V> {
    if ops == [] then Cache(map[], [])
    else Apply(After(ops[..|ops| - 1], ttl, maxEntries), ops[|ops| - 1], ttl, maxEntries)
  }

  /** An operation touches its key when it inserts it or hits it. */
  ghost predicate Touches<V>(c: Cache<V>, op: Op<V>) {
    op.InsertOp? || Lookup(c, op.key, op.now).1.value.Some?
  }

  /** The last operation that inserted a key. */
  ghost function LatestInsert<V>(ops: seq<Op<V>>, key: string): Option<nat> {
    if ops == [] then None
    else
      var n := |ops| - 1;
      if ops[n].InsertOp? && ops[n].key == key then Some(n) else LatestInsert(ops[..n], key)
  }

  /** The last operation that inserted or hit a key. */
  ghost function LastTouch<V>(ops: seq<Op<V>>, ttl: nat, maxEntries: nat, key: string): Option<nat> {
    if ops == [] then None
    else
      var n := |ops| - 1;
      if ops[n].key == key && Touches(After(ops[..n], ttl, maxEntries), ops[n]) then Some(n)
      else LastTouch(ops[..n], ttl, maxEntries, key)
  }

  /** The other keys that were inserted or hit after operation `t`. */
  ghost function OthersSince<V>(ops: seq<Op<V>>, ttl: nat, maxEntries: nat, t: nat, key: string): set<string> {
    if |ops| <= t + 1 then {}
    else
      var n := |ops| - 1;
      OthersSince(ops[..n], ttl, maxEntries, t, key)
      + if ops[n].key != key && Touches(After(ops[..n], ttl, maxEntries), ops[n]) then {ops[n].key} else {}
  }

  /** The clock passed the time to live of the entry inserted by operation `i`. */
  ghost predicate RanOut<V>(ops: seq<Op<V>>, ttl: nat, i: nat) {
    i < |ops| && exists j :: i < j < |ops| && ops[j].now >= ops[i].now + ttl
  }

  /** What the history says about the cache. */
  ghost predicate Explained<V>(ops: seq<Op<V>>, ttl: nat, maxEntries: nat) {
    ExplainedBy(ops, ttl, maxEntries, After(ops, ttl, maxEntries))
  }

  ghost predicate ExplainedBy<V>(ops: seq<Op<V>>, ttl: nat, maxEntries: nat, c: Cache<V>) {
    && Consistent(c, maxEntries)
    && OrderedByAge(ops, ttl, maxEntries, c.lru)
    && (forall k :: k in c.entries ==> Resident(ops, ttl, maxEntries, k, c.entries[k]))
    && (forall k :: k !in c.entries && LatestInsert(ops, k).Some? ==> Gone(ops, ttl, maxEntries, k))
  }

  ghost predicate Older<V>(ops: seq<Op<V>>, ttl: nat, maxEntries: nat, a: string, b: string) {
    var x, y := LastTouch(ops, ttl, maxEntries, a), LastTouch(ops, ttl, maxEntries, b);
    x.Some? && y.Some? && x.value < y.value
  }

  ghost predicate OrderedByAge<V>(ops: seq<Op<V>>, ttl: nat, maxEntries: nat, keys: seq<string>) {
    forall a, b :: 0 <= a < b < |keys| ==> Older(ops, ttl, maxEntries, keys[a], keys[b])
  }

  /** A resident entry is the one of the latest insert of its key. */
  ghost predicate Resident<V>(ops: seq<Op<V>>, ttl: nat, maxEntries: nat, k: string, e: MemoryEntry<V>) {
    var i := LatestInsert(ops, k);
    && LastTouch(ops, ttl, maxEntries, k).Some?
    && i.Some? && i.value < |ops| && ops[i.value].InsertOp?
    && e == MemoryEntry(ops[i.value].value, ops[i.value].now + ttl)
  }

  /** A key that was inserted and is gone has run out or was pushed out. */
  ghost predicate Gone<V>(ops: seq<Op<V>>, ttl: nat, maxEntries: nat, k: string) {
    var i, t := LatestInsert(ops, k), LastTouch(ops, ttl, maxEntries, k);
    && i.Some? && t.Some?
    && (RanOut(ops, ttl, i.value) || |OthersSince(ops, ttl, maxEntries, t.value, k)| >= maxEntries)
  }

  // ----- lemmas -----

  lemma {:induction false} InsertsAreTouches<V>(ops: seq<Op<V>>, ttl: nat, maxEntries: nat, k: string)
    ensures var i, t := LatestInsert(ops, k), LastTouch(ops, ttl, maxEntries, k);
            && (i.Some? ==>
                  && i.value < |ops| && ops[i.value].InsertOp? && ops[i.value].key == k
                  && t.Some? && i.value <= t.value)
            && (t.Some? ==> t.value < |ops| && ops[t.value].key == k)
  {
    if ops != [] {
      InsertsAreTouches(ops[..|ops| - 1], ttl, maxEntries, k);
    }
  }

  lemma {:induction false} LaterTouchedAreOthers<V>(ops: seq<Op<V>>, ttl: nat, maxEntries: nat, t: nat, key: string,
                                                    q: string)
    requires LastTouch(ops, ttl, maxEntries, q).Some? && LastTouch(ops, ttl, maxEntries, q).value > t && q != key
    ensures q in OthersSince(ops, ttl, maxEntries, t, key)
  {
    InsertsAreTouches(ops, ttl, maxEntries, q);
    var n := |ops| - 1;
    if !(ops[n].key == q && Touches(After(ops[..n], ttl, maxEntries), ops[n])) {
      LaterTouchedAreOthers(ops[..n], ttl, maxEntries, t, key, q);
      InsertsAreTouches(ops[..n], ttl, maxEntries, q);
    }
  }

  lemma {:induction false} DistinctCount(keys: seq<string>, within: set<string>)
    requires forall i, j :: 0 <= i < j < |keys| ==> keys[i] != keys[j]
    requires forall k :: k in keys ==> k in within
    ensures |within| >= |keys|
  {
    if keys != [] {
      forall k | k in keys[1..] ensures k in within - {keys[0]} {
        var i :| 0 < i < |keys| && keys[i] == k;
      }
      DistinctCount(keys[1..], within - {keys[0]});
    }
  }

  lemma BiggerSetCount(a: set<string>, b: set<string>)
    requires a <= b
    ensures |a| <= |b|
  {
    assert b == a + (b - a);
  }

  /** A key that was gone before the last operation stays gone unless that inserted it. */
  lemma GoneStays<V>(all: seq<Op<V>>, ttl: nat, maxEntries: nat, k: string)
    requires all != [] && Gone(all[..|all| - 1], ttl, maxEntries, k)
    requires !(all[|all| - 1].key == k && Touches(After(all[..|all| - 1], ttl, maxEntries), all[|all| - 1]))
    ensures Gone(all, ttl, maxEntries, k)
  {
    var ops := all[..|all| - 1];
    InsertsAreTouches(ops, ttl, maxEntries, k);
    var i, t := LatestInsert(ops, k).value, LastTouch(ops, ttl, maxEntries, k).value;
    if RanOut(ops, ttl, i) {
      var j :| i < j < |ops| && ops[j].now >= ops[i].now + ttl;
      assert all[j] == ops[j] && all[i] == ops[i];
    } else {
      BiggerSetCount(OthersSince(ops, ttl, maxEntries, t, k), OthersSince(all, ttl, maxEntries, t, k));
    }
  }

  /** The entries after the last operation: the inserted one, and those that were there. */
  lemma ResidentStays<V>(all: seq<Op<V>>, ttl: nat, maxEntries: nat, k: string, e: MemoryEntry<V>)
    requires all != []
    requires var op := all[|all| - 1];
             if op.InsertOp? && op.key == k then e == MemoryEntry(op.value, op.now + ttl)
             else Resident(all[..|all| - 1], ttl, maxEntries, k, e)
    ensures Resident(all, ttl, maxEntries, k, e)
  {
  }

  /** Age order after the last operation: the touched key is the youngest, the others stay as they were. */
  lemma OlderStays<V>(all: seq<Op<V>>, ttl: nat, maxEntries: nat, a: string, b: string)
    requires all != []
    requires var ops, op := all[..|all| - 1], all[|all| - 1];
             && LastTouch(ops, ttl, maxEntries, a).Some? && a != op.key
             && if b == op.key then Touches(After(ops, ttl, maxEntries), op) else Older(ops, ttl, maxEntries, a, b)
    ensures Older(all, ttl, maxEntries, a, b)
  {
    InsertsAreTouches(all[..|all| - 1], ttl, maxEntries, a);
  }

  lemma {:induction false} WithoutIsSubsequence(lru: seq<string>, key: string, a: nat, b: nat) returns (x: nat, y: nat)
    requires a < b < |Without(lru, key)|
    ensures x < y < |lru| && lru[x] == Without(lru, key)[a] && lru[y] == Without(lru, key)[b]
  {
    if lru[0] == key {
      x, y := WithoutIsSubsequence(lru[1..], key, a, b);
      x, y := x + 1, y + 1;
    } else if a == 0 {
      y := WithoutMember(lru[1..], key, b - 1);
      x, y := 0, y + 1;
    } else {
      x, y := WithoutIsSubsequence(lru[1..], key, a - 1, b - 1);
      x, y := x + 1, y + 1;
    }
  }

  lemma {:induction false} WithoutMember(lru: seq<string>, key: string, b: nat) returns (y: nat)
    requires b < |Without(lru, key)|
    ensures y < |lru| && lru[y] == Without(lru, key)[b] && lru[y] != key
  {
    if lru[0] == key {
      y := WithoutMember(lru[1..], key, b);
      y := y + 1;
    } else if b == 0 {
      y := 0;
    } else {
      y := WithoutMember(lru[1..], key, b - 1);
      y := y + 1;
    }
  }

  /** Taking out the key of the last operation keeps the age order of the rest. */
  lemma OrderOfRest<V>(all: seq<Op<V>>, ttl: nat, maxEntries: nat, c: Cache<V>)
    requires all != [] && ExplainedBy(all[..|all| - 1], ttl, maxEntries, c)
    requires c == After(all[..|all| - 1], ttl, maxEntries)
    ensures var op := all[|all| - 1];
            var rest := Without(c.lru, op.key);
            && OrderedByAge(all, ttl, maxEntries, rest)
            && (Touches(c, op) ==> OrderedByAge(all, ttl, maxEntries, rest + [op.key]))
  {
    var ops, op := all[..|all| - 1], all[|all| - 1];
    var rest := Without(c.lru, op.key);
    WithoutKeepsOrder(c.lru, op.key);
    forall a, b | 0 <= a < b < |rest| ensures Older(all, ttl, maxEntries, rest[a], rest[b]) {
      var x, y := WithoutIsSubsequence(c.lru, op.key, a, b);
      assert Older(ops, ttl, maxEntries, c.lru[x], c.lru[y]);
      OlderStays(all, ttl, maxEntries, rest[a], rest[b]);
    }
    if Touches(c, op) {
      forall a | 0 <= a < |rest| ensures Older(all, ttl, maxEntries, rest[a], op.key) {
        assert rest[a] in rest;
        assert Resident(ops, ttl, maxEntries, rest[a], c.entries[rest[a]]);
        OlderStays(all, ttl, maxEntries, rest[a], op.key);
      }
    }
  }

  /** A lookup keeps the entries it does not purge, and a purged one has run out. */
  lemma KeptOrPurged<V>(all: seq<Op<V>>, ttl: nat, maxEntries: nat, c: Cache<V>, c1: Cache<V>, k: string)
    requires all != [] && all[|all| - 1].GetOp? && ExplainedBy(all[..|all| - 1], ttl, maxEntries, c)
    requires c == After(all[..|all| - 1], ttl, maxEntries)
    requires c1 == Lookup(c, all[|all| - 1].key, all[|all| - 1].now).0
    ensures k in c1.entries ==> Resident(all, ttl, maxEntries, k, c1.entries[k])
    ensures k !in c1.entries && LatestInsert(all, k).Some? ==> Gone(all, ttl, maxEntries, k)
  {
    var n := |all| - 1;
    if k in c1.entries {
      ResidentStays(all, ttl, maxEntries, k, c.entries[k]);
    } else if k in c.entries {
      ResidentStays(all, ttl, maxEntries, k, c.entries[k]);
      var i := LatestInsert(all[..n], k).value;
      assert all[n].now >= all[i].now + ttl && all[i] == all[..n][i];
    } else if LatestInsert(all, k).Some? {
      GoneStays(all, ttl, maxEntries, k);
    }
  }

  lemma GetExplained<V>(all: seq<Op<V>>, ttl: nat, maxEntries: nat, c: Cache<V>, c1: Cache<V>)
    requires all != [] && all[|all| - 1].GetOp? && ExplainedBy(all[..|all| - 1], ttl, maxEntries, c)
    requires c == After(all[..|all| - 1], ttl, maxEntries)
    requires c1 == Lookup(c, all[|all| - 1].key, all[|all| - 1].now).0
    ensures ExplainedBy(all, ttl, maxEntries, c1)
  {
    LookupConsistent(c, all[|all| - 1].key, all[|all| - 1].now, maxEntries);
    GetOrder(all, ttl, maxEntries, c, c1);
    forall k ensures k in c1.entries ==> Resident(all, ttl, maxEntries, k, c1.entries[k])
             ensures k !in c1.entries && LatestInsert(all, k).Some? ==> Gone(all, ttl, maxEntries, k)
    {
      KeptOrPurged(all, ttl, maxEntries, c, c1, k);
    }
  }

  lemma GetOrder<V>(all: seq<Op<V>>, ttl: nat, maxEntries: nat, c: Cache<V>, c1: Cache<V>)
    requires all != [] && ExplainedBy(all[..|all| - 1], ttl, maxEntries, c)
    requires c == After(all[..|all| - 1], ttl, maxEntries)
    requires c1 == Lookup(c, all[|all| - 1].key, all[|all| - 1].now).0
    ensures OrderedByAge(all, ttl, maxEntries, c1.lru)
  {
    var key := all[|all| - 1].key;
    OrderOfRest(all, ttl, maxEntries, c);
    WithoutKeepsOrder(c.lru, key);
    if key !in c.entries {
      assert Without(c.lru, key) == c.lru;
    }
  }

  /** In a list ordered by age, all the keys behind the first one count against it. */
  lemma YoungerKeysCount<V>(ops: seq<Op<V>>, ttl: nat, maxEntries: nat, keys: seq<string>)
    requires |keys| > 1 && OrderedByAge(ops, ttl, maxEntries, keys)
    ensures LastTouch(ops, ttl, maxEntries, keys[0]).Some?
    ensures |OthersSince(ops, ttl, maxEntries, LastTouch(ops, ttl, maxEntries, keys[0]).value, keys[0])| >= |keys| - 1
  {
    assert Older(ops, ttl, maxEntries, keys[0], keys[1]);
    var k, others := keys[0], keys[1..];
    var t := LastTouch(ops, ttl, maxEntries, k).value;
    forall i, j | 0 <= i < j < |others| ensures others[i] != others[j] {
      assert Older(ops, ttl, maxEntries, keys[i + 1], keys[j + 1]);
    }
    forall q | q in others ensures q in OthersSince(ops, ttl, maxEntries, t, k) {
      var j :| 0 <= j < |others| && others[j] == q;
      assert Older(ops, ttl, maxEntries, k, keys[j + 1]);
      LaterTouchedAreOthers(ops, ttl, maxEntries, t, k, q);
    }
    DistinctCount(others, OthersSince(ops, ttl, maxEntries, t, k));
  }

  /** An insertion fills the cache to `c0`; `c1` is that, or that without its oldest key. */
  ghost predicate Trimmed<V>(c: Cache<V>, c0: Cache<V>, c1: Cache<V>, key: string, maxEntries: nat) {
    || c1 == c0
    || (&& |c0.lru| == maxEntries + 1 && c0.lru[0] in c.entries && c0.lru[0] != key
        && c1 == Cache(c0.entries - {c0.lru[0]}, c0.lru[1..]))
  }

  lemma InsertionTrims<V>(c: Cache<V>, key: string, value: V, now: int, ttl: nat, maxEntries: nat)
    requires maxEntries >= 1 && Consistent(c, maxEntries)
    ensures var c1 := Insertion(c, key, value, now, ttl, maxEntries).0;
            Consistent(c1, maxEntries) && Trimmed(c, Filled(c, key, value, now + ttl), c1, key, maxEntries)
  {
    var c0 := Filled(c, key, value, now + ttl);
    FilledConsistent(c, key, value, now + ttl, maxEntries);
    EvictAtMostOne(c0, maxEntries);
    OverfullByANewKey(c, key, value, now + ttl, maxEntries);
  }

  lemma OverfullByANewKey<V>(c: Cache<V>, key: string, value: V, expiresAt: int, maxEntries: nat)
    requires maxEntries >= 1 && Consistent(c, maxEntries)
             && Consistent(Filled(c, key, value, expiresAt), maxEntries + 1)
    ensures var c0 := Filled(c, key, value, expiresAt);
            |c0.entries| > maxEntries ==> |c0.lru| == maxEntries + 1 && c0.lru[0] in c.entries && c0.lru[0] != key
  {
    WithoutKeepsOrder(c.lru, key);
    var c0 := Filled(c, key, value, expiresAt);
    if |c0.entries| > maxEntries {
      assert |Without(c.lru, key)| >= 1 && c0.lru[0] == Without(c.lru, key)[0];
      assert c0.lru[0] in Without(c.lru, key);
    }
  }

  /** The key an insertion pushes out was followed by `maxEntries` other keys. */
  lemma PushedOutIsGone<V>(all: seq<Op<V>>, ttl: nat, maxEntries: nat, full: seq<string>, e: MemoryEntry<V>)
    requires all != [] && maxEntries >= 1 && |full| == maxEntries + 1 && full[0] != all[|all| - 1].key
    requires Resident(all[..|all| - 1], ttl, maxEntries, full[0], e)
    requires OrderedByAge(all, ttl, maxEntries, full)
    ensures Gone(all, ttl, maxEntries, full[0])
  {
    YoungerKeysCount(all, ttl, maxEntries, full);
    ResidentStays(all, ttl, maxEntries, full[0], e);
  }

  lemma InsertedOrThere<V>(all: seq<Op<V>>, ttl: nat, maxEntries: nat, c: Cache<V>, c0: Cache<V>, k: string)
    requires all != [] && all[|all| - 1].InsertOp? && ExplainedBy(all[..|all| - 1], ttl, maxEntries, c)
    requires var op := all[|all| - 1]; c0 == Filled(c, op.key, op.value, op.now + ttl)
    ensures k in c0.entries ==> Resident(all, ttl, maxEntries, k, c0.entries[k])
    ensures k !in c0.entries && LatestInsert(all, k).Some? ==> Gone(all, ttl, maxEntries, k)
  {
    if k in c0.entries {
      ResidentStays(all, ttl, maxEntries, k, c0.entries[k]);
    } else if LatestInsert(all, k).Some? {
      GoneStays(all, ttl, maxEntries, k);
    }
  }

  lemma InsertExplained<V>(all: seq<Op<V>>, ttl: nat, maxEntries: nat, c: Cache<V>, c0: Cache<V>, c1: Cache<V>)
    requires all != [] && all[|all| - 1].InsertOp? && maxEntries >= 1
    requires ExplainedBy(all[..|all| - 1], ttl, maxEntries, c) && Consistent(c1, maxEntries)
    requires var op := all[|all| - 1]; c0 == Filled(c, op.key, op.value, op.now + ttl)
    requires OrderedByAge(all, ttl, maxEntries, c0.lru)
    requires Trimmed(c, c0, c1, all[|all| - 1].key, maxEntries)
    ensures ExplainedBy(all, ttl, maxEntries, c1)
  {
    assert OrderedByAge(all, ttl, maxEntries, c1.lru);
    forall k ensures k in c1.entries ==> Resident(all, ttl, maxEntries, k, c1.entries[k])
             ensures k !in c1.entries && LatestInsert(all, k).Some? ==> Gone(all, ttl, maxEntries, k)
    {
      InsertedOrThere(all, ttl, maxEntries, c, c0, k);
      if k in c0.entries && k !in c1.entries {
        PushedOutIsGone(all, ttl, maxEntries, c0.lru, c.entries[k]);
      }
    }
  }

  lemma InsertStepExplained<V>(all: seq<Op<V>>, ttl: nat, maxEntries: nat, c: Cache<V>, key: string, value: V, now: int)
    requires all != [] && maxEntries >= 1 && all[|all| - 1] == InsertOp(key, value, now)
    requires ExplainedBy(all[..|all| - 1], ttl, maxEntries, c) && c == After(all[..|all| - 1], ttl, maxEntries)
    ensures ExplainedBy(all, ttl, maxEntries, Insertion(c, key, value, now, ttl, maxEntries).0)
  {
    var c0, c1 := Filled(c, key, value, now + ttl), Insertion(c, key, value, now, ttl, maxEntries).0;
    assert OrderedByAge(all, ttl, maxEntries, c0.lru) by {
      OrderOfRest(all, ttl, maxEntries, c);
    }
    assert Consistent(c1, maxEntries) && Trimmed(c, c0, c1, key, maxEntries) by {
      InsertionTrims(c, key, value, now, ttl, maxEntries);
    }
    InsertExplained(all, ttl, maxEntries, c, c0, c1);
  }

  lemma StepExplained<V>(all: seq<Op<V>>, ttl: nat, maxEntries: nat, c: Cache<V>)
    requires all != [] && maxEntries >= 1
    requires ExplainedBy(all[..|all| - 1], ttl, maxEntries, c) && c == After(all[..|all| - 1], ttl, maxEntries)
    ensures ExplainedBy(all, ttl, maxEntries, Apply(c, all[|all| - 1], ttl, maxEntries))
  {
    match all[|all| - 1] {
      case GetOp(key, now) =>
        GetExplained(all, ttl, maxEntries, c, Lookup(c, key, now).0);
      case InsertOp(key, value, now) =>
        InsertStepExplained(all, ttl, maxEntries, c, key, value, now);
    }
  }

  /** The history explains the cache after every sequence of operations. */
  lemma {:induction false} EveryCacheIsExplained<V>(ops: seq<Op<V>>, ttl: nat, maxEntries: nat)
    requires maxEntries >= 1
    ensures Explained(ops, ttl, maxEntries)
  {
    if ops != [] {
      var n := |ops| - 1;
      EveryCacheIsExplained(ops[..n], ttl, maxEntries);
      StepExplained(ops, ttl, maxEntries, After(ops[..n], ttl, maxEntries));
    }
  }

  // ----- what callers rely on -----

  /**
   * After any operations the queue is duplicate-free, lists the map's keys
   * from the least to the most recently touched, and is bounded.
   */
  lemma QueueIsLastTouchOrder<V>(ops: seq<Op<V>>, ttl: nat, maxEntries: nat)
    requires maxEntries >= 1
    ensures var c := After(ops, ttl, maxEntries);
            && |c.lru| <= maxEntries
            && (forall k :: k in c.lru <==> k in c.entries)
            && (forall a, b :: 0 <= a < b < |c.lru| ==>
                  && c.lru[a] != c.lru[b]
                  && LastTouch(ops, ttl, maxEntries, c.lru[a]).Some? && LastTouch(ops, ttl, maxEntries, c.lru[b]).Some?
                  && LastTouch(ops, ttl, maxEntries, c.lru[a]).value < LastTouch(ops, ttl, maxEntries, c.lru[b]).value)
  {
    EveryCacheIsExplained(ops, ttl, maxEntries);
    var c := After(ops, ttl, maxEntries);
    forall a, b | 0 <= a < b < |c.lru|
      ensures LastTouch(ops, ttl, maxEntries, c.lru[a]).Some? && LastTouch(ops, ttl, maxEntries, c.lru[b]).Some?
      ensures LastTouch(ops, ttl, maxEntries, c.lru[a]).value < LastTouch(ops, ttl, maxEntries, c.lru[b]).value
    {
      assert Older(ops, ttl, maxEntries, c.lru[a], c.lru[b]);
    }
  }

  /** A hit returns the value of the latest insert of the key, within its time to live. */
  lemma HitReturnsLatestInsert<V>(ops: seq<Op<V>>, ttl: nat, maxEntries: nat, key: string, now: int)
    requires maxEntries >= 1 && Lookup(After(ops, ttl, maxEntries), key, now).1.value.Some?
    ensures var i := LatestInsert(ops, key);
            && i.Some? && i.value < |ops| && ops[i.value].InsertOp?
            && Lookup(After(ops, ttl, maxEntries), key, now).1.value.value == ops[i.value].value
            && now < ops[i.value].now + ttl
  {
    EveryCacheIsExplained(ops, ttl, maxEntries);
    var c := After(ops, ttl, maxEntries);
    assert Resident(ops, ttl, maxEntries, key, c.entries[key]);
  }

  /** The clock does not run backwards. */
  ghost predicate ClockRuns<V>(ops: seq<Op<V>>, now: int) {
    && (forall i, j :: 0 <= i < j < |ops| ==> ops[i].now <= ops[j].now)
    && (forall i :: 0 <= i < |ops| ==> ops[i].now <= now)
  }

  /**
   * A key that was inserted and has not run out is missed only if at least `maxEntries` other
   * keys were inserted or hit since it was last inserted or hit.
   */
  lemma MissNeedsPressure<V>(ops: seq<Op<V>>, ttl: nat, maxEntries: nat, key: string, now: int)
    requires maxEntries >= 1 && ClockRuns(ops, now)
    requires var i := LatestInsert(ops, key); i.Some? && i.value < |ops| && now < ops[i.value].now + ttl
    requires Lookup(After(ops, ttl, maxEntries), key, now).1.value.None?
    ensures var t := LastTouch(ops, ttl, maxEntries, key);
            t.Some? && |OthersSince(ops, ttl, maxEntries, t.value, key)| >= maxEntries
  {
    EveryCacheIsExplained(ops, ttl, maxEntries);
    var c := After(ops, ttl, maxEntries);
    assert key in c.entries ==> Resident(ops, ttl, maxEntries, key, c.entries[key]);
    assert Gone(ops, ttl, maxEntries, key);
  }
}
