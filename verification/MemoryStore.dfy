/** The file memory store: put, get and query over one list of entries, and eviction down to two limits. */
module MemoryStores {
  import opened Wrappers

  const U64_MAX: nat := 0xFFFF_FFFF_FFFF_FFFF
  const NANOS: nat := 1_000_000_000

  datatype Eviction = Lru | Fifo | Ttl(ttlSecs: nat)

  datatype Policy = Policy(maxEntries: nat, maxBytesTotal: nat, eviction: Eviction)

  datatype Entry = Entry(
    key: string,
    value: string,
    tags: seq<string>,
    createdAt: string,
    updatedAt: string,
    lastAccessedAt: string,
    accessCount: nat)

  datatype Query = Query(prefix: Option<string>, tag: Option<string>, limit: Option<nat>)

  datatype Report = Report(
    beforeEntries: nat,
    afterEntries: nat,
    evicted: nat,
    evictedKeys: seq<string>,
    beforeBytesTotal: nat,
    afterBytesTotal: nat)

  /** One reading of the clock, as a time stamp and in nanoseconds, and how time stamps are parsed. */
  datatype Clock = Clock(stamp: string, instant: int, parse: string -> Option<int>)

  // ----- sizes and limits -----

  function Utf8Length(s: string): nat {
    if s == [] then 0
    else
      var c := s[|s| - 1] as int;
      Utf8Length(s[..|s| - 1]) + (if c < 0x80 then 1 else if c < 0x800 then 2 else if c < 0x1_0000 then 3 else 4)
  }

  function TagBytes(tags: seq<string>): nat {
    if tags == [] then 0 else TagBytes(tags[..|tags| - 1]) + Utf8Length(tags[|tags| - 1])
  }

  function EntrySize(e: Entry): nat {
    Utf8Length(e.key) + Utf8Length(e.value) + TagBytes(e.tags)
    + Utf8Length(e.createdAt) + Utf8Length(e.updatedAt) + Utf8Length(e.lastAccessedAt) + 16
  }

  function BytesTotal(es: seq<Entry>): nat {
    if es == [] then 0 else BytesTotal(es[..|es| - 1]) + EntrySize(es[|es| - 1])
  }

  predicate Fits(es: seq<Entry>, policy: Policy) {
    |es| <= policy.maxEntries && BytesTotal(es) <= policy.maxBytesTotal
  }

  // ----- which entry goes first -----

  /** When an entry counts as due: its time under the policy, or nothing when a time to live has not run out. */
  function Due(e: Entry, policy: Policy, clock: Clock): Option<int> {
    match policy.eviction
    case Fifo => Some(clock.parse(e.createdAt).GetOr(clock.instant))
    case Lru => Some(clock.parse(e.lastAccessedAt).GetOr(clock.instant))
    case Ttl(secs) =>
      var updated := clock.parse(e.updatedAt);
      if updated.Some? && updated.value < clock.instant - secs * NANOS then updated else None
  }

  function Dues(es: seq<Entry>, policy: Policy, clock: Clock): seq<Option<int>> {
    seq(|es|, i requires 0 <= i < |es| => Due(es[i], policy, clock))
  }

  predicate Sooner(a: Option<int>, b: Option<int>) {
    a.Some? && (b.None? || a.value < b.value)
  }

  /** The first of the soonest; index 0 when nothing is due. */
  function Victim(dues: seq<Option<int>>): (p: nat)
    requires dues != []
    ensures p < |dues|
    ensures forall q :: 0 <= q < |dues| ==> !Sooner(dues[q], dues[p]) && (q < p ==> Sooner(dues[p], dues[q]))
  {
    if |dues| == 1 then 0
    else
      var n := |dues| - 1;
      var p := Victim(dues[..n]);
      assert forall q :: 0 <= q < n ==> dues[..n][q] == dues[q];
      if Sooner(dues[n], dues[p]) then n else p
  }

  function Without(es: seq<Entry>, p: nat): seq<Entry>
    requires p < |es|
  {
    es[..p] + es[p + 1..]
  }

  /** Entries left and keys removed, in the order of removal. */
  function Evict(es: seq<Entry>, policy: Policy, clock: Clock): (seq<Entry>, seq<string>)
    decreases |es|
  {
    if Fits(es, policy) then (es, [])
    else
      var p := Victim(Dues(es, policy, clock));
      var rest := Evict(Without(es, p), policy, clock);
      (rest.0, [es[p].key] + rest.1)
  }

  /** One turn of the loop, on the specification. */
  lemma EvictRemoves(es: seq<Entry>, policy: Policy, clock: Clock, before: seq<string>)
    requires !Fits(es, policy)
    ensures es != []
    ensures var p := Victim(Dues(es, policy, clock));
            var rest := Evict(Without(es, p), policy, clock);
            Evict(es, policy, clock).0 == rest.0
              && before + Evict(es, policy, clock).1 == (before + [es[p].key]) + rest.1
  {
  }

  method Oldest(dues: seq<Option<int>>) returns (p: nat)
    requires dues != []
    ensures p == Victim(dues)
  {
    p := 0;
    for i := 1 to |dues|
      invariant p == Victim(dues[..i])
    {
      assert dues[..i + 1][..i] == dues[..i];
      if Sooner(dues[i], dues[p]) {
        p := i;
      }
    }
    assert dues[..|dues|] == dues;
  }

  // ----- put, get, query -----

  function SaturatingSucc(n: nat): nat {
    if n < U64_MAX then n + 1 else n
  }

  function Filled(e: Entry, stamp: string): Entry {
    e.(createdAt := if e.createdAt == "" then stamp else e.createdAt,
       updatedAt := if e.updatedAt == "" then stamp else e.updatedAt,
       lastAccessedAt := if e.lastAccessedAt == "" then stamp else e.lastAccessedAt,
       accessCount := if e.accessCount == 0 then 1 else e.accessCount)
  }

  function Touch(e: Entry, stamp: string): Entry {
    e.(lastAccessedAt := stamp, accessCount := SaturatingSucc(e.accessCount))
  }

  function Overwritten(existing: Entry, e: Entry, stamp: string): Entry {
    Touch(existing.(value := e.value, tags := e.tags, updatedAt := stamp), stamp)
  }

  /** The first entry with this key. */
  function IndexOf(es: seq<Entry>, key: string): (r: Option<nat>)
    ensures r.Some? ==> r.value < |es| && es[r.value].key == key && forall j :: 0 <= j < r.value ==> es[j].key != key
    ensures r.None? ==> forall j :: 0 <= j < |es| ==> es[j].key != key
  {
    if es == [] then None
    else
      var n := |es| - 1;
      var r := IndexOf(es[..n], key);
      assert forall j :: 0 <= j < n ==> es[..n][j] == es[j];
      if r.Some? then r else if es[n].key == key then Some(n) else None
  }

  /** Rewriting an entry under the same key moves nothing. */
  lemma {:induction false} IndexUnchanged(es: seq<Entry>, i: nat, e: Entry)
    requires i < |es| && e.key == es[i].key
    ensures forall key :: IndexOf(es[i := e], key) == IndexOf(es, key)
  {
    var n := |es| - 1;
    if i < n {
      IndexUnchanged(es[..n], i, e);
      assert es[i := e][..n] == es[..n][i := e];
    } else {
      assert es[i := e][..n] == es[..n];
    }
  }

  /** The list just before eviction. */
  function Inserted(es: seq<Entry>, e: Entry, stamp: string): seq<Entry> {
    var at := IndexOf(es, e.key);
    if at.Some? then es[at.value := Overwritten(es[at.value], e, stamp)] else es + [Filled(e, stamp)]
  }

  /** The list after a lookup of `key`. */
  function Fetched(es: seq<Entry>, key: string, stamp: string): seq<Entry> {
    var at := IndexOf(es, key);
    if at.Some? then es[at.value := Touch(es[at.value], stamp)] else es
  }

  predicate StartsWith(s: string, prefix: string) {
    |prefix| <= |s| && s[..|prefix|] == prefix
  }

  predicate Matches(e: Entry, q: Query) {
    && (q.prefix.Some? ==> StartsWith(e.key, q.prefix.value))
    && (q.tag.Some? ==> q.tag.value in e.tags)
  }

  function Matching(es: seq<Entry>, q: Query): seq<Entry> {
    if es == [] then []
    else Matching(es[..|es| - 1], q) + (if Matches(es[|es| - 1], q) then [es[|es| - 1]] else [])
  }

  function Accessed(e: Entry, clock: Clock): Option<int> {
    clock.parse(e.lastAccessedAt)
  }

  /** Later access first; an unreadable time comes last. */
  predicate Newer(a: Option<int>, b: Option<int>) {
    a.Some? && (b.None? || a.value > b.value)
  }

  function InsertByAccess(sorted: seq<Entry>, e: Entry, clock: Clock): seq<Entry> {
    if sorted == [] then [e]
    else
      var n := |sorted| - 1;
      if Newer(Accessed(e, clock), Accessed(sorted[n], clock))
      then InsertByAccess(sorted[..n], e, clock) + [sorted[n]]
      else sorted + [e]
  }

  /** The stable sort, newest access first. */
  function ByAccess(es: seq<Entry>, clock: Clock): seq<Entry> {
    if es == [] then [] else InsertByAccess(ByAccess(es[..|es| - 1], clock), es[|es| - 1], clock)
  }

  function Truncate(es: seq<Entry>, limit: nat): seq<Entry> {
    if |es| <= limit then es else es[..limit]
  }

  function Hits(es: seq<Entry>, q: Query, clock: Clock): seq<Entry> {
    Truncate(ByAccess(Matching(es, q), clock), q.limit.GetOr(50))
  }

  predicate HasKey(es: seq<Entry>, key: string) {
    exists i :: 0 <= i < |es| && es[i].key == key
  }

  function TouchedIn(es: seq<Entry>, hits: seq<Entry>, stamp: string): seq<Entry> {
    seq(|es|, i requires 0 <= i < |es| => if HasKey(hits, es[i].key) then Touch(es[i], stamp) else es[i])
  }

  class FileMemoryStore {
    var entries: seq<Entry>
    const policy: Policy

    /** The store with what its file held, which nothing checks against the policy. */
    constructor (policy: Policy, loaded: seq<Entry>)
      ensures this.policy == policy && entries == loaded
    {
      this.policy := policy;
      entries := loaded;
    }

    method EvictIfNeeded(clock: Clock) returns (report: Report)
      modifies this
      ensures entries == Evict(old(entries), policy, clock).0
              && report.evictedKeys == Evict(old(entries), policy, clock).1
      ensures report.beforeEntries == |old(entries)| && report.afterEntries == |entries|
      ensures report.evicted == |report.evictedKeys| == |old(entries)| - |entries|
      ensures report.beforeBytesTotal == BytesTotal(old(entries)) && report.afterBytesTotal == BytesTotal(entries)
    {
      var beforeEntries, beforeBytesTotal := |entries|, BytesTotal(entries);
      ghost var target := Evict(entries, policy, clock);
      var evictedKeys := [];
      while |entries| > policy.maxEntries || BytesTotal(entries) > policy.maxBytesTotal
        invariant |entries| + |evictedKeys| == beforeEntries
        invariant Evict(entries, policy, clock).0 == target.0
        invariant evictedKeys + Evict(entries, policy, clock).1 == target.1
        decreases |entries|
      {
        if |entries| == 0 {
          assert false; // the source leaves the loop here; it never gets to
        }
        EvictRemoves(entries, policy, clock, evictedKeys);
        var p := Oldest(Dues(entries, policy, clock));
        evictedKeys := evictedKeys + [entries[p].key];
        entries := Without(entries, p);
      }
      assert evictedKeys + Evict(entries, policy, clock).1 == evictedKeys;
      report := Report(beforeEntries, |entries|, beforeEntries - |entries|, evictedKeys, beforeBytesTotal,
                       BytesTotal(entries));
    }

    method Put(entry: Entry, clock: Clock, later: Clock)
      modifies this
      ensures entries == Evict(Inserted(old(entries), entry, clock.stamp), policy, later).0
    {
      var e := entry;
      if e.createdAt == "" {
        e := e.(createdAt := clock.stamp);
      }
      if e.updatedAt == "" {
        e := e.(updatedAt := clock.stamp);
      }
      if e.lastAccessedAt == "" {
        e := e.(lastAccessedAt := clock.stamp);
      }
      if e.accessCount == 0 {
        e := e.(accessCount := 1);
      }
      var at := IndexOf(entries, e.key);
      if at.Some? {
        var existing := entries[at.value];
        existing := existing.(value := e.value, tags := e.tags, updatedAt := clock.stamp,
                              lastAccessedAt := clock.stamp);
        existing := existing.(accessCount := SaturatingSucc(existing.accessCount));
        entries := entries[at.value := existing];
      } else {
        entries := entries + [e];
      }
      assert entries == Inserted(old(entries), entry, clock.stamp);
      var _ := EvictIfNeeded(later);
    }

    method Get(key: string, clock: Clock) returns (found: Option<Entry>)
      modifies this
      ensures entries == Fetched(old(entries), key, clock.stamp)
      ensures found == var at := IndexOf(entries, key); if at.Some? then Some(entries[at.value]) else None
    {
      var at := IndexOf(entries, key);
      if at.None? {
        return None;
      }
      entries := entries[at.value := Touch(entries[at.value], clock.stamp)];
      found := Some(entries[at.value]);
      IndexUnchanged(old(entries), at.value, entries[at.value]);
    }

    method RunQuery(q: Query, clock: Clock) returns (out: seq<Entry>)
      modifies this
      ensures out == Hits(old(entries), q, clock)
      ensures entries == TouchedIn(old(entries), out, clock.stamp)
    {
      out := Truncate(ByAccess(Matching(entries, q), clock), q.limit.GetOr(50));
      for i := 0 to |entries|
        invariant |entries| == |old(entries)|
        invariant forall k :: 0 <= k < i ==> entries[k] == TouchedIn(old(entries), out, clock.stamp)[k]
        invariant forall k :: i <= k < |entries| ==> entries[k] == old(entries)[k]
      {
        if HasKey(out, entries[i].key) {
          entries := entries[i := Touch(entries[i], clock.stamp)];
        }
      }
    }
  }
}
