/** Greedy eviction in closed form, and what the memory store keeps over whole runs. */
module MemoryStoreTheorems {
  import opened Wrappers
  import opened Listings
  import opened MemoryStores

  // ----- the order of eviction, on the indices of one list -----

  ghost predicate Before(all: seq<Entry>, policy: Policy, clock: Clock, i: nat, j: nat)
    requires i < |all| && j < |all|
  {
    var a, b := Due(all[i], policy, clock), Due(all[j], policy, clock);
    Sooner(a, b) || (a == b && i < j)
  }

  /** The entry at `i` and every entry that would go after it. */
  ghost function Tail(all: seq<Entry>, policy: Policy, clock: Clock, i: nat): set<nat>
    requires i < |all|
  {
    set j: nat | j < |all| && (j == i || Before(all, policy, clock, i, j))
  }

  /** The entries at the given indices, in their original order. */
  ghost function Select(all: seq<Entry>, live: set<nat>): (r: seq<Entry>)
    ensures |r| <= |all|
  {
    if all == [] then []
    else
      var n := |all| - 1;
      Select(all[..n], live) + (if n in live then [all[n]] else [])
  }

  /** An entry stays exactly when it fits together with everything that would go after it. */
  ghost function Kept(all: seq<Entry>, policy: Policy, clock: Clock): set<nat> {
    set i: nat | i < |all| && Fits(Select(all, Tail(all, policy, clock, i)), policy)
  }

  ghost function Below(n: nat): (r: set<nat>)
    ensures forall i: nat :: i in r <==> i < n
  {
    if n == 0 then {} else Below(n - 1) + {n - 1}
  }

  // ----- selecting by index -----

  lemma {:induction false} SelectMonotone(all: seq<Entry>, u: set<nat>, v: set<nat>, policy: Policy)
    requires forall i :: i in u && i < |all| ==> i in v
    ensures |Select(all, u)| <= |Select(all, v)| && BytesTotal(Select(all, u)) <= BytesTotal(Select(all, v))
    ensures Fits(Select(all, v), policy) ==> Fits(Select(all, u), policy)
  {
    if all != [] {
      var n := |all| - 1;
      SelectMonotone(all[..n], u, v, policy);
      SelectLast(all, u);
      SelectLast(all, v);
    }
  }

  lemma SelectLast(all: seq<Entry>, u: set<nat>)
    requires all != []
    ensures var n := |all| - 1;
            BytesTotal(Select(all, u)) == BytesTotal(Select(all[..n], u)) + (if n in u then EntrySize(all[n]) else 0)
  {
    var n := |all| - 1;
    if n in u {
      assert Select(all, u)[..|Select(all, u)| - 1] == Select(all[..n], u);
    } else {
      assert Select(all, u) == Select(all[..n], u);
    }
  }

  lemma {:induction false} SelectSame(all: seq<Entry>, u: set<nat>, v: set<nat>)
    requires forall i :: 0 <= i < |all| ==> (i in u <==> i in v)
    ensures Select(all, u) == Select(all, v)
  {
    if all != [] {
      SelectSame(all[..|all| - 1], u, v);
    }
  }

  lemma {:induction false} SelectAll(all: seq<Entry>, u: set<nat>)
    requires forall i :: 0 <= i < |all| ==> i in u
    ensures Select(all, u) == all
  {
    if all != [] {
      SelectAll(all[..|all| - 1], u);
    }
  }

  /** The index in the full list of the `p`-th selected entry. */
  ghost function IndexAt(all: seq<Entry>, live: set<nat>, p: nat): (i: nat)
    requires p < |Select(all, live)|
    ensures i < |all| && i in live && all[i] == Select(all, live)[p]
    ensures p == |Select(all[..i], live)|
  {
    var n := |all| - 1;
    var init := Select(all[..n], live);
    if p < |init| then
      var i := IndexAt(all[..n], live, p);
      assert all[..n][..i] == all[..i];
      i
    else n
  }

  /** The other way: a live index is the one at its position. */
  lemma {:induction false} PositionOf(all: seq<Entry>, live: set<nat>, i: nat) returns (p: nat)
    requires i < |all| && i in live
    ensures p < |Select(all, live)| && IndexAt(all, live, p) == i
  {
    var n := |all| - 1;
    if i == n {
      p := |Select(all[..n], live)|;
    } else {
      p := PositionOf(all[..n], live, i);
    }
  }

  lemma {:induction false} IndexAtIncreases(all: seq<Entry>, live: set<nat>, p: nat, q: nat)
    requires p < q < |Select(all, live)|
    ensures IndexAt(all, live, p) < IndexAt(all, live, q)
  {
    var n := |all| - 1;
    if q < |Select(all[..n], live)| {
      IndexAtIncreases(all[..n], live, p, q);
    }
  }

  lemma {:induction false} SelectWithout(all: seq<Entry>, live: set<nat>, p: nat)
    requires p < |Select(all, live)|
    ensures Select(all, live - {IndexAt(all, live, p)}) == Without(Select(all, live), p)
  {
    var n, i := |all| - 1, IndexAt(all, live, p);
    var init := Select(all[..n], live);
    if p < |init| {
      SelectWithout(all[..n], live, p);
    } else {
      SelectSame(all[..n], live, live - {n});
    }
  }

  // ----- one step of the loop -----

  ghost predicate UpwardClosed(all: seq<Entry>, policy: Policy, clock: Clock, live: set<nat>) {
    forall i: nat, j: nat :: i < |all| && j < |all| && i in live && Before(all, policy, clock, i, j) ==> j in live
  }

  lemma VictimAmong(es: seq<Entry>, policy: Policy, clock: Clock, q: nat)
    requires q < |es|
    ensures var p := Victim(Dues(es, policy, clock));
            var a, b := Due(es[p], policy, clock), Due(es[q], policy, clock);
            Sooner(a, b) || (a == b && p <= q)
  {
    var dues := Dues(es, policy, clock);
    var p := Victim(dues);
    assert dues[p] == Due(es[p], policy, clock) && dues[q] == Due(es[q], policy, clock);
  }

  /** The victim comes before every other live entry. */
  lemma {:induction false} VictimIsFirst(all: seq<Entry>, policy: Policy, clock: Clock, live: set<nat>, j: nat)
    requires Select(all, live) != [] && j < |all| && j in live
    ensures var es := Select(all, live);
            var i := IndexAt(all, live, Victim(Dues(es, policy, clock)));
            j == i || Before(all, policy, clock, i, j)
  {
    var es := Select(all, live);
    var p := Victim(Dues(es, policy, clock));
    var q := PositionOf(all, live, j);
    VictimAmong(es, policy, clock, q);
    if p < q {
      IndexAtIncreases(all, live, p, q);
    }
  }

  /** So what is live is the victim's tail, and without the victim it is still closed upwards. */
  lemma VictimStep(all: seq<Entry>, policy: Policy, clock: Clock, live: set<nat>) returns (i: nat)
    requires Select(all, live) != [] && UpwardClosed(all, policy, clock, live)
    requires forall k :: k in live ==> k < |all|
    ensures i < |all| && i in live && live == Tail(all, policy, clock, i)
    ensures UpwardClosed(all, policy, clock, live - {i})
    ensures forall j :: j in live - {i} ==> Before(all, policy, clock, i, j)
    ensures var es := Select(all, live);
            var p := Victim(Dues(es, policy, clock));
            all[i] == es[p] && Select(all, live - {i}) == Without(es, p)
  {
    var p := Victim(Dues(Select(all, live), policy, clock));
    i := IndexAt(all, live, p);
    SelectWithout(all, live, p);
    forall j | j in live ensures j == i || Before(all, policy, clock, i, j) {
      VictimIsFirst(all, policy, clock, live, j);
    }
  }

  // ----- the closed form -----

  lemma FittingIsKept(all: seq<Entry>, policy: Policy, clock: Clock, live: set<nat>)
    requires UpwardClosed(all, policy, clock, live) && (forall k :: k in live ==> k < |all|)
    requires forall i :: 0 <= i < |all| && i !in live ==> i !in Kept(all, policy, clock)
    requires Fits(Select(all, live), policy)
    ensures live == Kept(all, policy, clock)
  {
    forall i | i in live ensures i in Kept(all, policy, clock) {
      SelectMonotone(all, Tail(all, policy, clock, i), live, policy);
    }
  }

  /** Indices in the order in which their entries would go. */
  ghost predicate InOrder(all: seq<Entry>, policy: Policy, clock: Clock, gone: seq<nat>) {
    && (forall k :: 0 <= k < |gone| ==> gone[k] < |all|)
    && (forall k, l :: 0 <= k < l < |gone| ==> Before(all, policy, clock, gone[k], gone[l]))
  }

  function KeysAt(all: seq<Entry>, gone: seq<nat>): seq<string>
    requires forall k :: 0 <= k < |gone| ==> gone[k] < |all|
  {
    seq(|gone|, k requires 0 <= k < |gone| => all[gone[k]].key)
  }

  /** Evicting from the live entries removes `gone`, in this order, and leaves the kept ones. */
  ghost predicate EvictsTo(all: seq<Entry>, policy: Policy, clock: Clock, live: set<nat>, gone: seq<nat>) {
    && InOrder(all, policy, clock, gone)
    && (forall i: nat :: i in gone <==> i in live && i !in Kept(all, policy, clock))
    && Evict(Select(all, live), policy, clock) == (Select(all, Kept(all, policy, clock)), KeysAt(all, gone))
    && Fits(Select(all, Kept(all, policy, clock)), policy)
  }

  lemma {:induction false} OrderedFrom(all: seq<Entry>, policy: Policy, clock: Clock, i: nat, rest: seq<nat>)
    requires i < |all| && InOrder(all, policy, clock, rest)
    requires forall k :: 0 <= k < |rest| ==> Before(all, policy, clock, i, rest[k])
    ensures InOrder(all, policy, clock, [i] + rest)
    ensures KeysAt(all, [i] + rest) == [all[i].key] + KeysAt(all, rest)
  {
    var gone := [i] + rest;
    forall k, l | 0 <= k < l < |gone| ensures Before(all, policy, clock, gone[k], gone[l]) {
      if k > 0 {
        assert Before(all, policy, clock, rest[k - 1], rest[l - 1]);
      }
    }
  }

  lemma {:induction false} EvictOneMore(
    all: seq<Entry>, policy: Policy, clock: Clock, live: set<nat>, i: nat, rest: seq<nat>, es: seq<Entry>, p: nat)
    requires es == Select(all, live) && !Fits(es, policy) && p == Victim(Dues(es, policy, clock))
    requires i < |all| && i in live && i !in Kept(all, policy, clock)
    requires all[i] == es[p] && Select(all, live - {i}) == Without(es, p)
    requires forall j: nat :: j in live - {i} && j < |all| ==> Before(all, policy, clock, i, j)
    requires EvictsTo(all, policy, clock, live - {i}, rest)
    ensures EvictsTo(all, policy, clock, live, [i] + rest)
  {
    forall k | 0 <= k < |rest| ensures Before(all, policy, clock, i, rest[k]) {
      assert rest[k] in rest;
    }
    OrderedFrom(all, policy, clock, i, rest);
    var left := Evict(Without(es, p), policy, clock);
    assert Evict(es, policy, clock) == (left.0, [es[p].key] + left.1);
  }

  /** From any upward closed set that contains all kept entries, the loop arrives at exactly those. */
  lemma {:induction false} EvictFrom(all: seq<Entry>, policy: Policy, clock: Clock, live: set<nat>)
    returns (gone: seq<nat>)
    requires UpwardClosed(all, policy, clock, live) && (forall k :: k in live ==> k < |all|)
    requires forall i :: 0 <= i < |all| && i !in live ==> i !in Kept(all, policy, clock)
    ensures EvictsTo(all, policy, clock, live, gone)
    decreases live
  {
    if Fits(Select(all, live), policy) {
      FittingIsKept(all, policy, clock, live);
      gone := [];
      assert KeysAt(all, gone) == [];
    } else {
      var i := VictimStep(all, policy, clock, live);
      var rest := EvictFrom(all, policy, clock, live - {i});
      var es := Select(all, live);
      EvictOneMore(all, policy, clock, live, i, rest, es, Victim(Dues(es, policy, clock)));
      gone := [i] + rest;
    }
  }

  /**
   * Greedy eviction equals its declarative form, for all three policies: an entry survives
   * exactly when it fits together with everything that would go after it; survivors keep their order.
   */
  lemma EvictionIsDeclarative(all: seq<Entry>, policy: Policy, clock: Clock)
    ensures Evict(all, policy, clock).0 == Select(all, Kept(all, policy, clock))
    ensures Fits(Evict(all, policy, clock).0, policy)
  {
    var live := Below(|all|);
    SelectAll(all, live);
    var _ := EvictFrom(all, policy, clock, live);
  }

  lemma KeptIsClosed(all: seq<Entry>, policy: Policy, clock: Clock, i: nat, j: nat)
    requires i in Kept(all, policy, clock) && j < |all| && j !in Kept(all, policy, clock)
    ensures Before(all, policy, clock, j, i)
  {
    if !Before(all, policy, clock, j, i) {
      SelectMonotone(all, Tail(all, policy, clock, j), Tail(all, policy, clock, i), policy);
    }
  }

  /** The evicted entries are all the others, in the order of eviction, and each goes before every survivor. */
  lemma EvictedAreTheRest(all: seq<Entry>, policy: Policy, clock: Clock) returns (gone: seq<nat>)
    ensures InOrder(all, policy, clock, gone)
    ensures forall i :: i in gone <==> 0 <= i < |all| && i !in Kept(all, policy, clock)
    ensures Evict(all, policy, clock).1 == KeysAt(all, gone)
    ensures forall i: nat, k ::
              i in Kept(all, policy, clock) && 0 <= k < |gone| ==> Before(all, policy, clock, gone[k], i)
  {
    var live := Below(|all|);
    SelectAll(all, live);
    gone := EvictFrom(all, policy, clock, live);
    var kept := Kept(all, policy, clock);
    forall i: nat, k | i in kept && 0 <= k < |gone| ensures Before(all, policy, clock, gone[k], i) {
      KeptIsClosed(all, policy, clock, i, gone[k]);
    }
  }

  lemma NothingGoesAfterTheLast(all: seq<Entry>, policy: Policy, clock: Clock, gone: seq<nat>, j: nat)
    requires j in gone && InOrder(all, policy, clock, gone)
    ensures j in Tail(all, policy, clock, gone[|gone| - 1]) ==> j == gone[|gone| - 1]
  {
    var k :| 0 <= k < |gone| && gone[k] == j;
    assert k < |gone| - 1 ==> Before(all, policy, clock, gone[k], gone[|gone| - 1]);
  }

  /** One fewer eviction would break a limit. */
  lemma OneFewerBreaksALimit(all: seq<Entry>, policy: Policy, clock: Clock, gone: seq<nat>)
    requires gone != [] && InOrder(all, policy, clock, gone)
    requires forall i :: i in gone <==> 0 <= i < |all| && i !in Kept(all, policy, clock)
    ensures !Fits(Select(all, Kept(all, policy, clock) + {gone[|gone| - 1]}), policy)
  {
    var kept, last := Kept(all, policy, clock), gone[|gone| - 1];
    assert last in gone;
    forall j | j in Tail(all, policy, clock, last) ensures j in kept + {last} {
      if j in gone {
        NothingGoesAfterTheLast(all, policy, clock, gone, j);
      }
    }
    SelectMonotone(all, Tail(all, policy, clock, last), kept + {last}, policy);
  }

  /** Longest: whatever is closed upwards and fits is contained in what eviction leaves. */
  lemma KeptIsLongest(all: seq<Entry>, policy: Policy, clock: Clock, other: set<nat>)
    requires UpwardClosed(all, policy, clock, other) && Fits(Select(all, other), policy)
    ensures forall i :: i in other && i < |all| ==> i in Kept(all, policy, clock)
  {
    forall i | i in other && i < |all| ensures i in Kept(all, policy, clock) {
      SelectMonotone(all, Tail(all, policy, clock, i), other, policy);
    }
  }

  // ----- sizes, counted without the functions that compute them -----

  /** The positions of the characters from this code point on. */
  function From(s: string, code: nat): set<nat> {
    set i: nat | i < |s| && s[i] as int >= code
  }

  /** All the text an entry is charged for. */
  function Text(e: Entry): string {
    e.key + e.value + Flat(e.tags) + e.createdAt + e.updatedAt + e.lastAccessedAt
  }

  function Flat(parts: seq<string>): string {
    if parts == [] then "" else parts[0] + Flat(parts[1..])
  }

  lemma {:induction false} Utf8LengthCounts(s: string)
    ensures Utf8Length(s) == |s| + |From(s, 0x80)| + |From(s, 0x800)| + |From(s, 0x1_0000)|
  {
    if s != "" {
      var n := |s| - 1;
      Utf8LengthCounts(s[..n]);
      FromLast(s, 0x80);
      FromLast(s, 0x800);
      FromLast(s, 0x1_0000);
    }
  }

  lemma FromLast(s: string, code: nat)
    requires s != ""
    ensures var n := |s| - 1; |From(s, code)| == |From(s[..n], code)| + (if s[n] as int >= code then 1 else 0)
  {
    var n := |s| - 1;
    assert From(s, code) == From(s[..n], code) + if s[n] as int >= code then {n} else {};
  }

  lemma {:induction false} Utf8LengthAdds(a: string, b: string)
    ensures Utf8Length(a + b) == Utf8Length(a) + Utf8Length(b)
  {
    if b == "" {
      assert a + b == a;
    } else {
      Utf8LengthAdds(a, b[..|b| - 1]);
      assert (a + b)[..|a + b| - 1] == a + b[..|b| - 1];
    }
  }

  lemma {:induction false} TagBytesCount(tags: seq<string>)
    ensures TagBytes(tags) == Utf8Length(Flat(tags))
  {
    if tags != [] {
      var init, last := tags[..|tags| - 1], tags[|tags| - 1];
      TagBytesCount(init);
      FlatSnoc(init, last);
      assert tags == init + [last];
      Utf8LengthAdds(Flat(init), last);
    }
  }

  lemma {:induction false} FlatSnoc(init: seq<string>, last: string)
    ensures Flat(init + [last]) == Flat(init) + last
  {
    if init == [] {
      assert (init + [last])[1..] == [];
    } else {
      FlatSnoc(init[1..], last);
      assert (init + [last])[1..] == init[1..] + [last];
    }
  }

  lemma SizeIsLength(e: Entry)
    ensures EntrySize(e) == Utf8Length(Text(e)) + 16
  {
    Utf8LengthAdds(e.key, e.value);
    TagBytesCount(e.tags);
    Utf8LengthAdds(e.key + e.value, Flat(e.tags));
    Utf8LengthAdds(e.key + e.value + Flat(e.tags), e.createdAt);
    Utf8LengthAdds(e.key + e.value + Flat(e.tags) + e.createdAt, e.updatedAt);
    Utf8LengthAdds(e.key + e.value + Flat(e.tags) + e.createdAt + e.updatedAt, e.lastAccessedAt);
  }

  function TextOfAll(es: seq<Entry>): string {
    if es == [] then "" else TextOfAll(es[..|es| - 1]) + Text(es[|es| - 1])
  }

  /** What the byte limit is compared with: the UTF-8 bytes of the text of all entries, and 16 for each of them. */
  lemma {:induction false} TotalCountsText(es: seq<Entry>)
    ensures var t := TextOfAll(es);
            BytesTotal(es) == |t| + |From(t, 0x80)| + |From(t, 0x800)| + |From(t, 0x1_0000)| + 16 * |es|
  {
    TotalIsLength(es);
    Utf8LengthCounts(TextOfAll(es));
  }

  lemma {:induction false} TotalIsLength(es: seq<Entry>)
    ensures BytesTotal(es) == Utf8Length(TextOfAll(es)) + 16 * |es|
  {
    if es != [] {
      var init, last := es[..|es| - 1], es[|es| - 1];
      TotalIsLength(init);
      Utf8LengthAdds(TextOfAll(init), Text(last));
      SizeIsLength(last);
    }
  }

  // ----- the order of eviction, by the stamps themselves -----

  /** The time of a stamp; one that cannot be read counts as now. */
  function TimeOf(stamp: string, clock: Clock): int {
    clock.parse(stamp).GetOr(clock.instant)
  }

  /** The entry was last updated longer ago than the time to live, which is in seconds. */
  predicate RanOut(e: Entry, secs: nat, clock: Clock) {
    var updated := clock.parse(e.updatedAt);
    updated.Some? && clock.instant - updated.value > secs * 1_000_000_000
  }

  /** Smaller first, ties in list order. */
  predicate Earlier(x: int, i: nat, y: int, j: nat) {
    x < y || (x == y && i < j)
  }

  /**
   * Which of two entries goes first: the one accessed or created earlier; or one whose time to live has run
   * out, the one updated longer ago first, and where none has run out the first in the list.
   */
  predicate GoesFirst(all: seq<Entry>, policy: Policy, clock: Clock, i: nat, j: nat)
    requires i < |all| && j < |all|
  {
    var a, b := all[i], all[j];
    match policy.eviction
    case Lru => Earlier(TimeOf(a.lastAccessedAt, clock), i, TimeOf(b.lastAccessedAt, clock), j)
    case Fifo => Earlier(TimeOf(a.createdAt, clock), i, TimeOf(b.createdAt, clock), j)
    case Ttl(secs) =>
      if RanOut(a, secs, clock) && RanOut(b, secs, clock) then
        Earlier(TimeOf(a.updatedAt, clock), i, TimeOf(b.updatedAt, clock), j)
      else RanOut(a, secs, clock) || (!RanOut(b, secs, clock) && i < j)
  }

  lemma BeforeIsGoesFirst(all: seq<Entry>, policy: Policy, clock: Clock, i: nat, j: nat)
    requires i < |all| && j < |all|
    ensures Before(all, policy, clock, i, j) <==> GoesFirst(all, policy, clock, i, j)
  {
  }

  lemma {:induction false} SelectIsPick(all: seq<Entry>, live: set<nat>) returns (at: seq<nat>)
    ensures Lists(at, |all|, i => i in live) && Select(all, live) == Pick(all, at)
  {
    if all == [] {
      at := [];
    } else {
      var n := |all| - 1;
      var init := SelectIsPick(all[..n], live);
      at := SnocLists(init, n, i => i in live);
    }
  }

  /**
   * Eviction by the stamps: the survivors are a part of the list in its order, the keys removed are those of all
   * the others, and whatever is removed goes before whatever is removed later and before every survivor.
   */
  lemma EvictionFollowsStamps(all: seq<Entry>, policy: Policy, clock: Clock) returns (kept: seq<nat>, gone: seq<nat>)
    ensures Ascending(kept) && Within(kept, |all|) && Within(gone, |all|)
    ensures forall i: nat :: i < |all| ==> (i in kept <==> i !in gone)
    ensures Evict(all, policy, clock).0 == Pick(all, kept)
    ensures |Evict(all, policy, clock).1| == |gone|
    ensures forall k :: 0 <= k < |gone| ==> Evict(all, policy, clock).1[k] == all[gone[k]].key
    ensures forall k, l :: 0 <= k < l < |gone| ==> GoesFirst(all, policy, clock, gone[k], gone[l])
    ensures forall k, m :: 0 <= k < |gone| && 0 <= m < |kept| ==> GoesFirst(all, policy, clock, gone[k], kept[m])
  {
    EvictionIsDeclarative(all, policy, clock);
    kept := SelectIsPick(all, Kept(all, policy, clock));
    gone := EvictedAreTheRest(all, policy, clock);
    forall k, l | 0 <= k < l < |gone| ensures GoesFirst(all, policy, clock, gone[k], gone[l]) {
      BeforeIsGoesFirst(all, policy, clock, gone[k], gone[l]);
    }
    forall k, m | 0 <= k < |gone| && 0 <= m < |kept| ensures GoesFirst(all, policy, clock, gone[k], kept[m]) {
      assert kept[m] in kept;
      BeforeIsGoesFirst(all, policy, clock, gone[k], kept[m]);
    }
  }

  /** The stamp a policy goes by is readable in every entry. */
  ghost predicate Readable(es: seq<Entry>, policy: Policy, parse: string -> Option<int>) {
    forall i :: 0 <= i < |es| ==>
      match policy.eviction
      case Fifo => parse(es[i].createdAt).Some?
      case Lru => parse(es[i].lastAccessedAt).Some?
      case Ttl(_) => true
  }

  /** With readable stamps, eviction by age of creation or access does not depend on when the clock is read. */
  lemma {:induction false} ClockDoesNotMatter(es: seq<Entry>, policy: Policy, c1: Clock, c2: Clock)
    requires c1.parse == c2.parse && !policy.eviction.Ttl? && Readable(es, policy, c1.parse)
    ensures Evict(es, policy, c1) == Evict(es, policy, c2)
    decreases |es|
  {
    if !Fits(es, policy) {
      forall i | 0 <= i < |es| ensures Due(es[i], policy, c1) == Due(es[i], policy, c2) {
      }
      assert Dues(es, policy, c1) == Dues(es, policy, c2);
      ClockDoesNotMatter(Without(es, Victim(Dues(es, policy, c1))), policy, c1, c2);
    }
  }

  // ----- whole runs -----

  ghost predicate UniqueKeys(es: seq<Entry>) {
    forall i, j :: 0 <= i < j < |es| ==> es[i].key != es[j].key
  }

  lemma {:induction false} EvictKeepsUnique(es: seq<Entry>, policy: Policy, clock: Clock)
    requires UniqueKeys(es)
    ensures UniqueKeys(Evict(es, policy, clock).0) && |Evict(es, policy, clock).0| <= |es|
    decreases |es|
  {
    if !Fits(es, policy) {
      EvictKeepsUnique(Without(es, Victim(Dues(es, policy, clock))), policy, clock);
    }
  }

  datatype Op =
    | PutOp(entry: Entry, clock: Clock, later: Clock)
    | GetOp(key: string, clock: Clock)
    | QueryOp(q: Query, clock: Clock)
    | EvictOp(clock: Clock)

  /** What each method leaves in `entries`. */
  function Apply(es: seq<Entry>, policy: Policy, op: Op): seq<Entry> {
    match op
    case PutOp(e, clock, later) => Evict(Inserted(es, e, clock.stamp), policy, later).0
    case GetOp(key, clock) => Fetched(es, key, clock.stamp)
    case QueryOp(q, clock) => TouchedIn(es, Hits(es, q, clock), clock.stamp)
    case EvictOp(clock) => Evict(es, policy, clock).0
  }

  function After(policy: Policy, start: seq<Entry>, ops: seq<Op>): seq<Entry> {
    if ops == [] then start else Apply(After(policy, start, ops[..|ops| - 1]), policy, ops[|ops| - 1])
  }

  function Max(a: nat, b: nat): nat {
    if a > b then a else b
  }

  function KeysOf(es: seq<Entry>): seq<string> {
    seq(|es|, i requires 0 <= i < |es| => es[i].key)
  }

  ghost function Occurrences(es: seq<Entry>, key: string): nat {
    multiset(KeysOf(es))[key]
  }

  lemma {:induction false} EvictKeepsOccurrences(es: seq<Entry>, policy: Policy, clock: Clock, key: string)
    ensures Occurrences(Evict(es, policy, clock).0, key) <= Occurrences(es, key)
    decreases |es|
  {
    if !Fits(es, policy) {
      var p := Victim(Dues(es, policy, clock));
      var keys := KeysOf(es);
      assert KeysOf(Without(es, p)) == keys[..p] + keys[p + 1..];
      assert keys == keys[..p] + [keys[p]] + keys[p + 1..];
      EvictKeepsOccurrences(Without(es, p), policy, clock, key);
    }
  }

  /** No operation gives a key a second entry. */
  lemma ApplyKeepsOccurrences(es: seq<Entry>, policy: Policy, op: Op, key: string)
    ensures Occurrences(Apply(es, policy, op), key) <= Max(1, Occurrences(es, key))
  {
    match op
    case PutOp(e, clock, later) =>
      var all := Inserted(es, e, clock.stamp);
      EvictKeepsOccurrences(all, policy, later, key);
      if IndexOf(es, e.key).Some? {
        assert KeysOf(all) == KeysOf(es);
      } else {
        assert KeysOf(all) == KeysOf(es) + [e.key];
        assert e.key !in KeysOf(es);
      }
    case EvictOp(clock) => EvictKeepsOccurrences(es, policy, clock, key);
    case GetOp(k, clock) => assert KeysOf(Apply(es, policy, op)) == KeysOf(es);
    case QueryOp(q, clock) => assert KeysOf(Apply(es, policy, op)) == KeysOf(es);
  }

  /** The operations that end with an eviction. */
  predicate Evicts(op: Op) {
    op.PutOp? || op.EvictOp?
  }

  lemma ApplyIsTidy(es: seq<Entry>, policy: Policy, op: Op)
    ensures UniqueKeys(es) ==> UniqueKeys(Apply(es, policy, op))
    ensures if Evicts(op) then Fits(Apply(es, policy, op), policy) else |Apply(es, policy, op)| == |es|
  {
    match op
    case PutOp(e, clock, later) =>
      EvictionIsDeclarative(Inserted(es, e, clock.stamp), policy, later);
      if UniqueKeys(es) {
        EvictKeepsUnique(Inserted(es, e, clock.stamp), policy, later);
      }
    case EvictOp(clock) =>
      EvictionIsDeclarative(es, policy, clock);
      if UniqueKeys(es) {
        EvictKeepsUnique(es, policy, clock);
      }
    case GetOp(key, clock) =>
    case QueryOp(q, clock) =>
  }

  lemma {:induction false} RunKeepsOccurrences(policy: Policy, start: seq<Entry>, ops: seq<Op>, key: string)
    ensures Occurrences(After(policy, start, ops), key) <= Max(1, Occurrences(start, key))
  {
    if ops != [] {
      var n := |ops| - 1;
      RunKeepsOccurrences(policy, start, ops[..n], key);
      ApplyKeepsOccurrences(After(policy, start, ops[..n]), policy, ops[n], key);
    }
  }

  lemma {:induction false} RunKeepsUnique(policy: Policy, start: seq<Entry>, ops: seq<Op>)
    ensures UniqueKeys(start) ==> UniqueKeys(After(policy, start, ops))
    ensures |After(policy, start, ops)| <= Max(policy.maxEntries, |start|)
  {
    if ops != [] {
      var n := |ops| - 1;
      RunKeepsUnique(policy, start, ops[..n]);
      ApplyIsTidy(After(policy, start, ops[..n]), policy, ops[n]);
    }
  }

  lemma {:induction false} RunKeepsLimit(policy: Policy, start: seq<Entry>, ops: seq<Op>, i: nat)
    requires i < |ops| && Evicts(ops[i])
    ensures |After(policy, start, ops)| <= policy.maxEntries
  {
    var n := |ops| - 1;
    if i < n {
      assert ops[..n][i] == ops[i];
      RunKeepsLimit(policy, start, ops[..n], i);
    }
    ApplyIsTidy(After(policy, start, ops[..n]), policy, ops[n]);
  }

  /**
   * Every run, from whatever was loaded: no key gets more entries than it was loaded with, or one; the
   * list is never longer than the limit or the loaded one, and within the limit from the first put or
   * eviction on; right after a put or an eviction both limits hold.
   */
  lemma EveryRunIsTidy(policy: Policy, start: seq<Entry>, ops: seq<Op>)
    ensures forall key :: Occurrences(After(policy, start, ops), key) <= Max(1, Occurrences(start, key))
    ensures UniqueKeys(start) ==> UniqueKeys(After(policy, start, ops))
    ensures |After(policy, start, ops)| <= Max(policy.maxEntries, |start|)
    ensures forall i :: 0 <= i < |ops| && Evicts(ops[i]) ==> |After(policy, start, ops)| <= policy.maxEntries
    ensures ops != [] && Evicts(ops[|ops| - 1]) ==> Fits(After(policy, start, ops), policy)
  {
    forall key ensures Occurrences(After(policy, start, ops), key) <= Max(1, Occurrences(start, key)) {
      RunKeepsOccurrences(policy, start, ops, key);
    }
    RunKeepsUnique(policy, start, ops);
    forall i | 0 <= i < |ops| && Evicts(ops[i]) ensures |After(policy, start, ops)| <= policy.maxEntries {
      RunKeepsLimit(policy, start, ops, i);
    }
    if ops != [] {
      ApplyIsTidy(After(policy, start, ops[..|ops| - 1]), policy, ops[|ops| - 1]);
    }
  }

  // ----- counting accesses -----

  /** Gets of one key, one after another. */
  ghost function Gets(key: string, clocks: seq<Clock>): seq<Op> {
    seq(|clocks|, i requires 0 <= i < |clocks| => GetOp(key, clocks[i]))
  }

  lemma LastGet(policy: Policy, start: seq<Entry>, key: string, clocks: seq<Clock>)
    requires clocks != []
    ensures var n := |clocks| - 1;
            After(policy, start, Gets(key, clocks))
            == Fetched(After(policy, start, Gets(key, clocks[..n])), key, clocks[n].stamp)
  {
    var n := |clocks| - 1;
    assert Gets(key, clocks)[..n] == Gets(key, clocks[..n]);
  }

  /**
   * Gets of a key count up the first entry with it to the largest 64-bit number at
   * most and leave the stamp of the last get; nothing else of the store changes.
   */
  lemma {:induction false} GetsAreCounted(policy: Policy, start: seq<Entry>, key: string, clocks: seq<Clock>, at: nat)
    requires IndexOf(start, key) == Some(at) && clocks != [] && start[at].accessCount <= 0xFFFF_FFFF_FFFF_FFFF
    ensures var after, count := After(policy, start, Gets(key, clocks)), start[at].accessCount + |clocks|;
            && IndexOf(after, key) == Some(at)
            && after == start[at := start[at].(
                 lastAccessedAt := clocks[|clocks| - 1].stamp,
                 accessCount := if count < 0xFFFF_FFFF_FFFF_FFFF then count else 0xFFFF_FFFF_FFFF_FFFF)]
    decreases |clocks|
  {
    var n := |clocks| - 1;
    LastGet(policy, start, key, clocks);
    if n == 0 {
      assert Gets(key, clocks[..0]) == [];
      IndexUnchanged(start, at, Touch(start[at], clocks[0].stamp));
    } else {
      GetsAreCounted(policy, start, key, clocks[..n], at);
      var before := After(policy, start, Gets(key, clocks[..n]));
      IndexUnchanged(before, at, Touch(before[at], clocks[n].stamp));
    }
  }

  // ----- what a put stores, and what a get costs -----

  lemma {:induction false} SelectedKeys(all: seq<Entry>, live: set<nat>, key: string)
    ensures HasKey(Select(all, live), key) <==> exists i: nat :: i < |all| && i in live && all[i].key == key
  {
    forall i: nat | i < |all| && i in live && all[i].key == key ensures HasKey(Select(all, live), key) {
      var p := PositionOf(all, live, i);
      assert Select(all, live)[p] == all[i];
    }
    if HasKey(Select(all, live), key) {
      var p: nat :| p < |Select(all, live)| && Select(all, live)[p].key == key;
      assert IndexAt(all, live, p) in live && all[IndexAt(all, live, p)].key == key;
    }
  }

  /** The entry at `i` fits together with everything that would be evicted after it. */
  ghost predicate FitsWithLater(all: seq<Entry>, policy: Policy, clock: Clock, i: nat)
    requires i < |all|
  {
    Fits(Select(all, Tail(all, policy, clock, i)), policy)
  }

  lemma InsertKeepsUnique(es: seq<Entry>, e: Entry, stamp: string)
    requires UniqueKeys(es)
    ensures UniqueKeys(Inserted(es, e, stamp))
  {
  }

  lemma KeptByIndex(all: seq<Entry>, policy: Policy, clock: Clock, key: string)
    ensures HasKey(Evict(all, policy, clock).0, key)
            <==> exists j: nat :: j < |all| && all[j].key == key && FitsWithLater(all, policy, clock, j)
  {
    var kept := Kept(all, policy, clock);
    EvictionIsDeclarative(all, policy, clock);
    SelectedKeys(all, kept, key);
    assert forall j: nat :: j < |all| ==> (j in kept <==> FitsWithLater(all, policy, clock, j));
  }

  /**
   * A put writes its value and tags under the first entry with its key, or a new one, and leaves every
   * other entry alone. The key is still there afterwards exactly when some entry with it fits together
   * with everything that would be evicted after it; where keys are unique that is the entry written.
   */
  lemma PutIsKeptIff(es: seq<Entry>, policy: Policy, e: Entry, clock: Clock, later: Clock)
    ensures var all, at := Inserted(es, e, clock.stamp), IndexOf(es, e.key);
            var i: nat := if at.Some? then at.value else |es|;
            && i < |all| && all[i].key == e.key && all[i].value == e.value && all[i].tags == e.tags
            && (forall j :: 0 <= j < |es| && j != i ==> all[j] == es[j])
            && (HasKey(Apply(es, policy, PutOp(e, clock, later)), e.key) <==>
                exists j: nat :: j < |all| && all[j].key == e.key && FitsWithLater(all, policy, later, j))
            && (UniqueKeys(es) ==>
                  (HasKey(Apply(es, policy, PutOp(e, clock, later)), e.key) <==> FitsWithLater(all, policy, later, i)))
  {
    var all := Inserted(es, e, clock.stamp);
    KeptByIndex(all, policy, later, e.key);
    if UniqueKeys(es) {
      InsertKeepsUnique(es, e, clock.stamp);
    }
  }

  lemma {:induction false} BytesAfterUpdate(es: seq<Entry>, i: nat, e: Entry)
    requires i < |es|
    ensures BytesTotal(es[i := e]) == BytesTotal(es) - EntrySize(es[i]) + EntrySize(e)
  {
    var n := |es| - 1;
    if i < n {
      BytesAfterUpdate(es[..n], i, e);
      assert es[i := e][..n] == es[..n][i := e];
    } else {
      assert es[i := e][..n] == es[..n];
    }
  }

  /** A get never evicts, so the byte limit survives it exactly when the new access stamp leaves room for itself. */
  lemma GetKeepsLimitsIff(es: seq<Entry>, policy: Policy, key: string, stamp: string)
    requires Fits(es, policy)
    ensures var at := IndexOf(es, key);
            Fits(Fetched(es, key, stamp), policy) <==>
            at.None? || BytesTotal(es) + Utf8Length(stamp)
              <= policy.maxBytesTotal + Utf8Length(es[at.value].lastAccessedAt)
  {
    var at := IndexOf(es, key);
    if at.Some? {
      BytesAfterUpdate(es, at.value, Touch(es[at.value], stamp));
    }
  }

  /** How many entries the hits touch. */
  function TouchedCount(es: seq<Entry>, hits: seq<Entry>): nat {
    if es == [] then 0
    else TouchedCount(es[..|es| - 1], hits) + (if HasKey(hits, es[|es| - 1].key) then 1 else 0)
  }

  /** The bytes of the access stamps that the hits replace. */
  function ReplacedBytes(es: seq<Entry>, hits: seq<Entry>): nat {
    if es == [] then 0
    else
      var last := es[|es| - 1];
      ReplacedBytes(es[..|es| - 1], hits) + (if HasKey(hits, last.key) then Utf8Length(last.lastAccessedAt) else 0)
  }

  lemma TouchSize(e: Entry, stamp: string)
    ensures EntrySize(Touch(e, stamp)) + Utf8Length(e.lastAccessedAt) == EntrySize(e) + Utf8Length(stamp)
  {
  }

  /** The bytes of as many stamps of this size. */
  function StampBytes(count: nat, size: nat): nat {
    count * size
  }

  lemma StampBytesSum(count: nat, size: nat)
    ensures StampBytes(count + 1, size) == StampBytes(count, size) + size
  {
  }

  lemma TouchedLast(es: seq<Entry>, hits: seq<Entry>, stamp: string)
    requires es != []
    ensures var n := |es| - 1; var t := TouchedIn(es, hits, stamp);
            t[..n] == TouchedIn(es[..n], hits, stamp)
            && t[n] == if HasKey(hits, es[n].key) then Touch(es[n], stamp) else es[n]
  {
  }

  lemma {:induction false} BytesAfterTouching(es: seq<Entry>, hits: seq<Entry>, stamp: string)
    ensures BytesTotal(TouchedIn(es, hits, stamp)) + ReplacedBytes(es, hits)
         == BytesTotal(es) + StampBytes(TouchedCount(es, hits), Utf8Length(stamp))
  {
    if es != [] {
      var init, last := es[..|es| - 1], es[|es| - 1];
      BytesAfterTouching(init, hits, stamp);
      TouchedLast(es, hits, stamp);
      TouchSize(last, stamp);
      StampBytesSum(TouchedCount(init, hits), Utf8Length(stamp));
    }
  }

  /** A query never evicts either: the byte limit survives it exactly when the new stamps fit in place of the old. */
  lemma QueryKeepsLimitsIff(es: seq<Entry>, policy: Policy, q: Query, clock: Clock)
    requires Fits(es, policy)
    ensures var hits := Hits(es, q, clock);
            Fits(Apply(es, policy, QueryOp(q, clock)), policy) <==>
            BytesTotal(es) + StampBytes(TouchedCount(es, hits), Utf8Length(clock.stamp))
            <= policy.maxBytesTotal + ReplacedBytes(es, hits)
  {
    BytesAfterTouching(es, Hits(es, q, clock), clock.stamp);
  }

  /** An entry of 21 bytes whose access stamp takes one of them. */
  const SMALL := Entry("k", "v", [], "c", "u", "t", 1)

  lemma SmallSize(stamp: string)
    ensures BytesTotal([SMALL]) == EntrySize(SMALL) == 21
    ensures BytesTotal([Touch(SMALL, stamp)]) == 20 + Utf8Length(stamp)
  {
    forall s: string | |s| == 1 && s[0] as int < 0x80 ensures Utf8Length(s) == 1 {
      assert s[..0] == "";
    }
    assert [SMALL][..0] == [] && [Touch(SMALL, stamp)][..0] == [];
  }

  /** A put that fits and then a get that does not: any stamp of more than a byte breaks the byte limit here. */
  lemma GetCanBreakLimit(put: Clock, later: Clock, get: Clock)
    requires Utf8Length(get.stamp) > 1
    ensures var policy := Policy(1, 21, Lru);
            var afterPut, afterGet := After(policy, [], [PutOp(SMALL, put, later)]),
                                      After(policy, [], [PutOp(SMALL, put, later), GetOp("k", get)]);
            afterPut == [SMALL] && Fits(afterPut, policy) && !Fits(afterGet, policy)
  {
    var policy := Policy(1, 21, Lru);
    SmallSize(get.stamp);
    var ops := [PutOp(SMALL, put, later), GetOp("k", get)];
    assert ops[..1] == [PutOp(SMALL, put, later)] && ops[..1][..0] == [];
    assert Inserted([], SMALL, put.stamp) == [SMALL];
    assert After(policy, [], ops[..1]) == [SMALL];
    assert [SMALL][..0] == [] && IndexOf([SMALL], "k") == Some(0);
    assert After(policy, [], ops) == [Touch(SMALL, get.stamp)];
  }

  /** The same with a query for everything instead of the get. */
  lemma QueryCanBreakLimit(put: Clock, later: Clock, ask: Clock)
    requires Utf8Length(ask.stamp) > 1
    ensures var policy, q := Policy(1, 21, Lru), Query(None, None, None);
            var afterPut, afterQuery := After(policy, [], [PutOp(SMALL, put, later)]),
                                        After(policy, [], [PutOp(SMALL, put, later), QueryOp(q, ask)]);
            afterPut == [SMALL] && Fits(afterPut, policy) && !Fits(afterQuery, policy)
  {
    var policy, q := Policy(1, 21, Lru), Query(None, None, None);
    SmallSize(ask.stamp);
    var ops := [PutOp(SMALL, put, later), QueryOp(q, ask)];
    assert ops[..1] == [PutOp(SMALL, put, later)] && ops[..1][..0] == [];
    assert Inserted([], SMALL, put.stamp) == [SMALL];
    assert After(policy, [], ops[..1]) == [SMALL];
    assert [SMALL][..0] == [] && Matching([SMALL], q) == [SMALL] && ByAccess([SMALL], ask) == [SMALL];
    assert Hits([SMALL], q, ask) == [SMALL] && HasKey([SMALL], [SMALL][0].key);
    assert After(policy, [], ops) == [Touch(SMALL, ask.stamp)];
  }

  // ----- queries -----

  /** The entries with this access time, in their order. */
  ghost function WithAccess(es: seq<Entry>, t: Option<int>, clock: Clock): seq<Entry> {
    if es == [] then []
    else
      var last := es[|es| - 1];
      WithAccess(es[..|es| - 1], t, clock) + (if clock.parse(last.lastAccessedAt) == t then [last] else [])
  }

  /** The first was not accessed after the second; one whose stamp cannot be read counts as never. */
  predicate NoLater(x: Entry, y: Entry, clock: Clock) {
    var a, b := clock.parse(x.lastAccessedAt), clock.parse(y.lastAccessedAt);
    a.None? || (b.Some? && a.value <= b.value)
  }

  ghost predicate NewestFirst(es: seq<Entry>, clock: Clock) {
    forall i, j :: 0 <= i < j < |es| ==> NoLater(es[j], es[i], clock)
  }

  /** What a query asks for: a prefix of the key and a tag, where it names them. */
  predicate AskedFor(e: Entry, q: Query) {
    (q.prefix.Some? ==> q.prefix.value <= e.key) && (q.tag.Some? ==> q.tag.value in e.tags)
  }

  lemma {:induction false} InsertPermutes(sorted: seq<Entry>, e: Entry, clock: Clock)
    ensures multiset(InsertByAccess(sorted, e, clock)) == multiset(sorted) + multiset{e}
  {
    if sorted != [] {
      var n := |sorted| - 1;
      InsertPermutes(sorted[..n], e, clock);
      assert sorted == sorted[..n] + [sorted[n]];
    }
  }

  lemma {:induction false} InsertIsSorted(sorted: seq<Entry>, e: Entry, clock: Clock)
    requires NewestFirst(sorted, clock)
    ensures NewestFirst(InsertByAccess(sorted, e, clock), clock)
  {
    if sorted != [] {
      var n := |sorted| - 1;
      if Newer(Accessed(e, clock), Accessed(sorted[n], clock)) {
        var r := InsertByAccess(sorted[..n], e, clock);
        InsertIsSorted(sorted[..n], e, clock);
        forall i | 0 <= i < |r| ensures NoLater(sorted[n], r[i], clock) {
          InsertedMember(sorted[..n], e, clock, r[i]);
        }
      }
    }
  }

  lemma InsertedMember(sorted: seq<Entry>, e: Entry, clock: Clock, x: Entry)
    requires x in InsertByAccess(sorted, e, clock)
    ensures x == e || x in sorted
  {
    InsertPermutes(sorted, e, clock);
    assert x in multiset(InsertByAccess(sorted, e, clock));
  }

  lemma WithAccessSnoc(es: seq<Entry>, e: Entry, clock: Clock, t: Option<int>)
    ensures WithAccess(es + [e], t, clock) == WithAccess(es, t, clock) + (if Accessed(e, clock) == t then [e] else [])
  {
    assert (es + [e])[..|es|] == es;
  }

  lemma {:induction false} InsertIsStable(sorted: seq<Entry>, e: Entry, clock: Clock, t: Option<int>)
    ensures WithAccess(InsertByAccess(sorted, e, clock), t, clock)
         == WithAccess(sorted, t, clock) + (if Accessed(e, clock) == t then [e] else [])
  {
    WithAccessSnoc(sorted, e, clock, t);
    if sorted != [] {
      var init, last := sorted[..|sorted| - 1], sorted[|sorted| - 1];
      if Newer(Accessed(e, clock), Accessed(last, clock)) {
        var inserted := InsertByAccess(init, e, clock);
        InsertIsStable(init, e, clock, t);
        WithAccessSnoc(inserted, last, clock, t);
        assert InsertByAccess(sorted, e, clock) == inserted + [last];
        assert WithAccess(sorted, t, clock)
               == WithAccess(init, t, clock) + (if Accessed(last, clock) == t then [last] else []);
      } else {
        assert InsertByAccess(sorted, e, clock) == sorted + [e];
      }
    }
  }

  /** The order of a query's answers is the stable sort: newest access first, ties in list order, nothing lost. */
  lemma {:induction false} ByAccessIsStableSort(es: seq<Entry>, clock: Clock)
    ensures NewestFirst(ByAccess(es, clock), clock)
    ensures multiset(ByAccess(es, clock)) == multiset(es)
    ensures forall t :: WithAccess(ByAccess(es, clock), t, clock) == WithAccess(es, t, clock)
  {
    if es != [] {
      var n := |es| - 1;
      ByAccessIsStableSort(es[..n], clock);
      InsertIsSorted(ByAccess(es[..n], clock), es[n], clock);
      InsertPermutes(ByAccess(es[..n], clock), es[n], clock);
      assert es == es[..n] + [es[n]];
      forall t ensures WithAccess(ByAccess(es, clock), t, clock) == WithAccess(es, t, clock) {
        InsertIsStable(ByAccess(es[..n], clock), es[n], clock, t);
      }
    }
  }

  lemma {:induction false} MatchingExactly(es: seq<Entry>, q: Query)
    ensures forall e :: e in Matching(es, q) <==> e in es && AskedFor(e, q)
  {
    if es != [] {
      MatchingExactly(es[..|es| - 1], q);
    }
  }

  /** The sorted list of matches, of which the answer is a prefix. */
  lemma SortedMatches(es: seq<Entry>, q: Query, clock: Clock) returns (sorted: seq<Entry>)
    ensures Hits(es, q, clock) == Truncate(sorted, q.limit.GetOr(50)) && NewestFirst(sorted, clock)
    ensures forall e :: e in sorted <==> e in es && AskedFor(e, q)
  {
    var found := Matching(es, q);
    sorted := ByAccess(found, clock);
    ByAccessIsStableSort(found, clock);
    MatchingExactly(es, q);
    forall e ensures e in sorted <==> e in found {
      assert e in multiset(sorted) <==> e in multiset(found);
    }
  }

  lemma CutOffIsNoNewer(sorted: seq<Entry>, limit: nat, clock: Clock, omitted: Entry)
    requires NewestFirst(sorted, clock) && omitted in sorted && omitted !in Truncate(sorted, limit)
    ensures |Truncate(sorted, limit)| == limit
    ensures forall e :: e in Truncate(sorted, limit) ==> NoLater(omitted, e, clock)
  {
    var k :| 0 <= k < |sorted| && sorted[k] == omitted;
    assert forall i :: 0 <= i < limit && |sorted| > limit ==> sorted[i] == Truncate(sorted, limit)[i];
  }

  /**
   * A query answers with entries it asks for only, newest first and never more than its limit, and whatever it
   * asks for and leaves out was accessed no later.
   */
  lemma QueryAnswersNewest(es: seq<Entry>, q: Query, clock: Clock, omitted: Entry)
    ensures forall e :: e in Hits(es, q, clock) ==> e in es && AskedFor(e, q)
    ensures NewestFirst(Hits(es, q, clock), clock) && |Hits(es, q, clock)| <= q.limit.GetOr(50)
    ensures omitted in es && AskedFor(omitted, q) && omitted !in Hits(es, q, clock) ==>
            && |Hits(es, q, clock)| == q.limit.GetOr(50)
            && forall e :: e in Hits(es, q, clock) ==> NoLater(omitted, e, clock)
  {
    var sorted := SortedMatches(es, q, clock);
    assert forall i :: 0 <= i < |Hits(es, q, clock)| ==> Hits(es, q, clock)[i] == sorted[i];
    if omitted in sorted && omitted !in Hits(es, q, clock) {
      CutOffIsNoNewer(sorted, q.limit.GetOr(50), clock, omitted);
    }
  }
}
