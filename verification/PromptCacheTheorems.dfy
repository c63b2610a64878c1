/** What the keys of the prompt cache tell apart, and why replaying a step is safe. */
module PromptCacheTheorems {
  import opened Wrappers
  import opened Listings
  import opened Json
  import opened Text
  import opened Types
  import opened RunnerSpec
  import opened CacheStore
  import opened StableHash
  import opened PromptCache

  // ----- keys -----

  /** Tool calls with the same id and name, and arguments that agree up to the order of object fields. */
  ghost predicate AlikeCalls(a: seq<ToolCall>, b: seq<ToolCall>) {
    && |a| == |b|
    && forall k :: 0 <= k < |a| ==>
         a[k].id == b[k].id && a[k].name == b[k].name && Canonical(a[k].arguments) == Canonical(b[k].arguments)
  }

  /** Messages that agree in every field, their calls up to the order of object fields. */
  ghost predicate Alike(a: Message, b: Message) {
    && a.(toolCalls := None) == b.(toolCalls := None)
    && a.toolCalls.Some? == b.toolCalls.Some?
    && (a.toolCalls.Some? ==> AlikeCalls(a.toolCalls.value, b.toolCalls.value))
  }

  ghost predicate AllAlike(a: seq<Message>, b: seq<Message>) {
    |a| == |b| && forall k :: 0 <= k < |a| ==> Alike(a[k], b[k])
  }

  /**
   * Different canonical values have different digests, and the encodings of two
   * lists of messages have one canonical form just when the messages are alike.
   */
  ghost predicate Injective(h: Hasher) {
    && (forall u: Value, v: Value :: h.digest(u) == h.digest(v) ==> u == v)
    && (forall a: seq<Message>, b: seq<Message> ::
          Canonical(h.encode(a)) == Canonical(h.encode(b)) <==> AllAlike(a, b))
  }

  /** The positions of the messages of role `system`, or of all the others. */
  ghost function OfKind(messages: seq<Message>, system: bool): nat -> bool {
    (i: nat) => i < |messages| && (messages[i].role == "system") == system
  }

  /** The messages of this kind are alike, in the same order. */
  ghost predicate SameMessages(a: seq<Message>, b: seq<Message>, system: bool) {
    exists p: seq<nat>, q: seq<nat> ::
      && Lists(p, |a|, OfKind(a, system)) && Lists(q, |b|, OfKind(b, system))
      && AllAlike(Pick(a, p), Pick(b, q))
  }

  predicate HasEvent<R>(r: StepRequest<R>) {
    r.summarizationEvent.Some? && r.summarizationEvent.value != Null
  }

  /**
   * The provider name is the same, the messages of role `system` and all the others are alike in order, and so are
   * the skills, the tool specifications and the summarization event up to the order of object fields.
   */
  ghost predicate SameRequest<R>(r1: StepRequest<R>, o1: PromptCacheOptions, r2: StepRequest<R>,
                                 o2: PromptCacheOptions)
  {
    && o1.providerId == o2.providerId
    && SameMessages(r1.messages, r2.messages, true) && SameMessages(r1.messages, r2.messages, false)
    && Canonical(r1.skills) == Canonical(r2.skills) && Canonical(r1.toolSpecs) == Canonical(r2.toolSpecs)
    && HasEvent(r1) == HasEvent(r2)
    && (HasEvent(r1) ==> Canonical(r1.summarizationEvent.value) == Canonical(r2.summarizationEvent.value))
  }

  /** The messages of one kind, picked by their positions. */
  lemma {:induction false} WithRoleIsPick(messages: seq<Message>, system: bool) returns (at: seq<nat>)
    ensures Lists(at, |messages|, OfKind(messages, system)) && WithRole(messages, system) == Pick(messages, at)
  {
    if messages == [] {
      at := [];
    } else {
      var n := |messages| - 1;
      var init := WithRoleIsPick(messages[..n], system);
      ListsAgree(init, n, OfKind(messages[..n], system), OfKind(messages, system));
      at := SnocLists(init, n, OfKind(messages, system));
      WithRoleSnoc(messages[..n], messages[n], system);
      assert messages == messages[..n] + [messages[n]];
    }
  }

  lemma {:induction false} WithRoleSnoc(messages: seq<Message>, m: Message, system: bool)
    ensures WithRole(messages + [m], system)
         == WithRole(messages, system) + if (m.role == "system") == system then [m] else []
  {
    if messages == [] {
      assert messages + [m] == [m];
    } else {
      assert (messages + [m])[1..] == messages[1..] + [m];
      WithRoleSnoc(messages[1..], m, system);
    }
  }

  lemma WithRoleDecides(a: seq<Message>, b: seq<Message>, system: bool)
    ensures SameMessages(a, b, system) <==> AllAlike(WithRole(a, system), WithRole(b, system))
  {
    var p := WithRoleIsPick(a, system);
    var q := WithRoleIsPick(b, system);
    forall p1: seq<nat>, q1: seq<nat> | Lists(p1, |a|, OfKind(a, system)) && Lists(q1, |b|, OfKind(b, system))
      ensures p1 == p && q1 == q
    {
      ListsAreUnique(p1, p, |a|, OfKind(a, system));
      ListsAreUnique(q1, q, |b|, OfKind(b, system));
    }
  }

  lemma SameDigest(h: Hasher, u: Value, v: Value)
    requires Injective(h)
    ensures StableJsonHash(h, u) == StableJsonHash(h, v) <==> Canonical(u) == Canonical(v)
  {
  }

  /** The digests of the messages of one kind are the same just when the messages are alike. */
  lemma MessageDigests(h: Hasher, a: seq<Message>, b: seq<Message>, system: bool)
    requires Injective(h)
    ensures StableJsonHash(h, h.encode(WithRole(a, system))) == StableJsonHash(h, h.encode(WithRole(b, system)))
            <==> SameMessages(a, b, system)
  {
    SameDigest(h, h.encode(WithRole(a, system)), h.encode(WithRole(b, system)));
    WithRoleDecides(a, b, system);
  }

  lemma ProviderDigests(h: Hasher, o1: PromptCacheOptions, o2: PromptCacheOptions)
    requires Injective(h)
    ensures StableJsonHash(h, ProviderView(o1)) == StableJsonHash(h, ProviderView(o2))
            <==> o1.providerId == o2.providerId
  {
    var u, v := ProviderView(o1), ProviderView(o2);
    SameDigest(h, u, v);
    SingleFieldIsCanonical(u);
    SingleFieldIsCanonical(v);
    if u == v {
      assert u.fields[0] == v.fields[0];
    }
  }

  lemma SingleFieldIsCanonical(v: Value)
    requires v.Obj? && |v.fields| == 1 && v.fields[0].value.Str?
    ensures Canonical(v) == v
  {
    assert CanonicalFields(v.fields) == v.fields;
    SortedIsFixed(v.fields);
  }

  lemma ToolDigests<R>(h: Hasher, r1: StepRequest<R>, r2: StepRequest<R>)
    requires Injective(h)
    ensures StableJsonHash(h, ToolsView(r1)) == StableJsonHash(h, ToolsView(r2))
            <==> Canonical(r1.skills) == Canonical(r2.skills) && Canonical(r1.toolSpecs) == Canonical(r2.toolSpecs)
  {
    var u, v := ToolsView(r1), ToolsView(r2);
    SameDigest(h, u, v);
    var x := ToolsCanonical(r1);
    var y := ToolsCanonical(r2);
    if x == y {
      assert x[0] == y[0] && x[1] == y[1];
    }
  }

  lemma ToolsCanonical<R>(r: StepRequest<R>) returns (fields: seq<Field>)
    ensures fields == [Field("skills", Canonical(r.skills)), Field("tool_specs", Canonical(r.toolSpecs))]
    ensures Canonical(ToolsView(r)) == Obj(fields)
  {
    fields := [Field("skills", Canonical(r.skills)), Field("tool_specs", Canonical(r.toolSpecs))];
    assert CanonicalFields(ToolsView(r).fields) == fields;
    SortedIsFixed(fields);
  }

  lemma L1ObjectIsCanonical(c: CacheKeyComponents)
    ensures Canonical(L1Object(c)) == L1Object(c)
  {
    var fields := L1Object(c).fields;
    assert CanonicalFields(fields) == fields;
    SortedIsFixed(fields);
  }

  lemma L2ObjectIsCanonical(c: CacheKeyComponents, l1: string)
    ensures Canonical(L2Object(c, l1)) == L2Object(c, l1)
  {
    var fields := L2Object(c, l1).fields;
    assert CanonicalFields(fields) == fields;
    SortedIsFixed(fields);
  }

  /** The second-level key is the same exactly when all its components are. */
  lemma KeysDecideComponents(h: Hasher, c1: CacheKeyComponents, c2: CacheKeyComponents)
    requires Injective(h)
    ensures L2KeyHash(h, c1, L1KeyHash(h, c1)) == L2KeyHash(h, c2, L1KeyHash(h, c2)) <==> c1 == c2
  {
    var k1, k2 := L1KeyHash(h, c1), L1KeyHash(h, c2);
    L1ObjectIsCanonical(c1);
    L1ObjectIsCanonical(c2);
    L2ObjectIsCanonical(c1, k1);
    L2ObjectIsCanonical(c2, k2);
    if L2KeyHash(h, c1, k1) == L2KeyHash(h, c2, k2) {
      var x, y := L2Object(c1, k1), L2Object(c2, k2);
      assert x == y;
      assert x.fields[0] == y.fields[0] && x.fields[1] == y.fields[1] && x.fields[2] == y.fields[2];
      var u, v := L1Object(c1), L1Object(c2);
      assert u == v;
      assert u.fields[0] == v.fields[0] && u.fields[1] == v.fields[1] && u.fields[2] == v.fields[2];
    }
  }

  /** The second-level key tells requests apart exactly when they are not the same. */
  lemma KeysDecideRequests<R>(h: Hasher, r1: StepRequest<R>, o1: PromptCacheOptions, r2: StepRequest<R>,
                              o2: PromptCacheOptions)
    requires Injective(h)
    ensures L2Key(h, r1, o1) == L2Key(h, r2, o2) <==> SameRequest(r1, o1, r2, o2)
  {
    var c1, c2 := BuildKeyComponents(h, r1, o1), BuildKeyComponents(h, r2, o2);
    KeysDecideComponents(h, c1, c2);
    ProviderDigests(h, o1, o2);
    MessageDigests(h, r1.messages, r2.messages, true);
    MessageDigests(h, r1.messages, r2.messages, false);
    ToolDigests(h, r1, r2);
    if HasEvent(r1) && HasEvent(r2) {
      SameDigest(h, r1.summarizationEvent.value, r2.summarizationEvent.value);
    }
  }

  /** Every message reaches the key: putting another one of the same kind in its place changes the key. */
  lemma EveryMessageIsInTheKey<R>(h: Hasher, r: StepRequest<R>, opts: PromptCacheOptions, k: nat, m: Message)
    requires Injective(h) && k < |r.messages| && !Alike(r.messages[k], m)
    requires (m.role == "system") == (r.messages[k].role == "system")
    ensures L2Key(h, r, opts) != L2Key(h, r.(messages := r.messages[k := m]), opts)
  {
    var a, b := r.messages, r.messages[k := m];
    var system := m.role == "system";
    KeysDecideRequests(h, r, opts, r.(messages := b), opts);
    if SameMessages(a, b, system) {
      var p, q :| && Lists(p, |a|, OfKind(a, system)) && Lists(q, |b|, OfKind(b, system))
                  && AllAlike(Pick(a, p), Pick(b, q));
      ListsAgree(q, |b|, OfKind(b, system), OfKind(a, system));
      ListsAreUnique(p, q, |a|, OfKind(a, system));
      assert k in p;
      var x :| 0 <= x < |p| && p[x] == k;
      assert Alike(Pick(a, p)[x], Pick(b, q)[x]);
    }
  }

  /** A further message, of whatever role, changes the key. */
  lemma FurtherMessageIsInTheKey<R>(h: Hasher, r: StepRequest<R>, opts: PromptCacheOptions, m: Message)
    requires Injective(h)
    ensures L2Key(h, r, opts) != L2Key(h, r.(messages := r.messages + [m]), opts)
  {
    var b := r.messages + [m];
    KeysDecideRequests(h, r, opts, r.(messages := b), opts);
    WithRoleDecides(r.messages, b, m.role == "system");
    WithRoleSnoc(r.messages, m, m.role == "system");
  }

  predicate IsDigit(c: char) {
    '0' <= c <= '9'
  }

  lemma {:induction false} DecimalIsDigits(n: nat)
    ensures Decimal(n) != [] && forall i :: 0 <= i < |Decimal(n)| ==> IsDigit(Decimal(n)[i])
  {
    if n >= 10 {
      DecimalIsDigits(n / 10);
    }
  }

  lemma {:induction false} DecimalInjective(m: nat, n: nat)
    requires Decimal(m) == Decimal(n)
    ensures m == n
    decreases m
  {
    var s, t := Decimal(m), Decimal(n);
    if m >= 10 {
      DecimalIsDigits(m / 10);
    }
    if n >= 10 {
      DecimalIsDigits(n / 10);
    }
    assert s[|s| - 1] == t[|t| - 1];
    if m >= 10 && n >= 10 {
      assert s[..|s| - 1] == Decimal(m / 10) && t[..|t| - 1] == Decimal(n / 10);
      DecimalInjective(m / 10, n / 10);
    }
  }

  ghost predicate NoColon(s: string) {
    forall i :: 0 <= i < |s| ==> s[i] != ':'
  }

  /** A text is split uniquely at its last colon. */
  lemma {:induction false} LastColonSplits(a: string, x: string, b: string, y: string)
    requires a + ":" + x == b + ":" + y && NoColon(x) && NoColon(y)
    ensures a == b && x == y
    decreases |x|
  {
    var s, t := a + ":" + x, b + ":" + y;
    assert s[|s| - 1] == if x == [] then ':' else x[|x| - 1];
    assert t[|t| - 1] == if y == [] then ':' else y[|y| - 1];
    if x == [] {
      assert a == s[..|s| - 1] && b == t[..|t| - 1];
    } else {
      var x', y' := x[..|x| - 1], y[..|y| - 1];
      assert s[..|s| - 1] == a + ":" + x' && t[..|t| - 1] == b + ":" + y';
      LastColonSplits(a, x', b, y');
      assert x == x' + [x[|x| - 1]] && y == y' + [y[|y| - 1]];
    }
  }

  /**
   * Although partition names may contain colons, two options
   * share a partition only if they agree in all four parts.
   */
  lemma PartitionKeyInjective(o1: PromptCacheOptions, o2: PromptCacheOptions)
    ensures PartitionKey(o1) == PartitionKey(o2) <==>
            && o1.partition == o2.partition && o1.backend == o2.backend
            && o1.ttlMs == o2.ttlMs && o1.maxEntries == o2.maxEntries
  {
    if PartitionKey(o1) == PartitionKey(o2) {
      DecimalIsDigits(o1.maxEntries);
      DecimalIsDigits(o2.maxEntries);
      DecimalIsDigits(o1.ttlMs);
      DecimalIsDigits(o2.ttlMs);
      var a1, a2 := o1.partition + ":" + BackendName(o1.backend), o2.partition + ":" + BackendName(o2.backend);
      var b1, b2 := a1 + ":" + Decimal(o1.ttlMs), a2 + ":" + Decimal(o2.ttlMs);
      LastColonSplits(b1, Decimal(o1.maxEntries), b2, Decimal(o2.maxEntries));
      LastColonSplits(a1, Decimal(o1.ttlMs), a2, Decimal(o2.ttlMs));
      LastColonSplits(o1.partition, BackendName(o1.backend), o2.partition, BackendName(o2.backend));
      DecimalInjective(o1.maxEntries, o2.maxEntries);
      DecimalInjective(o1.ttlMs, o2.ttlMs);
      assert BackendName(o1.backend)[0] == BackendName(o2.backend)[0];
    }
  }

  // ----- histories of cached steps -----

  /** One cached step: the request, when it was made, and what the provider would have answered. */
  datatype Call<R> = Call(req: StepRequest<R>, opts: PromptCacheOptions, t: Timing, reply: Reply)

  predicate UsesL2<R>(c: Call<R>) {
    CacheInUse(c.opts) && c.opts.enableL2
  }

  ghost function RegistryAfter<R>(h: Hasher, calls: seq<Call<R>>): Registry {
    if calls == [] then map[]
    else
      var c := calls[|calls| - 1];
      CachedStep(RegistryAfter(h, calls[..|calls| - 1]), h, c.req, c.opts, c.t, c.reply).0
  }

  /** What the `i`-th cached step returns. */
  ghost function AnswerAt<R>(h: Hasher, calls: seq<Call<R>>, i: nat): Reply
    requires i < |calls|
  {
    var c := calls[i];
    CachedStep(RegistryAfter(h, calls[..i]), h, c.req, c.opts, c.t, c.reply).1
  }

  /** This call put this entry under this key into this partition. */
  ghost predicate Stored<R>(h: Hasher, c: Call<R>, partition: string, key: string, e: MemoryEntry<ProviderStep>) {
    && UsesL2(c) && PartitionKey(c.opts) == partition && L2Key(h, c.req, c.opts) == key
    && c.reply == Replied(e.value) && !e.value.StepError?
    && e.expiresAt == c.t.answered + AtLeastOne(c.opts.ttlMs)
  }

  ghost predicate Sourced<R>(h: Hasher, calls: seq<Call<R>>, partition: string, p: Partition) {
    && (forall o: PromptCacheOptions :: PartitionKey(o) == partition ==>
          p.ttl == AtLeastOne(o.ttlMs) && p.maxEntries == AtLeastOne(o.maxEntries))
    && (forall key :: key in p.l2.entries ==>
          exists j :: 0 <= j < |calls| && Stored(h, calls[j], partition, key, p.l2.entries[key]))
  }

  lemma {:induction false} EvictOnlyRemoves<V>(c: Cache<V>, maxEntries: nat)
    ensures forall k ::
              k in Evict(c, maxEntries).0.entries ==>
                k in c.entries && Evict(c, maxEntries).0.entries[k] == c.entries[k]
    decreases |c.lru|
  {
    if |c.entries| > maxEntries && c.lru != [] {
      EvictOnlyRemoves(Cache(c.entries - {c.lru[0]}, c.lru[1..]), maxEntries);
    }
  }

  /** A lookup adds nothing. */
  lemma LookupOnlyRemoves<V>(c: Cache<V>, key: string, now: int, k: string)
    ensures var c1 := CacheStore.Lookup(c, key, now).0;
            k in c1.entries ==> k in c.entries && c1.entries[k] == c.entries[k]
  {
  }

  /** An insertion adds its own entry at most. */
  lemma InsertionAddsOne<V>(c: Cache<V>, key: string, value: V, now: int, ttl: nat, maxEntries: nat, k: string)
    ensures var c1 := Insertion(c, key, value, now, ttl, maxEntries).0;
            k in c1.entries ==>
              if k == key then c1.entries[k] == MemoryEntry(value, now + ttl)
              else k in c.entries && c1.entries[k] == c.entries[k]
  {
    EvictOnlyRemoves(Filled(c, key, value, now + ttl), maxEntries);
  }

  /** The second level after a visit holds what it held before, and at most the reply of this call besides. */
  lemma VisitL2Entries<R>(p: Partition, h: Hasher, c: Call<R>, k: string)
    requires p.ttl == AtLeastOne(c.opts.ttlMs) && UsesL2(c)
    ensures var comp := BuildKeyComponents(h, c.req, c.opts);
            var p1 := VisitL2(p, h, comp, c.t, c.reply).0;
            && p1.ttl == p.ttl && p1.maxEntries == p.maxEntries
            && (k in p1.l2.entries ==>
                  || (k in p.l2.entries && p1.l2.entries[k] == p.l2.entries[k])
                  || Stored(h, c, PartitionKey(c.opts), k, p1.l2.entries[k]))
  {
    var key := L2Key(h, c.req, c.opts);
    var l2 := CacheStore.Lookup(p.l2, key, c.t.asked).0;
    LookupOnlyRemoves(p.l2, key, c.t.asked, k);
    if c.reply.Replied? {
      InsertionAddsOne(l2, key, c.reply.step, c.t.answered, p.ttl, p.maxEntries, k);
    }
  }

  lemma SourcedLater<R>(h: Hasher, calls: seq<Call<R>>, c: Call<R>, partition: string, p: Partition)
    requires Sourced(h, calls, partition, p)
    ensures Sourced(h, calls + [c], partition, p)
  {
    forall key | key in p.l2.entries
      ensures exists j :: 0 <= j < |calls + [c]| && Stored(h, (calls + [c])[j], partition, key, p.l2.entries[key])
    {
      var j :| 0 <= j < |calls| && Stored(h, calls[j], partition, key, p.l2.entries[key]);
      assert (calls + [c])[j] == calls[j];
    }
  }

  lemma PartitionForSourced<R>(h: Hasher, calls: seq<Call<R>>, reg: Registry, opts: PromptCacheOptions)
    requires forall k :: k in reg ==> Sourced(h, calls, k, reg[k])
    ensures Sourced(h, calls, PartitionKey(opts), PartitionFor(reg, opts))
  {
    if PartitionKey(opts) !in reg {
      forall o: PromptCacheOptions | PartitionKey(o) == PartitionKey(opts)
        ensures o.ttlMs == opts.ttlMs && o.maxEntries == opts.maxEntries
      {
        PartitionKeyInjective(o, opts);
      }
    }
  }

  lemma VisitSourced<R>(h: Hasher, calls: seq<Call<R>>, p: Partition, c: Call<R>)
    requires Sourced(h, calls, PartitionKey(c.opts), p) && CacheInUse(c.opts)
    ensures Sourced(h, calls + [c], PartitionKey(c.opts),
                    Visit(p, h, BuildKeyComponents(h, c.req, c.opts), c.opts.enableL2, c.t, c.reply).0)
  {
    var comp := BuildKeyComponents(h, c.req, c.opts);
    var p1 := VisitL1(p, h, comp, c.t.asked).0;
    SourcedLater(h, calls, c, PartitionKey(c.opts), p1);
    if c.opts.enableL2 {
      var p2 := VisitL2(p1, h, comp, c.t, c.reply).0;
      VisitL2Entries(p1, h, c, "");
      forall key | key in p2.l2.entries
        ensures exists j ::
                  0 <= j < |calls + [c]| && Stored(h, (calls + [c])[j], PartitionKey(c.opts), key, p2.l2.entries[key])
      {
        VisitL2Entries(p1, h, c, key);
        if Stored(h, c, PartitionKey(c.opts), key, p2.l2.entries[key]) {
          assert (calls + [c])[|calls|] == c;
        }
      }
    }
  }

  /**
   * Every resident second-level entry is the non-error reply of an
   * earlier call with the same key in the same partition.
   */
  lemma {:induction false} EntriesAreSourced<R>(h: Hasher, calls: seq<Call<R>>)
    ensures forall k :: k in RegistryAfter(h, calls) ==> Sourced(h, calls, k, RegistryAfter(h, calls)[k])
  {
    if calls != [] {
      var n := |calls| - 1;
      var before, c := calls[..n], calls[n];
      EntriesAreSourced(h, before);
      var reg := RegistryAfter(h, before);
      assert calls == before + [c];
      forall k | k in reg ensures Sourced(h, calls, k, reg[k]) {
        SourcedLater(h, before, c, k, reg[k]);
      }
      if CacheInUse(c.opts) {
        PartitionForSourced(h, before, reg, c.opts);
        VisitSourced(h, before, PartitionFor(reg, c.opts), c);
      }
    }
  }

  /** The `i`-th answer replays the `j`-th reply: same partition, same request, a proper step, still alive. */
  ghost predicate Replays<R>(h: Hasher, calls: seq<Call<R>>, i: nat, j: nat)
    requires i < |calls| && j < |calls|
  {
    var a, b := calls[i], calls[j];
    && j < i && UsesL2(a) && UsesL2(b)
    && a.opts.partition == b.opts.partition && a.opts.ttlMs == b.opts.ttlMs && a.opts.maxEntries == b.opts.maxEntries
    && SameRequest(a.req, a.opts, b.req, b.opts)
    && b.reply.Replied? && !b.reply.step.StepError?
    && a.t.asked < b.t.answered + AtLeastOne(b.opts.ttlMs)
    && AnswerAt(h, calls, i) == b.reply
  }

  /** A visit that does not return the provider's reply returns a live entry of the second level. */
  lemma VisitReplays<R>(p: Partition, h: Hasher, c: Call<R>)
    requires var comp := BuildKeyComponents(h, c.req, c.opts);
             Visit(p, h, comp, c.opts.enableL2, c.t, c.reply).1 != c.reply
    ensures var key := L2Key(h, c.req, c.opts);
            && c.opts.enableL2 && key in p.l2.entries
            && Visit(p, h, BuildKeyComponents(h, c.req, c.opts), c.opts.enableL2, c.t, c.reply).1
               == Replied(p.l2.entries[key].value)
            && c.t.asked < p.l2.entries[key].expiresAt
  {
    var comp := BuildKeyComponents(h, c.req, c.opts);
    assert VisitL1(p, h, comp, c.t.asked).0.l2 == p.l2;
  }

  /** An entry found under the key of a later call comes from a call of the same partition with the same request. */
  lemma StoredMeansSameRequest<R>(h: Hasher, a: Call<R>, b: Call<R>, e: MemoryEntry<ProviderStep>)
    requires Injective(h) && Stored(h, b, PartitionKey(a.opts), L2Key(h, a.req, a.opts), e)
    ensures a.opts.partition == b.opts.partition && a.opts.ttlMs == b.opts.ttlMs
            && a.opts.maxEntries == b.opts.maxEntries
    ensures SameRequest(a.req, a.opts, b.req, b.opts)
  {
    PartitionKeyInjective(a.opts, b.opts);
    KeysDecideRequests(h, a.req, a.opts, b.req, b.opts);
  }

  /** The live entry an answer replays, and the earlier call that stored it. */
  lemma AnswerComesFromEntry<R>(h: Hasher, calls: seq<Call<R>>, i: nat) returns (j: nat, e: MemoryEntry<ProviderStep>)
    requires i < |calls| && AnswerAt(h, calls, i) != calls[i].reply
    ensures UsesL2(calls[i]) && AnswerAt(h, calls, i) == Replied(e.value) && calls[i].t.asked < e.expiresAt
    ensures j < i && Stored(h, calls[j], PartitionKey(calls[i].opts), L2Key(h, calls[i].req, calls[i].opts), e)
  {
    var a, before := calls[i], calls[..i];
    var reg := RegistryAfter(h, before);
    var p, key := PartitionFor(reg, a.opts), L2Key(h, a.req, a.opts);
    EntriesAreSourced(h, before);
    PartitionForSourced(h, before, reg, a.opts);
    VisitReplays(p, h, a);
    e := p.l2.entries[key];
    j :| 0 <= j < |before| && Stored(h, before[j], PartitionKey(a.opts), key, e);
    assert before[j] == calls[j];
  }

  /**
   * Every answer is the provider's own, or the replay of an earlier reply to the same
   * request within its time to live. Errors, failures and timeouts are never replayed.
   */
  lemma AnswersAreSourced<R>(h: Hasher, calls: seq<Call<R>>, i: nat)
    requires Injective(h) && i < |calls|
    ensures AnswerAt(h, calls, i) == calls[i].reply || exists j: nat :: j < |calls| && Replays(h, calls, i, j)
  {
    if AnswerAt(h, calls, i) != calls[i].reply {
      var j, e := AnswerComesFromEntry(h, calls, i);
      StoredMeansSameRequest(h, calls[i], calls[j], e);
      assert Replays(h, calls, i, j);
    }
  }

  /** The provider's reply is determined by the request. */
  ghost predicate DeterminedByRequest<R>(calls: seq<Call<R>>) {
    forall i: nat, j: nat ::
      i < |calls| && j < |calls| && SameRequest(calls[i].req, calls[i].opts, calls[j].req, calls[j].opts)
      ==> calls[i].reply == calls[j].reply
  }

  /** Transparency: with such a provider any sequence of cached steps returns what uncached steps would. */
  lemma CachingIsTransparent<R>(h: Hasher, calls: seq<Call<R>>, i: nat)
    requires Injective(h) && DeterminedByRequest(calls) && i < |calls|
    ensures AnswerAt(h, calls, i) == calls[i].reply
  {
    AnswersAreSourced(h, calls, i);
  }

  // ----- what is stored is replayed -----

  /** The second level of a call was looked up and held nothing. */
  ghost predicate MissedAt<R>(h: Hasher, calls: seq<Call<R>>, i: nat)
    requires i < |calls|
  {
    var c := calls[i];
    var events := CachedStep(RegistryAfter(h, calls[..i]), h, c.req, c.opts, c.t, c.reply).2;
    |events| == 2 && events[1].level == L2 && !events[1].hit
  }

  /** Neither level ever holds more than it may, and its queue lists its keys. */
  ghost predicate Bounded(p: Partition) {
    p.maxEntries >= 1 && Consistent(p.l2, p.maxEntries)
  }

  lemma VisitBounded(p: Partition, h: Hasher, c: CacheKeyComponents, enableL2: bool, t: Timing, reply: Reply)
    requires Bounded(p)
    ensures Bounded(Visit(p, h, c, enableL2, t, reply).0)
  {
    var p1 := VisitL1(p, h, c, t.asked).0;
    var key := L2KeyHash(h, c, L1KeyHash(h, c));
    LookupConsistent(p1.l2, key, t.asked, p1.maxEntries);
    if reply.Replied? {
      InsertionConsistent(CacheStore.Lookup(p1.l2, key, t.asked).0, key, reply.step, t.answered, p1.ttl, p1.maxEntries);
    }
  }

  lemma {:induction false} RegistryBounded<R>(h: Hasher, calls: seq<Call<R>>)
    ensures forall k :: k in RegistryAfter(h, calls) ==> Bounded(RegistryAfter(h, calls)[k])
  {
    if calls != [] {
      var n := |calls| - 1;
      var c := calls[n];
      RegistryBounded(h, calls[..n]);
      if CacheInUse(c.opts) {
        var p := PartitionFor(RegistryAfter(h, calls[..n]), c.opts);
        VisitBounded(p, h, BuildKeyComponents(h, c.req, c.opts), c.opts.enableL2, c.t, c.reply);
      }
    }
  }

  /** The newest entry outlives an eviction. */
  lemma NewestStays<V>(c: Cache<V>, key: string, value: V, now: int, ttl: nat, maxEntries: nat)
    requires maxEntries >= 1 && Consistent(c, maxEntries)
    ensures var c1 := Insertion(c, key, value, now, ttl, maxEntries).0;
            key in c1.entries && c1.entries[key] == MemoryEntry(value, now + ttl)
  {
    var full := Filled(c, key, value, now + ttl);
    FilledConsistent(c, key, value, now + ttl, maxEntries);
    EvictAtMostOne(full, maxEntries);
    assert full.lru[|full.lru| - 1] == key;
    assert |full.entries| > maxEntries ==> full.lru[0] != key;
  }

  /** The second level of one visit: a live entry answers, and only without one the provider does. */
  lemma VisitAnswers(p: Partition, h: Hasher, c: CacheKeyComponents, t: Timing, reply: Reply)
    ensures var key := L2KeyHash(h, c, L1KeyHash(h, c));
            var visit := Visit(p, h, c, true, t, reply);
            && |visit.2| == 2 && visit.2[1].level == L2
            && visit.2[1].hit == (key in p.l2.entries && t.asked < p.l2.entries[key].expiresAt)
            && visit.1 == if visit.2[1].hit then Replied(p.l2.entries[key].value) else reply
  {
  }

  /** A live entry of the second level is what the next call with its key gets. */
  lemma LiveEntryIsReplayed<R>(h: Hasher, calls: seq<Call<R>>, i: nat)
    requires i < |calls| && UsesL2(calls[i])
    ensures var l2 := PartitionFor(RegistryAfter(h, calls[..i]), calls[i].opts).l2;
            var key := L2Key(h, calls[i].req, calls[i].opts);
            && MissedAt(h, calls, i) == !(key in l2.entries && calls[i].t.asked < l2.entries[key].expiresAt)
            && AnswerAt(h, calls, i)
               == if MissedAt(h, calls, i) then calls[i].reply else Replied(l2.entries[key].value)
  {
    var c := calls[i];
    VisitAnswers(PartitionFor(RegistryAfter(h, calls[..i]), c.opts), h, BuildKeyComponents(h, c.req, c.opts), c.t,
                 c.reply);
  }

  /**
   * A reply that a call got from the provider and that is no error is replayed
   * to the next call with the same request in its partition, within its time to live.
   */
  lemma RepeatIsReplayed<R>(h: Hasher, calls: seq<Call<R>>, i: nat)
    requires Injective(h) && i + 1 < |calls| && UsesL2(calls[i]) && UsesL2(calls[i + 1])
    requires MissedAt(h, calls, i) && calls[i].reply.Replied? && !calls[i].reply.step.StepError?
    requires var a, b := calls[i], calls[i + 1];
             && PartitionKey(a.opts) == PartitionKey(b.opts) && SameRequest(a.req, a.opts, b.req, b.opts)
             && b.t.asked < a.t.answered + AtLeastOne(a.opts.ttlMs)
    ensures AnswerAt(h, calls, i + 1) == calls[i].reply
  {
    var a, b := calls[i], calls[i + 1];
    KeysDecideRequests(h, a.req, a.opts, b.req, b.opts);
    StoredByMiss(h, calls, i, b.opts);
    LiveEntryIsReplayed(h, calls, i + 1);
  }

  /** What a call stored on a miss is what any call of its partition finds next. */
  lemma StoredByMiss<R>(h: Hasher, calls: seq<Call<R>>, i: nat, opts: PromptCacheOptions)
    requires i < |calls| && UsesL2(calls[i]) && MissedAt(h, calls, i)
    requires calls[i].reply.Replied? && !calls[i].reply.step.StepError?
    requires PartitionKey(opts) == PartitionKey(calls[i].opts)
    ensures var l2 := PartitionFor(RegistryAfter(h, calls[..i + 1]), opts).l2;
            var a := calls[i];
            var key := L2Key(h, a.req, a.opts);
            key in l2.entries
            && l2.entries[key] == MemoryEntry(a.reply.step, a.t.answered + AtLeastOne(a.opts.ttlMs))
  {
    var before, a := calls[..i], calls[i];
    var reg := RegistryAfter(h, before);
    assert calls[..i + 1][..i] == before && calls[..i + 1][i] == a;
    RegistryBounded(h, before);
    EntriesAreSourced(h, before);
    PartitionForSourced(h, before, reg, a.opts);
    VisitStores(PartitionFor(reg, a.opts), h, BuildKeyComponents(h, a.req, a.opts), a.t, a.reply);
  }

  lemma VisitStores(p: Partition, h: Hasher, c: CacheKeyComponents, t: Timing, reply: Reply)
    requires Bounded(p) && reply.Replied? && !reply.step.StepError?
    requires var visit := Visit(p, h, c, true, t, reply); |visit.2| == 2 && !visit.2[1].hit
    ensures var l2 := Visit(p, h, c, true, t, reply).0.l2;
            var key := L2KeyHash(h, c, L1KeyHash(h, c));
            key in l2.entries && l2.entries[key] == MemoryEntry(reply.step, t.answered + p.ttl)
  {
    var key := L2KeyHash(h, c, L1KeyHash(h, c));
    LookupConsistent(p.l2, key, t.asked, p.maxEntries);
    NewestStays(CacheStore.Lookup(p.l2, key, t.asked).0, key, reply.step, t.answered, p.ttl, p.maxEntries);
  }
}
