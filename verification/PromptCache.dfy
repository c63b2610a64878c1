/** The two-level prompt cache around the provider: keys, partitions and one cached step. */
module PromptCache {
  import opened Wrappers
  import opened Json
  import opened Text
  import opened Types
  import opened RunnerSpec
  import opened CacheStore
  import opened StableHash

  // ----- requests and keys -----

  datatype Backend = Memory | Disk | Remote

  datatype PromptCacheOptions = PromptCacheOptions(
    enabled: bool,
    backend: Backend,
    enableL2: bool,
    ttlMs: nat,
    maxEntries: nat,
    providerId: string,
    partition: string)

  /** A provider request. `rest` is everything the key does not look at: agent state and last tool results. */
  datatype StepRequest<R> = StepRequest(
    messages: seq<Message>,
    toolSpecs: Value,
    skills: Value,
    summarizationEvent: Option<Value>,
    rest: R)

  /** JSON encoding of messages, and the digest of a canonical value. */
  datatype Hasher = Hasher(encode: seq<Message> -> Value, digest: Value -> string)

  datatype CacheKeyComponents = CacheKeyComponents(
    l0Hash: string,
    systemHash: string,
    toolsHash: string,
    messagesHash: string,
    summarizationEventHash: Option<string>)

  function WithRole(messages: seq<Message>, system: bool): seq<Message> {
    if messages == [] then []
    else (if (messages[0].role == "system") == system then [messages[0]] else []) + WithRole(messages[1..], system)
  }

  function StableJsonHash(h: Hasher, v: Value): string {
    h.digest(Canonical(v))
  }

  function ProviderView(opts: PromptCacheOptions): Value {
    Obj([Field("provider_id", Str(opts.providerId))])
  }

  function ToolsView<R>(req: StepRequest<R>): Value {
    Obj([Field("skills", req.skills), Field("tool_specs", req.toolSpecs)])
  }

  function EventView<R>(req: StepRequest<R>): Option<Value> {
    if req.summarizationEvent.Some? && !req.summarizationEvent.value.Null? then req.summarizationEvent else None
  }

  function BuildKeyComponents<R>(h: Hasher, req: StepRequest<R>, opts: PromptCacheOptions): CacheKeyComponents {
    var event := EventView(req);
    CacheKeyComponents(
      StableJsonHash(h, ProviderView(opts)),
      StableJsonHash(h, h.encode(WithRole(req.messages, true))),
      StableJsonHash(h, ToolsView(req)),
      StableJsonHash(h, h.encode(WithRole(req.messages, false))),
      if event.Some? then Some(StableJsonHash(h, event.value)) else None)
  }

  function L1Object(c: CacheKeyComponents): Value {
    Obj([Field("l0_hash", Str(c.l0Hash)), Field("system_hash", Str(c.systemHash)),
         Field("tools_hash", Str(c.toolsHash))])
  }

  function L1KeyHash(h: Hasher, c: CacheKeyComponents): string {
    StableJsonHash(h, L1Object(c))
  }

  function L2Object(c: CacheKeyComponents, l1Hash: string): Value {
    Obj([Field("l1_hash", Str(l1Hash)), Field("messages_hash", Str(c.messagesHash)),
         Field("summarization_event_hash", if c.summarizationEventHash.Some? then Str(c.summarizationEventHash.value)
               else Null)])
  }

  function L2KeyHash(h: Hasher, c: CacheKeyComponents, l1Hash: string): string {
    StableJsonHash(h, L2Object(c, l1Hash))
  }

  function L2Key<R>(h: Hasher, req: StepRequest<R>, opts: PromptCacheOptions): string {
    var c := BuildKeyComponents(h, req, opts);
    L2KeyHash(h, c, L1KeyHash(h, c))
  }

  function BackendName(b: Backend): string {
    match b
    case Memory => "memory"
    case Disk => "disk"
    case Remote => "remote"
  }

  function PartitionKey(opts: PromptCacheOptions): string {
    opts.partition + ":" + BackendName(opts.backend) + ":" + Decimal(opts.ttlMs) + ":" + Decimal(opts.maxEntries)
  }

  // ----- one cached step, on values -----

  datatype Partition = Partition(l1: Cache<()>, l2: Cache<ProviderStep>, ttl: nat, maxEntries: nat)

  type Registry = map<string, Partition>

  function AtLeastOne(n: nat): nat {
    if n >= 1 then n else 1
  }

  /** The partition for these options; a new one is empty and takes its limits from them. */
  function PartitionFor(reg: Registry, opts: PromptCacheOptions): Partition {
    var key := PartitionKey(opts);
    if key in reg then reg[key]
    else Partition(Cache(map[], []), Cache(map[], []), AtLeastOne(opts.ttlMs), AtLeastOne(opts.maxEntries))
  }

  datatype CacheLevel = L1 | L2

  datatype CacheEvent = CacheEvent(
    level: CacheLevel,
    hit: bool,
    key: string,
    components: CacheKeyComponents,
    inserted: Option<bool>,
    evicted: Option<nat>,
    expired: Option<bool>)

  datatype Timing = Timing(asked: int, answered: int)

  function Positive(n: nat): Option<nat> {
    if n > 0 then Some(n) else None
  }

  function Flag(b: bool): Option<bool> {
    if b then Some(true) else None
  }

  /** The first level only counts: it is looked up and, on a miss, filled. */
  function VisitL1(p: Partition, h: Hasher, c: CacheKeyComponents, now: int): (Partition, CacheEvent) {
    var key := L1KeyHash(h, c);
    var (l1, found) := CacheStore.Lookup(p.l1, key, now);
    if found.value.Some? then (p.(l1 := l1), CacheEvent(L1, true, key, c, None, None, Flag(found.expired)))
    else
      var (l1', ins) := Insertion(l1, key, (), now, p.ttl, p.maxEntries);
      (p.(l1 := l1'), CacheEvent(L1, false, key, c, Some(ins.inserted), Positive(ins.evicted), Flag(found.expired)))
  }

  /**
   * The second level replays a stored step; otherwise the provider's
   * reply is returned and, unless it is an error, stored.
   */
  function VisitL2(p: Partition, h: Hasher, c: CacheKeyComponents, t: Timing, reply: Reply):
    (Partition, Reply, CacheEvent)
  {
    var key := L2KeyHash(h, c, L1KeyHash(h, c));
    var (l2, found) := CacheStore.Lookup(p.l2, key, t.asked);
    if found.value.Some? then
      (p.(l2 := l2), Replied(found.value.value), CacheEvent(L2, true, key, c, None, None, Flag(found.expired)))
    else if reply.Replied? && !reply.step.StepError? then
      var (l2', ins) := Insertion(l2, key, reply.step, t.answered, p.ttl, p.maxEntries);
      (p.(l2 := l2'), reply, CacheEvent(L2, false, key, c, Some(ins.inserted), Positive(ins.evicted),
                                        Flag(found.expired)))
    else
      (p.(l2 := l2), reply, CacheEvent(L2, false, key, c, Some(false), None, Flag(found.expired)))
  }

  predicate CacheInUse(opts: PromptCacheOptions) {
    opts.enabled && opts.backend == Memory
  }

  /** Both levels of one partition. */
  function Visit(p: Partition, h: Hasher, c: CacheKeyComponents, enableL2: bool, t: Timing, reply: Reply):
    (Partition, Reply, seq<CacheEvent>)
  {
    var (p1, e1) := VisitL1(p, h, c, t.asked);
    if !enableL2 then (p1, reply, [e1])
    else
      var (p2, answer, e2) := VisitL2(p1, h, c, t, reply);
      (p2, answer, [e1, e2])
  }

  /** `reply` is what the provider answers if it is asked. */
  function CachedStep<R>(reg: Registry, h: Hasher, req: StepRequest<R>, opts: PromptCacheOptions, t: Timing,
                         reply: Reply):
    (Registry, Reply, seq<CacheEvent>)
  {
    if !CacheInUse(opts) then (reg, reply, [])
    else
      var (p, answer, events) :=
        Visit(PartitionFor(reg, opts), h, BuildKeyComponents(h, req, opts), opts.enableL2, t, reply);
      (reg[PartitionKey(opts) := p], answer, events)
  }

  // ----- the registry and its stores as objects -----

  class PartitionedPromptCache {
    const l1: MemoryCacheStore<()>
    const l2: MemoryCacheStore<ProviderStep>

    ghost function View(): Partition
      reads l1, l2
    {
      Partition(l1.View(), l2.View(), l1.ttl, l1.maxEntries)
    }

    ghost predicate Valid()
      reads l1, l2
    {
      && l1.Valid() && l2.Valid()
      && l1.ttl == l2.ttl && l1.maxEntries == l2.maxEntries
    }

    constructor (ttl: nat, maxEntries: nat)
      ensures Valid() && fresh(l1) && fresh(l2)
      ensures View() == Partition(Cache(map[], []), Cache(map[], []), ttl, AtLeastOne(maxEntries))
    {
      l1 := new MemoryCacheStore<()>(ttl, maxEntries);
      l2 := new MemoryCacheStore<ProviderStep>(ttl, maxEntries);
    }

    method Count(h: Hasher, c: CacheKeyComponents, now: int) returns (event: CacheEvent)
      requires Valid()
      modifies l1
      ensures Valid() && (View(), event) == VisitL1(old(View()), h, c, now)
    {
      var key := L1KeyHash(h, c);
      var found := l1.Get(key, now);
      var inserted: Option<bool>, evicted: Option<nat> := None, None;
      if found.value.None? {
        var ins := l1.Insert(key, (), now);
        inserted := Some(ins.inserted);
        if ins.evicted > 0 {
          evicted := Some(ins.evicted);
        }
      }
      event := CacheEvent(L1, found.value.Some?, key, c, inserted, evicted, if found.expired then Some(true) else None);
    }

    method Replay(h: Hasher, c: CacheKeyComponents, t: Timing, reply: Reply)
      returns (answer: Reply, event: CacheEvent)
      requires Valid()
      modifies l2
      ensures Valid() && (View(), answer, event) == VisitL2(old(View()), h, c, t, reply)
    {
      var key := L2KeyHash(h, c, L1KeyHash(h, c));
      var found := l2.Get(key, t.asked);
      var expired := if found.expired then Some(true) else None;
      if found.value.Some? {
        event := CacheEvent(L2, true, key, c, None, None, expired);
        return Replied(found.value.value), event;
      }
      answer := reply;
      var inserted, evicted: Option<nat> := Some(false), None;
      if reply.Replied? && !reply.step.StepError? {
        var ins := l2.Insert(key, reply.step, t.answered);
        inserted := Some(ins.inserted);
        if ins.evicted > 0 {
          evicted := Some(ins.evicted);
        }
      }
      event := CacheEvent(L2, false, key, c, inserted, evicted, expired);
    }

    /** Both levels of one step. */
    method Use(h: Hasher, c: CacheKeyComponents, enableL2: bool, t: Timing, reply: Reply)
      returns (answer: Reply, events: seq<CacheEvent>)
      requires Valid()
      modifies l1, l2
      ensures Valid() && (View(), answer, events) == Visit(old(View()), h, c, enableL2, t, reply)
    {
      var e1 := Count(h, c, t.asked);
      if !enableL2 {
        return reply, [e1];
      }
      var e2;
      answer, e2 := Replay(h, c, t, reply);
      events := [e1, e2];
    }
  }

  /** The registry: partitions are created on first use and keep the limits they were created with. */
  class PromptCacheRegistry {
    var partitions: Registry

    constructor ()
      ensures partitions == map[]
    {
      partitions := map[];
    }

    method GetPartition(opts: PromptCacheOptions) returns (p: Partition)
      modifies this
      ensures p == PartitionFor(old(partitions), opts)
      ensures partitions == old(partitions)[PartitionKey(opts) := p]
    {
      var key := PartitionKey(opts);
      if key in partitions {
        p := partitions[key];
        assert partitions == partitions[key := p];
        return;
      }
      p := Partition(Cache(map[], []), Cache(map[], []), AtLeastOne(opts.ttlMs), AtLeastOne(opts.maxEntries));
      partitions := partitions[key := p];
    }

    method Step<R>(h: Hasher, req: StepRequest<R>, opts: PromptCacheOptions, t: Timing, reply: Reply)
      returns (answer: Reply, events: seq<CacheEvent>)
      modifies this
      ensures (partitions, answer, events) == CachedStep(old(partitions), h, req, opts, t, reply)
    {
      if !opts.enabled || opts.backend != Memory {
        return reply, [];
      }
      var components := BuildKeyComponents(h, req, opts);
      var p := GetPartition(opts);
      var (used, answer', events') := Visit(p, h, components, opts.enableL2, t, reply);
      answer, events := answer', events';
      partitions := partitions[PartitionKey(opts) := used];
      assert partitions == old(partitions)[PartitionKey(opts) := used];
    }
  }
}
