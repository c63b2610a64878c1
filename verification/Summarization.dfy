/** Windowing: which part of the history the provider sees, and what is archived. */
module Summarization {
  import opened Wrappers
  import opened Json
  import opened Types

  // ----- options and state -----

  datatype PolicyKind = Budget | Turns | Importance

  /** `minCompactChars` is the eligibility threshold of `compact_conversation`. */
  datatype Options = Options(
    enabled: bool,
    policy: PolicyKind,
    maxCharBudget: nat,
    maxTurnsVisible: nat,
    minRecentMessages: nat,
    redactToolArgs: bool,
    maxToolArgChars: nat,
    keepLast: nat,
    truncationText: string,
    minCompactChars: nat,
    maxSummaryChars: nat)

  datatype SummarizationEvent = SummarizationEvent(cutoffIndex: nat, summaryMessage: Message, filePath: Option<string>)

  /** What was handed to the history store in one compaction. */
  datatype Section = Section(lo: nat, hi: nat, kept: seq<Message>)

  /** The entries of the agent state that belong to summarization, and the archive so far. */
  datatype SumState = SumState(
    event: Option<SummarizationEvent>,
    events: seq<SummarizationEvent>,
    force: bool,
    threadId: Option<string>,
    archive: seq<Section>)

  /** Text functions and the history store. */
  datatype Host = Host(
    callsText: seq<ToolCall> -> Option<string>,
    summaryText: seq<Message> -> string,
    newThreadId: string,
    persist: (string, seq<Message>) -> Result<Option<string>, string>)

  const SUMMARY_NAME := "summarization"
  const SUMMARY_MARKER := "SUMMARY_MESSAGE_V1"
  const SUMMARY_TRUNCATED := "...(summary truncated)..."

  // ----- sizes -----

  function MessageChars(host: Host, m: Message): nat {
    |m.content| + if m.toolCalls.Some? then |host.callsText(m.toolCalls.value).GetOr("")| else 0
  }

  function TotalChars(host: Host, messages: seq<Message>): nat {
    if messages == [] then 0 else MessageChars(host, messages[0]) + TotalChars(host, messages[1..])
  }

  /** The characters of the texts. */
  function TextLength(messages: seq<Message>): nat {
    if messages == [] then 0 else |messages[0].content| + TextLength(messages[1..])
  }

  /** The characters of the tool calls as the host prints them. */
  function CallsLength(host: Host, messages: seq<Message>): nat {
    if messages == [] then 0
    else
      var calls := messages[0].toolCalls;
      var printed := if calls.Some? then host.callsText(calls.value) else None;
      (if printed.Some? then |printed.value| else 0) + CallsLength(host, messages[1..])
  }

  /** How large a history is: all its texts and all its printed calls. */
  function Measure(host: Host, messages: seq<Message>): nat {
    TextLength(messages) + CallsLength(host, messages)
  }

  /** What the runtime adds up is the measure. */
  lemma {:induction false} TotalIsMeasure(host: Host, messages: seq<Message>)
    ensures TotalChars(host, messages) == Measure(host, messages)
  {
    if messages != [] {
      TotalIsMeasure(host, messages[1..]);
    }
  }

  /** `iter().skip(n)` */
  function Skip<T>(xs: seq<T>, n: nat): seq<T> {
    if n <= |xs| then xs[n..] else []
  }

  // ----- truncation of old tool arguments -----

  function TruncateChars(s: string, maxChars: nat, text: string): string {
    if |s| <= maxChars then s
    else s[..maxChars / 2] + text + s[|s| - (maxChars - maxChars / 2)..]
  }

  lemma TruncatedLength(s: string, maxChars: nat, text: string)
    ensures |TruncateChars(s, maxChars, text)| == if |s| <= maxChars then |s| else maxChars + |text|
    ensures |TruncateChars(s, maxChars, text)| <= maxChars + |text|
  {
  }

  function TruncateValue(v: Value, maxChars: nat, text: string): Value {
    match v
    case Str(s) => Str(TruncateChars(s, maxChars, text))
    case Arr(items) => Arr(TruncateItems(items, maxChars, text))
    case Obj(fields) => Obj(TruncateFields(fields, maxChars, text))
    case _ => v
  }

  function TruncateItems(items: seq<Value>, maxChars: nat, text: string): seq<Value> {
    if items == [] then [] else [TruncateValue(items[0], maxChars, text)] + TruncateItems(items[1..], maxChars, text)
  }

  function TruncateFields(fields: seq<Field>, maxChars: nat, text: string): seq<Field> {
    if fields == [] then []
    else
      [Field(fields[0].key, TruncateValue(fields[0].value, maxChars, text))]
      + TruncateFields(fields[1..], maxChars, text)
  }

  predicate ShouldTruncateTool(name: string) {
    name == "write_file" || name == "edit_file" || name == "execute"
  }

  function TruncateCall(c: ToolCall, opts: Options): ToolCall {
    if ShouldTruncateTool(c.name) then
      c.(arguments := TruncateValue(c.arguments, opts.maxToolArgChars, opts.truncationText))
    else c
  }

  function TruncateCalls(calls: seq<ToolCall>, opts: Options): (out: seq<ToolCall>)
    ensures |out| == |calls| && forall i :: 0 <= i < |calls| ==> out[i] == TruncateCall(calls[i], opts)
  {
    if calls == [] then [] else [TruncateCall(calls[0], opts)] + TruncateCalls(calls[1..], opts)
  }

  function TruncateMessage(m: Message, opts: Options): Message {
    if m.toolCalls.None? then m else m.(toolCalls := Some(TruncateCalls(m.toolCalls.value, opts)))
  }

  /** All but the last `keepLast` messages have the arguments of their write and execute calls shortened. */
  function Truncated(messages: seq<Message>, opts: Options): (out: seq<Message>)
    ensures |out| == |messages|
    ensures forall i :: 0 <= i < |messages| ==>
      out[i] == if i + opts.keepLast < |messages| then TruncateMessage(messages[i], opts) else messages[i]
  {
    seq(|messages|, i requires 0 <= i < |messages| =>
      if i + opts.keepLast < |messages| then TruncateMessage(messages[i], opts) else messages[i])
  }

  method TruncateToolArgs(messages: seq<Message>, opts: Options) returns (out: seq<Message>)
    ensures out == Truncated(messages, opts)
  {
    out := messages;
    var keepFrom := if opts.keepLast <= |out| then |out| - opts.keepLast else 0;
    for idx := 0 to |messages|
      invariant |out| == |messages|
      invariant forall i :: 0 <= i < |messages| ==>
        out[i] == if i < idx && i < keepFrom then TruncateMessage(messages[i], opts) else messages[i]
    {
      var msg := TruncateIfOld(out[idx], idx >= keepFrom, opts);
      out := out[idx := msg];
    }
  }

  /** The loop body: messages past `keepFrom` and messages without calls stay as they are. */
  method TruncateIfOld(msg: Message, recent: bool, opts: Options) returns (out: Message)
    ensures out == if recent then msg else TruncateMessage(msg, opts)
  {
    out := msg;
    if recent {
      return;
    }
    if msg.toolCalls.None? {
      return;
    }
    var calls := TruncateCallArgs(msg.toolCalls.value, opts);
    out := msg.(toolCalls := Some(calls));
  }

  method TruncateCallArgs(calls0: seq<ToolCall>, opts: Options) returns (calls: seq<ToolCall>)
    ensures calls == TruncateCalls(calls0, opts)
  {
    calls := calls0;
    for j := 0 to |calls|
      invariant |calls| == |calls0|
      invariant forall i :: 0 <= i < j ==> calls[i] == TruncateCall(calls0[i], opts)
      invariant forall i :: j <= i < |calls| ==> calls[i] == calls0[i]
    {
      if ShouldTruncateTool(calls[j].name) {
        var arguments := TruncateValue(calls[j].arguments, opts.maxToolArgChars, opts.truncationText);
        calls := calls[j := calls[j].(arguments := arguments)];
      }
    }
    assert calls == TruncateCalls(calls0, opts);
  }

  /** Truncation is counted from the end, so it commutes with dropping a prefix. */
  lemma TruncationCommutesWithDrop(messages: seq<Message>, opts: Options, k: nat)
    requires k <= |messages|
    ensures Truncated(messages, opts)[k..] == Truncated(messages[k..], opts)
  {
  }

  // ----- choosing a cutoff by size -----

  /** The first index at or after `j` whose suffix fits, or the recency floor. */
  function BudgetFrom(host: Host, messages: seq<Message>, maxChars: nat, keep: nat, j: nat): nat
    requires j <= |messages|
    decreases |messages| - j
  {
    if TotalChars(host, messages[j..]) <= maxChars || j + keep >= |messages| then j
    else BudgetFrom(host, messages, maxChars, keep, j + 1)
  }

  function BudgetCutoff(host: Host, messages: seq<Message>, maxChars: nat, minRecent: nat): nat {
    BudgetFrom(host, messages, maxChars, if minRecent < |messages| then minRecent else |messages|, 0)
  }

  method CutoffForBudget(host: Host, messages: seq<Message>, maxChars: nat, minRecent: nat) returns (cutoff: nat)
    ensures cutoff == BudgetCutoff(host, messages, maxChars, minRecent)
  {
    cutoff := 0;
    assert messages[0..] == messages;
    var remaining := TotalChars(host, messages);
    if remaining <= maxChars {
      return 0;
    }
    var keep := if minRecent < |messages| then minRecent else |messages|;
    while remaining > maxChars && cutoff + keep < |messages|
      invariant cutoff <= |messages|
      invariant remaining == TotalChars(host, messages[cutoff..])
      invariant BudgetFrom(host, messages, maxChars, keep, cutoff) == BudgetCutoff(host, messages, maxChars, minRecent)
      decreases |messages| - cutoff
    {
      remaining := TotalChars(host, messages[cutoff + 1..]);
      cutoff := cutoff + 1;
    }
  }

  lemma {:induction false} BudgetFromIsLeast(host: Host, messages: seq<Message>, maxChars: nat, keep: nat, j: nat,
                                             c: nat)
    requires j <= c <= |messages| && j + keep <= |messages|
    ensures BudgetFrom(host, messages, maxChars, keep, j) == c <==>
            && c + keep <= |messages|
            && (TotalChars(host, messages[c..]) <= maxChars || c + keep == |messages|)
            && forall i :: j <= i < c ==> TotalChars(host, messages[i..]) > maxChars
    decreases |messages| - j
  {
    var here := BudgetFrom(host, messages, maxChars, keep, j);
    if TotalChars(host, messages[j..]) <= maxChars || j + keep >= |messages| {
      if c > j && TotalChars(host, messages[j..]) > maxChars {
        assert j + keep == |messages|;
      }
    } else if c > j {
      BudgetFromIsLeast(host, messages, maxChars, keep, j + 1, c);
    } else {
      BudgetFromMonotone(host, messages, maxChars, keep, j + 1);
    }
  }

  lemma {:induction false} BudgetFromMonotone(host: Host, messages: seq<Message>, maxChars: nat, keep: nat, j: nat)
    requires j <= |messages|
    ensures j <= BudgetFrom(host, messages, maxChars, keep, j) <= |messages|
    decreases |messages| - j
  {
    if !(TotalChars(host, messages[j..]) <= maxChars || j + keep >= |messages|) {
      BudgetFromMonotone(host, messages, maxChars, keep, j + 1);
    }
  }

  /** Where a budget cuts a view: at the least index whose rest fits, but never past the recency floor. */
  ghost predicate CutsAt(host: Host, messages: seq<Message>, maxChars: nat, minRecent: nat, c: nat) {
    var keep := if minRecent < |messages| then minRecent else |messages|;
    && c + keep <= |messages|
    && (Measure(host, messages[c..]) <= maxChars || c + keep == |messages|)
    && forall i :: 0 <= i < c ==> Measure(host, messages[i..]) > maxChars
  }

  /** The cutoff is the least one whose suffix fits the budget, but never past the recency floor. */
  lemma BudgetCutoffIsLeast(host: Host, messages: seq<Message>, maxChars: nat, minRecent: nat, c: nat)
    requires c <= |messages|
    ensures BudgetCutoff(host, messages, maxChars, minRecent) == c <==> CutsAt(host, messages, maxChars, minRecent, c)
  {
    var keep := if minRecent < |messages| then minRecent else |messages|;
    BudgetFromIsLeast(host, messages, maxChars, keep, 0, c);
    forall i | 0 <= i <= |messages| ensures TotalChars(host, messages[i..]) == Measure(host, messages[i..]) {
      TotalIsMeasure(host, messages[i..]);
    }
  }

  // ----- choosing a cutoff by turns -----

  /** Role changes, counted forwards from a given last role. */
  function TurnsAfter(messages: seq<Message>, lastRole: string): nat {
    if messages == [] then 0
    else (if messages[0].role != lastRole then 1 else 0) + TurnsAfter(messages[1..], messages[0].role)
  }

  function TurnCount(messages: seq<Message>): nat {
    TurnsAfter(messages, "")
  }

  method CountTurns(messages: seq<Message>) returns (turns: nat)
    ensures turns == TurnCount(messages)
  {
    turns := 0;
    var lastRole := "";
    for i := 0 to |messages|
      invariant turns + TurnsAfter(messages[i..], lastRole) == TurnCount(messages)
    {
      assert messages[i..][1..] == messages[i + 1..];
      if messages[i].role != lastRole {
        turns := turns + 1;
        lastRole := messages[i].role;
      }
    }
  }

  /** Role changes met when scanning backwards from the end down to `i`. */
  function BackwardTurns(messages: seq<Message>, i: nat): nat
    requires i <= |messages|
    decreases |messages| - i
  {
    if i == |messages| then 0
    else
      (if messages[i].role != (if i + 1 == |messages| then "" else messages[i + 1].role) then 1 else 0)
      + BackwardTurns(messages, i + 1)
  }

  /** Where a backward scan that still has to look below `i` stops. */
  function ScanBack(messages: seq<Message>, maxTurns: nat, i: nat): nat
    requires 0 < i <= |messages|
    decreases i
  {
    if BackwardTurns(messages, i - 1) >= maxTurns || i == 1 then i - 1 else ScanBack(messages, maxTurns, i - 1)
  }

  function TurnCutoff(messages: seq<Message>, maxTurns: nat, minRecent: nat): nat {
    if TurnCount(messages) <= maxTurns then 0
    else
      var idx := if messages == [] then 0 else ScanBack(messages, maxTurns, |messages|);
      var floor := if minRecent <= |messages| then |messages| - minRecent else 0;
      if idx < floor then idx else floor
  }

  method CutoffForTurns(messages: seq<Message>, maxTurns: nat, minRecent: nat) returns (cutoff: nat)
    ensures cutoff == TurnCutoff(messages, maxTurns, minRecent)
  {
    var count := CountTurns(messages);
    if count <= maxTurns {
      return 0;
    }
    var turns, lastRole, idx := 0, "", |messages|;
    var i := |messages|;
    while i > 0
      invariant 0 <= i <= |messages| && idx == i
      invariant turns == BackwardTurns(messages, i)
      invariant lastRole == if i == |messages| then "" else messages[i].role
      invariant i > 0 ==> ScanBack(messages, maxTurns, i) == ScanBack(messages, maxTurns, |messages|)
      invariant i == 0 ==> 0 == ScanBack(messages, maxTurns, |messages|)
      decreases i
    {
      i := i - 1;
      if messages[i].role != lastRole {
        turns := turns + 1;
        lastRole := messages[i].role;
      }
      idx := i;
      if turns >= maxTurns {
        break;
      }
    }
    var keepFloor := if minRecent <= |messages| then |messages| - minRecent else 0;
    cutoff := if idx < keepFloor then idx else keepFloor;
  }

  /** Changes between neighbours, which both directions count. */
  ghost function Changes(messages: seq<Message>): nat {
    if |messages| <= 1 then 0
    else (if messages[0].role != messages[1].role then 1 else 0) + Changes(messages[1..])
  }

  lemma {:induction false} ForwardIsChanges(messages: seq<Message>, lastRole: string)
    requires messages != []
    ensures TurnsAfter(messages, lastRole) == (if messages[0].role != lastRole then 1 else 0) + Changes(messages)
  {
    if |messages| > 1 {
      ForwardIsChanges(messages[1..], messages[0].role);
    }
  }

  lemma {:induction false} BackwardIsChanges(messages: seq<Message>, i: nat)
    requires i < |messages|
    ensures BackwardTurns(messages, i)
            == (if messages[|messages| - 1].role != "" then 1 else 0) + Changes(messages[i..])
    decreases |messages| - i
  {
    if i + 1 < |messages| {
      BackwardIsChanges(messages, i + 1);
      assert messages[i..][1..] == messages[i + 1..];
    }
  }

  /**
   * Scanning backwards counts what `count_turns` counts, exactly
   * when both ends of the suffix are alike in having a role.
   */
  lemma BackwardEqualsForwardIff(messages: seq<Message>, i: nat)
    requires i < |messages|
    ensures BackwardTurns(messages, i) == TurnCount(messages[i..])
            <==> (messages[i].role == "" <==> messages[|messages| - 1].role == "")
  {
    BackwardIsChanges(messages, i);
    ForwardIsChanges(messages[i..], "");
  }

  lemma {:induction false} ScanBackIsLargest(messages: seq<Message>, maxTurns: nat, i: nat)
    requires 0 < i <= |messages|
    ensures var idx := ScanBack(messages, maxTurns, i);
            && idx < i
            && (BackwardTurns(messages, idx) >= maxTurns || idx == 0)
            && forall j :: idx < j < i ==> BackwardTurns(messages, j) < maxTurns
    decreases i
  {
    if !(BackwardTurns(messages, i - 1) >= maxTurns || i == 1) {
      ScanBackIsLargest(messages, maxTurns, i - 1);
    }
  }

  lemma {:induction false} LongerSuffixHasMoreTurns(messages: seq<Message>, i: nat, j: nat)
    requires i <= j <= |messages|
    ensures BackwardTurns(messages, i) >= BackwardTurns(messages, j)
    decreases j - i
  {
    if i < j {
      LongerSuffixHasMoreTurns(messages, i + 1, j);
    }
  }

  /** Scanning up to index `i` adds at most one turn. */
  lemma OneTurnAtATime(messages: seq<Message>, i: nat)
    requires i < |messages|
    ensures BackwardTurns(messages, i) <= BackwardTurns(messages, i + 1) + 1
  {
  }

  /**
   * With named roles and at least one turn allowed, a history of too many turns is cut at the
   * recency floor or at the largest index whose suffix still has `maxTurns` turns, whichever
   * comes first; the suffix from there has exactly `maxTurns` turns.
   */
  lemma TurnCutoffIsExact(messages: seq<Message>, maxTurns: nat, minRecent: nat) returns (idx: nat)
    requires maxTurns >= 1 && TurnCount(messages) > maxTurns
    requires forall m :: m in messages ==> m.role != ""
    ensures idx < |messages| && TurnCount(messages[idx..]) == maxTurns
    ensures forall j :: idx < j <= |messages| ==> TurnCount(messages[j..]) < maxTurns
    ensures var floor := if minRecent <= |messages| then |messages| - minRecent else 0;
            TurnCutoff(messages, maxTurns, minRecent) == if idx < floor then idx else floor
  {
    idx := ScanBack(messages, maxTurns, |messages|);
    ScanBackIsLargest(messages, maxTurns, |messages|);
    forall j | 0 <= j < |messages| ensures BackwardTurns(messages, j) == TurnCount(messages[j..]) {
      BackwardEqualsForwardIff(messages, j);
    }
    assert messages[0..] == messages;
    LongerSuffixHasMoreTurns(messages, 0, idx);
    OneTurnAtATime(messages, idx);
    assert idx + 1 < |messages| ==> BackwardTurns(messages, idx + 1) < maxTurns;
  }

  // ----- one compaction -----

  predicate Contains(s: string, part: string) {
    |part| <= |s| && (s[..|part|] == part || (s != [] && Contains(s[1..], part)))
  }

  predicate IsSummaryMessage(m: Message) {
    m.name == Some(SUMMARY_NAME) || Contains(m.content, SUMMARY_MARKER)
  }

  /** A history without the summaries that earlier compactions put into it. */
  function WithoutSummaries(messages: seq<Message>): seq<Message> {
    if messages == [] then []
    else (if IsSummaryMessage(messages[0]) then [] else [messages[0]]) + WithoutSummaries(messages[1..])
  }

  function BuildSummaryMessage(host: Host, messages: seq<Message>, maxChars: nat): Message {
    var content := TruncateChars(host.summaryText(messages), maxChars, SUMMARY_TRUNCATED);
    Message("user", content, None, None, None, Some(SUMMARY_NAME), None)
  }

  /** The history as the last compaction left it: its summary, then everything past its cutoff. */
  function EffectiveMessages(messages: seq<Message>, event: Option<SummarizationEvent>): seq<Message> {
    if event.Some? then [event.value.summaryMessage] + Skip(messages, event.value.cutoffIndex) else messages
  }

  function Redacted(messages: seq<Message>, opts: Options): seq<Message> {
    if opts.redactToolArgs then Truncated(messages, opts) else messages
  }

  predicate ShouldSummarize(host: Host, messages: seq<Message>, opts: Options) {
    match opts.policy
    case Turns => TurnCount(messages) > opts.maxTurnsVisible
    case _ => TotalChars(host, messages) > opts.maxCharBudget
  }

  function ComputeCutoff(host: Host, messages: seq<Message>, opts: Options): nat {
    match opts.policy
    case Turns => TurnCutoff(messages, opts.maxTurnsVisible, opts.minRecentMessages)
    case _ => BudgetCutoff(host, messages, opts.maxCharBudget, opts.minRecentMessages)
  }

  function PriorCutoff(event: Option<SummarizationEvent>): nat {
    if event.Some? then event.value.cutoffIndex else 0
  }

  /** A cutoff of the effective history, folded back to an index of the full one. */
  function StateCutoff(event: Option<SummarizationEvent>, effectiveCutoff: nat): nat {
    if event.Some? then
      if effectiveCutoff == 0 then 0 else event.value.cutoffIndex + (effectiveCutoff - 1)
    else effectiveCutoff
  }

  /** The messages between the prior cutoff and the new one. */
  function Slice<T>(xs: seq<T>, lo: nat, hi: nat): seq<T> {
    if lo <= hi <= |xs| then xs[lo..hi] else []
  }

  function ThreadId(host: Host, st: SumState): string {
    st.threadId.GetOr(host.newThreadId)
  }

  /** Archive up to a cutoff and remember it; a failing store stops the compaction. */
  function CompactTo(host: Host, opts: Options, messages: seq<Message>, st: SumState, cutoff: nat):
    (SumState, Result<SummarizationEvent, string>)
  {
    var pruned := WithoutSummaries(Slice(messages, PriorCutoff(st.event), cutoff));
    var summary := BuildSummaryMessage(host, pruned, opts.maxSummaryChars);
    var id := ThreadId(host, st);
    var st1 := st.(threadId := Some(id));
    match host.persist(id, pruned)
    case Err(e) => (st1, Err(e))
    case Ok(path) =>
      var event := SummarizationEvent(cutoff, summary, path);
      (st1.(event := Some(event), events := st1.events + [event],
            archive := st1.archive + [Section(PriorCutoff(st.event), cutoff, pruned)]),
       Ok(event))
  }

  /** The cutoff a compaction of this history would store. */
  function NextCutoff(host: Host, opts: Options, messages: seq<Message>, st: SumState): nat {
    StateCutoff(st.event, ComputeCutoff(host, Redacted(EffectiveMessages(messages, st.event), opts), opts))
  }

  predicate Compactable(host: Host, opts: Options, messages: seq<Message>, st: SumState) {
    0 < NextCutoff(host, opts, messages, st) < |messages|
  }

  predicate StepCompacts(host: Host, opts: Options, messages: seq<Message>, st: SumState) {
    && (opts.enabled || st.force)
    && (st.force || ShouldSummarize(host, Redacted(EffectiveMessages(messages, st.event), opts), opts))
    && Compactable(host, opts, messages, st)
  }

  /** Before a provider step: the view of the history the provider gets. */
  function ProviderView(host: Host, opts: Options, messages: seq<Message>, st: SumState):
    (SumState, Result<seq<Message>, string>)
  {
    if !StepCompacts(host, opts, messages, st) then
      (st, Ok(Redacted(EffectiveMessages(messages, st.event), opts)))
    else
      var cutoff := NextCutoff(host, opts, messages, st);
      var (st1, r) := CompactTo(host, opts, messages, st, cutoff);
      match r
      case Err(e) => (st1, Err(e))
      case Ok(event) => (st1, Ok(Redacted([event.summaryMessage] + messages[cutoff..], opts)))
  }

  predicate ToolCompacts(host: Host, opts: Options, messages: seq<Message>, st: SumState) {
    && TotalChars(host, Redacted(EffectiveMessages(messages, st.event), opts)) >= opts.minCompactChars
    && Compactable(host, opts, messages, st)
  }

  /** The `compact_conversation` tool: the event it stored, or nothing when it was skipped. */
  function CompactTool(host: Host, opts: Options, messages: seq<Message>, st: SumState):
    (SumState, Result<Option<SummarizationEvent>, string>)
  {
    if !ToolCompacts(host, opts, messages, st) then (st, Ok(None))
    else
      var (st1, r) := CompactTo(host, opts, messages, st, NextCutoff(host, opts, messages, st));
      match r
      case Err(e) => (st1, Err(e))
      case Ok(event) => (st1, Ok(Some(event)))
  }

  // ----- the entries of the agent state, updated in place -----

  class SummaryState {
    var event: Option<SummarizationEvent>
    var events: seq<SummarizationEvent>
    var force: bool
    var threadId: Option<string>
    ghost var archive: seq<Section>

    ghost function View(): SumState
      reads this
    {
      SumState(event, events, force, threadId, archive)
    }

    constructor ()
      ensures View() == SumState(None, [], false, None, [])
    {
      event, events, force, threadId, archive := None, [], false, None, [];
    }

    method ApplyPriorEvent(messages: seq<Message>) returns (effective: seq<Message>)
      ensures effective == EffectiveMessages(messages, event)
    {
      if event.Some? {
        effective := [event.value.summaryMessage];
        effective := effective + Skip(messages, event.value.cutoffIndex);
      } else {
        effective := messages;
      }
    }

    method EnsureThreadId(host: Host) returns (id: string)
      modifies this`threadId
      ensures id == ThreadId(host, old(View()))
      ensures threadId == Some(id)
    {
      if threadId.Some? {
        return threadId.value;
      }
      id := host.newThreadId;
      threadId := Some(id);
    }

    method StoreEvent(e: SummarizationEvent)
      modifies this`event, this`events
      ensures event == Some(e) && events == old(events) + [e]
    {
      event := Some(e);
      events := events + [e];
    }

    method Compact(host: Host, opts: Options, messages: seq<Message>, cutoff: nat)
      returns (r: Result<SummarizationEvent, string>)
      requires cutoff <= |messages|
      modifies this
      ensures (View(), r) == CompactTo(host, opts, messages, old(View()), cutoff)
    {
      var prior := PriorCutoff(event);
      var pruned := WithoutSummaries(Slice(messages, prior, cutoff));
      var summary := BuildSummaryMessage(host, pruned, opts.maxSummaryChars);
      var id := EnsureThreadId(host);
      var path := host.persist(id, pruned);
      if path.Err? {
        return Err(path.error);
      }
      var e := SummarizationEvent(cutoff, summary, path.value);
      StoreEvent(e);
      archive := archive + [Section(prior, cutoff, pruned)];
      r := Ok(e);
    }

    method ChooseCutoff(host: Host, opts: Options, effective: seq<Message>) returns (cutoff: nat)
      ensures cutoff == StateCutoff(event, ComputeCutoff(host, effective, opts))
    {
      var effectiveCutoff;
      match opts.policy {
        case Turns => effectiveCutoff := CutoffForTurns(effective, opts.maxTurnsVisible, opts.minRecentMessages);
        case _ => effectiveCutoff := CutoffForBudget(host, effective, opts.maxCharBudget, opts.minRecentMessages);
      }
      if event.Some? {
        if effectiveCutoff == 0 {
          cutoff := 0;
        } else {
          cutoff := event.value.cutoffIndex + (effectiveCutoff - 1);
        }
      } else {
        cutoff := effectiveCutoff;
      }
    }

    method EffectiveView(opts: Options, messages: seq<Message>) returns (effective: seq<Message>)
      ensures effective == Redacted(EffectiveMessages(messages, event), opts)
    {
      effective := ApplyPriorEvent(messages);
      if opts.redactToolArgs {
        effective := TruncateToolArgs(effective, opts);
      }
    }

    method BeforeProviderStep(host: Host, opts: Options, messages: seq<Message>)
      returns (r: Result<seq<Message>, string>)
      modifies this
      ensures (View(), r) == ProviderView(host, opts, messages, old(View()))
    {
      var effective := EffectiveView(opts, messages);
      if !opts.enabled && !force {
        return Ok(effective);
      }
      if !force && !ShouldSummarize(host, effective, opts) {
        return Ok(effective);
      }
      var cutoff := ChooseCutoff(host, opts, effective);
      if cutoff == 0 || cutoff >= |messages| {
        return Ok(effective);
      }
      var e := Compact(host, opts, messages, cutoff);
      if e.Err? {
        return Err(e.error);
      }
      var next := [e.value.summaryMessage] + messages[cutoff..];
      if opts.redactToolArgs {
        next := TruncateToolArgs(next, opts);
      }
      r := Ok(next);
    }

    method HandleCompactConversation(host: Host, opts: Options, messages: seq<Message>)
      returns (r: Result<Option<SummarizationEvent>, string>)
      modifies this
      ensures (View(), r) == CompactTool(host, opts, messages, old(View()))
    {
      var effective := EffectiveView(opts, messages);
      if TotalChars(host, effective) < opts.minCompactChars {
        return Ok(None);
      }
      var cutoff := ChooseCutoff(host, opts, effective);
      if cutoff == 0 || cutoff >= |messages| {
        return Ok(None);
      }
      var e := Compact(host, opts, messages, cutoff);
      if e.Err? {
        return Err(e.error);
      }
      r := Ok(Some(e.value));
    }
  }
}
