/** Folding of cutoffs, the size of the visible window, and conservation of the history. */
module SummarizationTheorems {
  import opened Wrappers
  import opened Json
  import opened Types
  import opened RunnerSpec
  import opened ToolCompat
  import opened RunnerInvariants
  import opened RunnerTheorems
  import opened ConversationInvariants
  import opened Summarization

  // ----- cutoffs -----

  lemma {:induction false} CutoffWithinView(host: Host, messages: seq<Message>, opts: Options)
    ensures ComputeCutoff(host, messages, opts) <= |messages|
  {
    var keep := if opts.minRecentMessages < |messages| then opts.minRecentMessages else |messages|;
    BudgetFromMonotone(host, messages, opts.maxCharBudget, keep, 0);
  }

  /** The prior event belongs to this conversation. */
  ghost predicate EventFits(messages: seq<Message>, st: SumState) {
    st.event.Some? ==> st.event.value.cutoffIndex <= |messages|
  }

  /** The effective cutoff a compaction works with; it is never 0 when something is compacted after a prior event. */
  ghost function EffectiveCutoff(host: Host, opts: Options, messages: seq<Message>, st: SumState): nat {
    ComputeCutoff(host, Redacted(EffectiveMessages(messages, st.event), opts), opts)
  }

  /**
   * Folding: what the new cutoff leaves of the full history is what the effective cutoff leaves
   * of the previous view, and the stored cutoff never goes back. It stays where it was exactly
   * when the effective cutoff only drops the previous summary.
   */
  lemma CutoffFolds(host: Host, opts: Options, messages: seq<Message>, st: SumState)
    requires EventFits(messages, st) && Compactable(host, opts, messages, st)
    ensures var k := EffectiveCutoff(host, opts, messages, st);
            var cutoff := NextCutoff(host, opts, messages, st);
            var view := EffectiveMessages(messages, st.event);
            && 0 < k <= |view|
            && messages[cutoff..] == view[k..]
            && PriorCutoff(st.event) <= cutoff
            && (st.event.Some? ==> (cutoff == PriorCutoff(st.event) <==> k == 1))
  {
    CutoffWithinView(host, Redacted(EffectiveMessages(messages, st.event), opts), opts);
  }

  // ----- size of the visible window -----

  lemma {:induction false} TotalCharsSplit(host: Host, a: seq<Message>, b: seq<Message>)
    ensures TotalChars(host, a + b) == TotalChars(host, a) + TotalChars(host, b)
  {
    if a == [] {
      assert a + b == b;
    } else {
      assert (a + b)[1..] == a[1..] + b;
      TotalCharsSplit(host, a[1..], b);
    }
  }

  /** Shortening arguments commutes with dropping a prefix, whether it is switched on or not. */
  lemma RedactionCommutesWithDrop(messages: seq<Message>, opts: Options, k: nat)
    requires k <= |messages|
    ensures |Redacted(messages, opts)| == |messages|
    ensures Redacted(messages, opts)[k..] == Redacted(messages[k..], opts)
  {
    TruncationCommutesWithDrop(messages, opts, k);
  }

  lemma SummaryIsBounded(host: Host, pruned: seq<Message>, maxChars: nat)
    ensures MessageChars(host, BuildSummaryMessage(host, pruned, maxChars)) <= maxChars + |SUMMARY_TRUNCATED|
  {
    TruncatedLength(host.summaryText(pruned), maxChars, SUMMARY_TRUNCATED);
  }

  /** The view after a compaction is the summary followed by the redacted tail of the full history. */
  lemma CompactedView(host: Host, opts: Options, messages: seq<Message>, st: SumState)
    requires StepCompacts(host, opts, messages, st) && ProviderView(host, opts, messages, st).1.Ok?
    ensures var (st1, r) := ProviderView(host, opts, messages, st);
            var cutoff := NextCutoff(host, opts, messages, st);
            && st1.event.Some? && st1.event.value.cutoffIndex == cutoff
            && st1.event.value.summaryMessage
               == BuildSummaryMessage(host, WithoutSummaries(Slice(messages, PriorCutoff(st.event), cutoff)),
                                      opts.maxSummaryChars)
            && r.value == [st1.event.value.summaryMessage] + Redacted(messages[cutoff..], opts)
  {
    var cutoff := NextCutoff(host, opts, messages, st);
    var summary := ProviderView(host, opts, messages, st).0.event.value.summaryMessage;
    var next := [summary] + messages[cutoff..];
    RedactionCommutesWithDrop(next, opts, 1);
    assert next[1..] == messages[cutoff..];
    assert Redacted(next, opts) == [Redacted(next, opts)[0]] + Redacted(next, opts)[1..];
    assert TruncateMessage(summary, opts) == summary;
  }

  /**
   * Visible window: a budget compaction that leaves more than the messages the recency floor protects hands on at
   * most the budget plus the longest summary, with or without argument truncation. Any other hands on the summary
   * and exactly the messages the floor protects.
   */
  lemma VisibleWindowIsBounded(host: Host, opts: Options, messages: seq<Message>, st: SumState)
    requires !opts.policy.Turns?
    requires ProviderView(host, opts, messages, st).1.Ok?
    requires ProviderView(host, opts, messages, st).0.events != st.events
    ensures var view := ProviderView(host, opts, messages, st).1.value;
            var before := EffectiveMessages(messages, st.event);
            if |view| > 1 + opts.minRecentMessages
            then Measure(host, view) <= opts.maxCharBudget + opts.maxSummaryChars + |SUMMARY_TRUNCATED|
            else |view| == 1 + (if opts.minRecentMessages < |before| then opts.minRecentMessages else |before|)
  {
    assert StepCompacts(host, opts, messages, st);
    var before := EffectiveMessages(messages, st.event);
    var shown := Redacted(before, opts);
    var k := EffectiveCutoff(host, opts, messages, st);
    var cutoff := NextCutoff(host, opts, messages, st);
    CutoffFolds(host, opts, messages, st);
    CompactedView(host, opts, messages, st);
    RedactionCommutesWithDrop(before, opts, k);
    RedactionCommutesWithDrop(messages[cutoff..], opts, 0);
    BudgetCutoffIsLeast(host, shown, opts.maxCharBudget, opts.minRecentMessages, k);
    var summary := ProviderView(host, opts, messages, st).0.event.value.summaryMessage;
    var tail := Redacted(messages[cutoff..], opts);
    assert tail == shown[k..];
    TotalCharsSplit(host, [summary], tail);
    assert [summary][1..] == [] && TotalChars(host, [summary]) == MessageChars(host, summary);
    SummaryIsBounded(host, WithoutSummaries(Slice(messages, PriorCutoff(st.event), cutoff)), opts.maxSummaryChars);
    TotalIsMeasure(host, [summary] + tail);
    TotalIsMeasure(host, tail);
  }

  // ----- conservation over whole runs -----

  lemma {:induction false} WithoutSummariesSplit(a: seq<Message>, b: seq<Message>)
    ensures WithoutSummaries(a + b) == WithoutSummaries(a) + WithoutSummaries(b)
  {
    if a == [] {
      assert a + b == b;
    } else {
      assert (a + b)[1..] == a[1..] + b;
      WithoutSummariesSplit(a[1..], b);
    }
  }

  /** Everything in the archive, in the order it was written. */
  ghost function Archived(archive: seq<Section>): seq<Message> {
    if archive == [] then [] else Archived(archive[..|archive| - 1]) + archive[|archive| - 1].kept
  }

  /** The sections are adjacent ranges that start at the beginning and end at `cutoff`. */
  ghost predicate Tiles(archive: seq<Section>, cutoff: nat) {
    && (archive == [] ==> cutoff == 0)
    && (archive != [] ==> archive[0].lo == 0 && archive[|archive| - 1].hi == cutoff)
    && (forall i :: 0 <= i < |archive| ==> archive[i].lo <= archive[i].hi)
    && (forall i :: 0 < i < |archive| ==> archive[i - 1].hi == archive[i].lo)
  }

  /** The archive accounts for the history up to the stored cutoff. */
  ghost predicate Accounted(messages: seq<Message>, st: SumState) {
    && |st.events| == |st.archive|
    && (st.event.None? ==> st.archive == [])
    && (st.event.Some? ==> 0 < st.event.value.cutoffIndex < |messages| && st.archive != [])
    && Tiles(st.archive, PriorCutoff(st.event))
    && (forall i :: 0 <= i < |st.archive| ==>
          && st.archive[i].hi <= |messages|
          && st.archive[i].hi == st.events[i].cutoffIndex
          && st.archive[i].kept == WithoutSummaries(Slice(messages, st.archive[i].lo, st.archive[i].hi)))
    && (st.event.Some? ==> st.events[|st.events| - 1] == st.event.value)
  }

  /** Messages appended to the history do not disturb the account. */
  lemma AccountedLater(messages: seq<Message>, more: seq<Message>, st: SumState)
    requires Accounted(messages, st) && messages <= more
    ensures Accounted(more, st)
  {
    forall i | 0 <= i < |st.archive|
      ensures Slice(more, st.archive[i].lo, st.archive[i].hi) == Slice(messages, st.archive[i].lo, st.archive[i].hi)
    {
    }
  }

  /** Only the event, the list of events and the archive matter for the account. */
  lemma AccountIgnoresTheRest(messages: seq<Message>, st: SumState, st1: SumState)
    requires Accounted(messages, st)
    requires st1.event == st.event && st1.events == st.events && st1.archive == st.archive
    ensures Accounted(messages, st1)
  {
  }

  lemma SectionAccounted(messages: seq<Message>, st: SumState, event: SummarizationEvent, kept: seq<Message>)
    requires Accounted(messages, st)
    requires 0 < event.cutoffIndex < |messages| && PriorCutoff(st.event) <= event.cutoffIndex
    requires kept == WithoutSummaries(Slice(messages, PriorCutoff(st.event), event.cutoffIndex))
    ensures Accounted(messages, st.(event := Some(event), events := st.events + [event],
              archive := st.archive + [Section(PriorCutoff(st.event), event.cutoffIndex, kept)]))
  {
    var section := Section(PriorCutoff(st.event), event.cutoffIndex, kept);
    assert Tiles(st.archive + [section], event.cutoffIndex);
  }

  lemma CompactToAccounted(host: Host, opts: Options, messages: seq<Message>, st: SumState, cutoff: nat)
    requires Accounted(messages, st) && 0 < cutoff < |messages| && PriorCutoff(st.event) <= cutoff
    ensures var st1 := CompactTo(host, opts, messages, st, cutoff).0;
            && Accounted(messages, st1)
            && PriorCutoff(st.event) <= PriorCutoff(st1.event) && st.archive <= st1.archive
  {
    var st0 := st.(threadId := Some(ThreadId(host, st)));
    AccountIgnoresTheRest(messages, st, st0);
    var r := CompactTo(host, opts, messages, st, cutoff).1;
    if r.Ok? {
      var pruned := WithoutSummaries(Slice(messages, PriorCutoff(st.event), cutoff));
      SectionAccounted(messages, st0, r.value, pruned);
    }
  }

  datatype Operation = Step(host: Host) | Compaction(host: Host) | Force | Unforce

  /** One use of the middleware: a provider step, the tool, or the runner setting or clearing the force flag. */
  ghost function Operate(opts: Options, messages: seq<Message>, st: SumState, op: Operation): SumState {
    match op
    case Step(host) => ProviderView(host, opts, messages, st).0
    case Compaction(host) => CompactTool(host, opts, messages, st).0
    case Force => st.(force := true)
    case Unforce => st.(force := false)
  }

  lemma StepAccounted(opts: Options, messages: seq<Message>, st: SumState, host: Host)
    requires Accounted(messages, st)
    ensures var st1 := ProviderView(host, opts, messages, st).0;
            Accounted(messages, st1) && PriorCutoff(st.event) <= PriorCutoff(st1.event) && st.archive <= st1.archive
  {
    if StepCompacts(host, opts, messages, st) {
      var cutoff := NextCutoff(host, opts, messages, st);
      CutoffFolds(host, opts, messages, st);
      CompactToAccounted(host, opts, messages, st, cutoff);
      assert ProviderView(host, opts, messages, st).0 == CompactTo(host, opts, messages, st, cutoff).0;
    }
  }

  lemma ToolAccounted(opts: Options, messages: seq<Message>, st: SumState, host: Host)
    requires Accounted(messages, st)
    ensures var st1 := CompactTool(host, opts, messages, st).0;
            Accounted(messages, st1) && PriorCutoff(st.event) <= PriorCutoff(st1.event) && st.archive <= st1.archive
  {
    if ToolCompacts(host, opts, messages, st) {
      var cutoff := NextCutoff(host, opts, messages, st);
      CutoffFolds(host, opts, messages, st);
      CompactToAccounted(host, opts, messages, st, cutoff);
      assert CompactTool(host, opts, messages, st).0 == CompactTo(host, opts, messages, st, cutoff).0;
    }
  }

  lemma OperateAccounted(opts: Options, messages: seq<Message>, st: SumState, op: Operation)
    requires Accounted(messages, st)
    ensures Accounted(messages, Operate(opts, messages, st, op))
    ensures PriorCutoff(st.event) <= PriorCutoff(Operate(opts, messages, st, op).event)
    ensures st.archive <= Operate(opts, messages, st, op).archive
  {
    match op {
      case Step(host) =>
        StepAccounted(opts, messages, st, host);
      case Compaction(host) =>
        ToolAccounted(opts, messages, st, host);
      case _ =>
        AccountIgnoresTheRest(messages, st, Operate(opts, messages, st, op));
    }
  }

  /** One moment of a run: the history as it is then, and what happens. */
  datatype Moment = Moment(messages: seq<Message>, op: Operation)

  /** Histories only grow from moment to moment. */
  ghost predicate AppendOnly(run: seq<Moment>) {
    forall i, j :: 0 <= i < j < |run| ==> run[i].messages <= run[j].messages
  }

  ghost function AfterRun(opts: Options, st: SumState, run: seq<Moment>): SumState {
    if run == [] then st
    else
      var last := |run| - 1;
      Operate(opts, run[last].messages, AfterRun(opts, st, run[..last]), run[last].op)
  }

  ghost function Untouched(threadId: Option<string>): SumState {
    SumState(None, [], false, threadId, [])
  }

  lemma {:induction false} RunAccounted(opts: Options, threadId: Option<string>, run: seq<Moment>,
                                        messages: seq<Message>)
    requires AppendOnly(run) && (run != [] ==> run[|run| - 1].messages <= messages)
    ensures Accounted(messages, AfterRun(opts, Untouched(threadId), run))
  {
    if run != [] {
      var last := |run| - 1;
      RunAccounted(opts, threadId, run[..last], run[last].messages);
      var st := AfterRun(opts, Untouched(threadId), run[..last]);
      OperateAccounted(opts, run[last].messages, st, run[last].op);
      AccountedLater(run[last].messages, messages, Operate(opts, run[last].messages, st, run[last].op));
    }
  }

  lemma TilesBeforeLast(archive: seq<Section>, cutoff: nat)
    requires Tiles(archive, cutoff) && archive != []
    ensures var last := |archive| - 1;
            Tiles(archive[..last], archive[last].lo) && archive[last].lo <= archive[last].hi == cutoff
  {
  }

  /** Adjacent sections that account for a history add up to it. */
  lemma {:induction false} TilesAddUp(messages: seq<Message>, archive: seq<Section>, cutoff: nat)
    requires Tiles(archive, cutoff) && cutoff <= |messages|
    requires forall i :: 0 <= i < |archive| ==>
      archive[i].hi <= |messages| && archive[i].kept == WithoutSummaries(Slice(messages, archive[i].lo, archive[i].hi))
    ensures Archived(archive) == WithoutSummaries(messages[..cutoff])
  {
    if archive != [] {
      var last := |archive| - 1;
      var s := archive[last];
      TilesBeforeLast(archive, cutoff);
      TilesAddUp(messages, archive[..last], s.lo);
      assert s.kept == WithoutSummaries(messages[s.lo..cutoff]);
      assert messages[..cutoff] == messages[..s.lo] + messages[s.lo..cutoff];
      WithoutSummariesSplit(messages[..s.lo], messages[s.lo..cutoff]);
    }
  }

  /** The archived sections tile the history up to the cutoff; with the visible tail they are the whole history. */
  ghost predicate Conserved(messages: seq<Message>, st: SumState) {
    var cutoff := PriorCutoff(st.event);
    && Tiles(st.archive, cutoff) && cutoff <= |messages|
    && Archived(st.archive) + WithoutSummaries(messages[cutoff..]) == WithoutSummaries(messages)
    && (st.event.Some? ==>
          && 0 < cutoff < |messages|
          && EffectiveMessages(messages, st.event) == [st.event.value.summaryMessage] + messages[cutoff..])
    && |st.events| == |st.archive|
    && (forall i :: 0 <= i < |st.archive| ==> st.archive[i].hi == st.events[i].cutoffIndex)
  }

  lemma AccountedIsConserved(messages: seq<Message>, st: SumState)
    requires Accounted(messages, st)
    ensures Conserved(messages, st)
  {
    var cutoff := PriorCutoff(st.event);
    TilesAddUp(messages, st.archive, cutoff);
    WithoutSummariesSplit(messages[..cutoff], messages[cutoff..]);
    assert messages == messages[..cutoff] + messages[cutoff..];
  }

  /**
   * Conservation: after any run over a growing history the archived sections tile the history
   * up to the cutoff, and the archive followed by the visible tail is the whole history, up to
   * summary messages.
   */
  lemma HistoryIsConserved(opts: Options, threadId: Option<string>, run: seq<Moment>, messages: seq<Message>)
    requires AppendOnly(run) && (run != [] ==> run[|run| - 1].messages <= messages)
    ensures Conserved(messages, AfterRun(opts, Untouched(threadId), run))
  {
    RunAccounted(opts, threadId, run, messages);
    AccountedIsConserved(messages, AfterRun(opts, Untouched(threadId), run));
  }

  /** Over any run the sequence of stored cutoffs never decreases. */
  lemma {:induction false} CutoffsNeverDecrease(opts: Options, threadId: Option<string>, run: seq<Moment>, i: nat,
                                                j: nat)
    requires AppendOnly(run)
    requires i <= j < |AfterRun(opts, Untouched(threadId), run).events|
    ensures var events := AfterRun(opts, Untouched(threadId), run).events;
            0 < events[0].cutoffIndex && events[i].cutoffIndex <= events[j].cutoffIndex
    decreases j - i
  {
    var messages := if run == [] then [] else run[|run| - 1].messages;
    RunAccounted(opts, threadId, run, messages);
    var st := AfterRun(opts, Untouched(threadId), run);
    if i < j {
      CutoffsNeverDecrease(opts, threadId, run, i, j - 1);
      assert st.archive[j].lo <= st.archive[j].hi;
    } else {
      FirstCutoffIsPositive(opts, threadId, run);
    }
  }

  lemma {:induction false} FirstCutoffIsPositive(opts: Options, threadId: Option<string>, run: seq<Moment>)
    requires AppendOnly(run) && AfterRun(opts, Untouched(threadId), run).events != []
    ensures AfterRun(opts, Untouched(threadId), run).events[0].cutoffIndex > 0
  {
    var last := |run| - 1;
    var before := AfterRun(opts, Untouched(threadId), run[..last]);
    if before.events != [] {
      FirstCutoffIsPositive(opts, threadId, run[..last]);
      OperateKeepsEvents(opts, run[last].messages, before, run[last].op);
    } else {
      OperateKeepsEvents(opts, run[last].messages, before, run[last].op);
    }
  }

  lemma OperateKeepsEvents(opts: Options, messages: seq<Message>, st: SumState, op: Operation)
    ensures var st1 := Operate(opts, messages, st, op);
            && st.events <= st1.events
            && (forall i :: |st.events| <= i < |st1.events| ==> st1.events[i].cutoffIndex > 0)
  {
  }

  // ----- a compaction of nothing but the previous summary -----

  /** Three short messages, of which the last two fill a budget of two characters. */
  const THREE := [Plain("user", "abc"), Plain("user", "d"), Plain("user", "e")]

  /** Options under which the last two of the three may stay. */
  ghost predicate TwoFit(opts: Options) {
    opts.enabled && opts.policy.Budget? && opts.maxCharBudget == 2 && opts.minRecentMessages <= 2
  }

  lemma PlainIsRedacted(messages: seq<Message>, opts: Options)
    requires forall m :: m in messages ==> m.toolCalls.None?
    ensures Redacted(messages, opts) == messages
  {
  }

  /** With anything that is not empty in front of them, the budget leaves the last two. */
  lemma BudgetLeavesTwo(host: Host, opts: Options, first: Message)
    requires TwoFit(opts) && first.toolCalls.None? && first.content != ""
    ensures var view := [first] + THREE[1..];
            Redacted(view, opts) == view && ShouldSummarize(host, view, opts) && ComputeCutoff(host, view, opts) == 1
  {
    var view, tail := [first] + THREE[1..], [Plain("user", "d"), Plain("user", "e")];
    PlainIsRedacted(view, opts);
    assert tail[1..] == [Plain("user", "e")] && tail[1..][1..] == [];
    assert TotalChars(host, tail[1..]) == 1 && TotalChars(host, tail) == 2;
    assert view[0..] == view && view[1..] == tail;
    assert TotalChars(host, view) == |first.content| + 2;
    forall i | 0 <= i <= |view| ensures TotalChars(host, view[i..]) == Measure(host, view[i..]) {
      TotalIsMeasure(host, view[i..]);
    }
    BudgetCutoffIsLeast(host, view, opts.maxCharBudget, opts.minRecentMessages, 1);
  }

  lemma FirstIsCompacted(host: Host, opts: Options, st: SumState) returns (once: SumState)
    requires TwoFit(opts) && host.summaryText([Plain("user", "abc")]) != "" && st.event.None? && st.archive == []
    requires forall id, kept :: host.persist(id, kept).Ok?
    ensures once == ProviderView(host, opts, THREE, st).0
    ensures PriorCutoff(once.event) == 1 && once.archive == [Section(0, 1, [Plain("user", "abc")])]
    ensures once.event.value.summaryMessage.toolCalls.None? && once.event.value.summaryMessage.content != ""
  {
    once := ProviderView(host, opts, THREE, st).0;
    assert THREE == [THREE[0]] + THREE[1..];
    BudgetLeavesTwo(host, opts, THREE[0]);
    assert NextCutoff(host, opts, THREE, st) == 1;
    assert StepCompacts(host, opts, THREE, st);
    var kept := [Plain("user", "abc")];
    assert Slice(THREE, 0, 1) == kept && kept[1..] == [] && WithoutSummaries(kept) == kept;
    TruncatedLength(host.summaryText(kept), opts.maxSummaryChars, SUMMARY_TRUNCATED);
  }

  lemma SummaryIsCompacted(host: Host, opts: Options, st: SumState) returns (twice: SumState)
    requires TwoFit(opts) && PriorCutoff(st.event) == 1
    requires st.event.value.summaryMessage.toolCalls.None? && st.event.value.summaryMessage.content != ""
    requires forall id, kept :: host.persist(id, kept).Ok?
    ensures twice == ProviderView(host, opts, THREE, st).0
    ensures StepCompacts(host, opts, THREE, st) && EffectiveCutoff(host, opts, THREE, st) == 1
    ensures PriorCutoff(twice.event) == 1 && twice.archive == st.archive + [Section(1, 1, [])]
  {
    twice := ProviderView(host, opts, THREE, st).0;
    BudgetLeavesTwo(host, opts, st.event.value.summaryMessage);
    assert EffectiveMessages(THREE, st.event) == [st.event.value.summaryMessage] + THREE[1..];
    assert NextCutoff(host, opts, THREE, st) == 1;
    assert Slice(THREE, 1, 1) == [];
  }

  /**
   * An effective cutoff of 1 is reached: a second step over the same history compacts the summary of the
   * first one alone. It stores the same cutoff again, with an empty section.
   */
  lemma SummaryAloneIsCompacted(host: Host, opts: Options, threadId: Option<string>)
    requires TwoFit(opts) && host.summaryText([Plain("user", "abc")]) != ""
    requires forall id, kept :: host.persist(id, kept).Ok?
    ensures var once, twice := AfterRun(opts, Untouched(threadId), [Moment(THREE, Step(host))]),
                               AfterRun(opts, Untouched(threadId),
                                        [Moment(THREE, Step(host)), Moment(THREE, Step(host))]);
            && StepCompacts(host, opts, THREE, once) && EffectiveCutoff(host, opts, THREE, once) == 1
            && PriorCutoff(once.event) == PriorCutoff(twice.event) == 1
            && once.archive == [Section(0, 1, [Plain("user", "abc")])]
            && twice.archive == once.archive + [Section(1, 1, [])]
  {
    var first, run := [Moment(THREE, Step(host))], [Moment(THREE, Step(host)), Moment(THREE, Step(host))];
    assert first[..0] == [] && run[..1] == first;
    var once := FirstIsCompacted(host, opts, Untouched(threadId));
    var twice := SummaryIsCompacted(host, opts, once);
    assert AfterRun(opts, Untouched(threadId), first) == once;
    assert AfterRun(opts, Untouched(threadId), run) == twice;
  }

  // ----- in the runner -----

  /** How the middleware sees the part of the agent state it owns. */
  datatype Slots<!S> = Slots(load: S -> SumState, store: (S, SumState) -> S, host: S -> Host)

  function ToolAnswer(r: Result<Option<SummarizationEvent>, string>, describe: SummarizationEvent -> Value):
    Result<Option<HandledToolCall>, string>
  {
    match r
    case Err(e) => Err(e)
    case Ok(None) =>
      Ok(Some(HandledToolCall(Obj([Field("content", Str("conversation not large enough to compact")),
                                   Field("skipped", Bool(true))]), None)))
    case Ok(Some(event)) => Ok(Some(HandledToolCall(describe(event), None)))
  }

  /** The summarization middleware as one of the runner's middlewares. */
  function SummarizationMiddleware<S>(opts: Options, slots: Slots<S>, describe: SummarizationEvent -> Value):
    Middleware<S>
  {
    Middleware(
      (ms, s) => (s, Ok(ms)),
      (ms: seq<Message>, s: S) =>
        var (st, r) := ProviderView(slots.host(s), opts, ms, slots.load(s));
        (slots.store(s, st), r),
      (step: ProviderStep, n: nat) => (n, Ok(step)),
      (call: ProviderToolCall, ms: seq<Message>, s: S) =>
        if call.toolName != "compact_conversation" then (ms, s, Ok(None))
        else
          var (st, r) := CompactTool(slots.host(s), opts, ms, slots.load(s));
          (ms, slots.store(s, st), ToolAnswer(r, describe)))
  }

  /** It meets what the runner's theorems ask of a middleware, whatever others are installed with it. */
  lemma SummarizationIsTidy<S(!new)>(opts: Options, slots: Slots<S>, describe: SummarizationEvent -> Value)
    ensures Tidy(SummarizationMiddleware(opts, slots, describe))
  {
    var m := SummarizationMiddleware(opts, slots, describe);
    forall call, ms: seq<Message>, s: S
      ensures var (messages, _, answer) := m.handleToolCall(call, ms, s);
              && messages == ms && (answer.Ok? && answer.value.Some? ==> answer.value.value.error.None?)
    {
      var (st, r) := CompactTool(slots.host(s), opts, ms, slots.load(s));
      assert ToolAnswer(r, describe).Ok? ==> ToolAnswer(r, describe).value.value.error.None?;
    }
  }

  // ----- conservation over runs of the runner -----

  /** The event, the list of events and the archive are as they were. */
  ghost predicate SameAccount(a: SumState, b: SumState) {
    a.event == b.event && a.events == b.events && a.archive == b.archive
  }

  /** Another middleware, which leaves the account alone and does not edit the history from inside a tool call. */
  ghost predicate Aside<S(!new)>(slots: Slots<S>, m: Middleware<S>) {
    && (forall ms, s :: SameAccount(slots.load(m.beforeRun(ms, s).0), slots.load(s)))
    && (forall ms, s :: SameAccount(slots.load(m.beforeProviderStep(ms, s).0), slots.load(s)))
    && (forall call, ms, s ::
          && m.handleToolCall(call, ms, s).0 == ms
          && SameAccount(slots.load(m.handleToolCall(call, ms, s).1), slots.load(s)))
  }

  /** A middleware that shows the next one the history it was shown. */
  ghost predicate HandsOn<S(!new)>(m: Middleware<S>) {
    forall ms, s :: var r := m.beforeProviderStep(ms, s).1; r.Ok? ==> r.value == ms
  }

  /** Nothing outside the middlewares touches the account. */
  ghost predicate OutsideAside<S(!new)>(env: Env<S>, slots: Slots<S>) {
    && (forall s, req :: SameAccount(slots.load(env.provider(req, s).0), slots.load(s)))
    && (forall s, name, input, id :: SameAccount(slots.load(env.skill(name, input, id, s).0), slots.load(s)))
    && (forall s, tool, args :: SameAccount(slots.load(env.tool(tool, args, s).0), slots.load(s)))
    && (forall s, tool, id, output :: SameAccount(slots.load(env.offload(tool, id, output, s).0), slots.load(s)))
    && (forall s :: SameAccount(slots.load(env.setForce(s)), slots.load(s)))
    && (forall s :: SameAccount(slots.load(env.clearForce(s)), slots.load(s)))
  }

  /** Summarization is installed at index `at`, and those before it show it the history itself. */
  ghost predicate Installed<S(!new)>(env: Env<S>, opts: Options, slots: Slots<S>,
                                     describe: SummarizationEvent -> Value, at: nat)
  {
    && at < |env.middlewares| && env.middlewares[at] == SummarizationMiddleware(opts, slots, describe)
    && (forall s, st :: slots.load(slots.store(s, st)) == st)
    && (forall k: nat :: k < |env.middlewares| && k != at ==> Aside(slots, env.middlewares[k]))
    && (forall k: nat :: k < at ==> HandsOn(env.middlewares[k]))
    && OutsideAside(env, slots)
  }

  lemma {:induction false} AsideViewKeeps<S(!new)>(env: Env<S>, slots: Slots<S>, k: nat, ms: seq<Message>, s: S)
    requires k <= |env.middlewares|
    requires forall i: nat :: k <= i < |env.middlewares| ==> Aside(slots, env.middlewares[i])
    ensures SameAccount(slots.load(BeforeStepChain(env.middlewares[k..], ms, s).0), slots.load(s))
    decreases |env.middlewares| - k
  {
    if k < |env.middlewares| {
      var m := env.middlewares[k];
      assert Aside(slots, m);
      assert env.middlewares[k..][0] == m && env.middlewares[k..][1..] == env.middlewares[k + 1..];
      var (s1, r) := m.beforeProviderStep(ms, s);
      if r.Ok? {
        AsideViewKeeps(env, slots, k + 1, r.value, s1);
      }
    }
  }

  lemma {:induction false} ViewAccounted<S(!new)>(env: Env<S>, opts: Options, slots: Slots<S>,
                                                  describe: SummarizationEvent -> Value, at: nat, k: nat,
                                                  ms: seq<Message>, s: S)
    requires Installed(env, opts, slots, describe, at) && k <= at && Accounted(ms, slots.load(s))
    ensures Accounted(ms, slots.load(BeforeStepChain(env.middlewares[k..], ms, s).0))
    decreases at - k
  {
    var m := env.middlewares[k];
    assert env.middlewares[k..][0] == m && env.middlewares[k..][1..] == env.middlewares[k + 1..];
    var (s1, r) := m.beforeProviderStep(ms, s);
    if k < at {
      assert Aside(slots, m) && HandsOn(m);
      AccountIgnoresTheRest(ms, slots.load(s), slots.load(s1));
      if r.Ok? {
        ViewAccounted(env, opts, slots, describe, at, k + 1, ms, s1);
      }
    } else {
      StepAccounted(opts, ms, slots.load(s), slots.host(s));
      assert slots.load(s1) == ProviderView(slots.host(s), opts, ms, slots.load(s)).0;
      if r.Ok? {
        AsideViewKeeps(env, slots, k + 1, r.value, s1);
        AccountIgnoresTheRest(ms, slots.load(s1), slots.load(BeforeStepChain(env.middlewares[k..], ms, s).0));
      }
    }
  }

  lemma {:induction false} StartKeepsAccount<S(!new)>(env: Env<S>, opts: Options, slots: Slots<S>,
                                                      describe: SummarizationEvent -> Value, at: nat, k: nat,
                                                      ms: seq<Message>, s: S)
    requires Installed(env, opts, slots, describe, at) && k <= |env.middlewares|
    ensures SameAccount(slots.load(BeforeRunChain(env.middlewares[k..], ms, s).0), slots.load(s))
    decreases |env.middlewares| - k
  {
    if k < |env.middlewares| {
      var m := env.middlewares[k];
      assert env.middlewares[k..][0] == m && env.middlewares[k..][1..] == env.middlewares[k + 1..];
      var (s1, r) := m.beforeRun(ms, s);
      assert k != at ==> Aside(slots, m);
      if r.Ok? {
        StartKeepsAccount(env, opts, slots, describe, at, k + 1, r.value, s1);
      }
    }
  }

  lemma OfferAccounted<S(!new)>(env: Env<S>, opts: Options, slots: Slots<S>, describe: SummarizationEvent -> Value,
                                at: nat, k: nat, call: ProviderToolCall, ms: seq<Message>, s: S)
    requires Installed(env, opts, slots, describe, at) && k < |env.middlewares| && Accounted(ms, slots.load(s))
    ensures var r := env.middlewares[k].handleToolCall(call, ms, s); Accounted(r.0, slots.load(r.1))
  {
    var r := env.middlewares[k].handleToolCall(call, ms, s);
    if k != at {
      assert Aside(slots, env.middlewares[k]);
      AccountIgnoresTheRest(ms, slots.load(s), slots.load(r.1));
    } else if call.toolName == "compact_conversation" {
      ToolAccounted(opts, ms, slots.load(s), slots.host(s));
      assert slots.load(r.1) == CompactTool(slots.host(s), opts, ms, slots.load(s)).0;
    }
  }

  /** The claim that the account is right. */
  ghost function AccountClaim<S>(slots: Slots<S>): Claim<S> {
    (ms, s) => Accounted(ms, slots.load(s))
  }

  /** The claim that nothing has been compacted. */
  ghost function UntouchedClaim<S>(slots: Slots<S>): Claim<S> {
    (ms, s) => SameAccount(slots.load(s), Untouched(None))
  }

  lemma AccountSurvivesOutside<S(!new)>(env: Env<S>, slots: Slots<S>)
    requires OutsideAside(env, slots)
    ensures SurvivesCalls(env, AccountClaim(slots)) && SurvivesAsking(env, AccountClaim(slots))
  {
    forall ms, s: S, s1: S | Accounted(ms, slots.load(s)) && SameAccount(slots.load(s1), slots.load(s))
      ensures Accounted(ms, slots.load(s1))
    {
      AccountIgnoresTheRest(ms, slots.load(s), slots.load(s1));
    }
  }

  lemma AccountSurvives<S(!new)>(env: Env<S>, opts: Options, slots: Slots<S>, describe: SummarizationEvent -> Value,
                                 at: nat)
    requires Installed(env, opts, slots, describe, at)
    ensures Survives(env, AccountClaim(slots))
  {
    var p := AccountClaim(slots);
    AccountSurvivesOutside(env, slots);
    forall ms: seq<Message>, m: Message, s: S | p(ms, s) ensures p(ms + [m], s) {
      AccountedLater(ms, ms + [m], slots.load(s));
    }
    assert env.middlewares[0..] == env.middlewares;
    forall ms: seq<Message>, s: S | p(ms, s) ensures p(ms, BeforeStepChain(env.middlewares, ms, s).0) {
      ViewAccounted(env, opts, slots, describe, at, 0, ms, s);
    }
    forall k: nat | k < |env.middlewares| ensures SurvivesOffer(env.middlewares[k], p) {
      var m := env.middlewares[k];
      forall call, ms: seq<Message>, s: S | p(ms, s) ensures p(m.handleToolCall(call, ms, s).0,
                                                               m.handleToolCall(call, ms, s).1) {
        OfferAccounted(env, opts, slots, describe, at, k, call, ms, s);
      }
    }
  }

  lemma AccountStarts<S(!new)>(env: Env<S>, opts: Options, slots: Slots<S>, describe: SummarizationEvent -> Value,
                               at: nat)
    requires Installed(env, opts, slots, describe, at)
    ensures Starts(env, UntouchedClaim(slots), AccountClaim(slots))
  {
    var q, p := UntouchedClaim(slots), AccountClaim(slots);
    assert env.middlewares[0..] == env.middlewares;
    forall ms, s | q(ms, s)
      ensures var (s1, r) := BeforeRunChain(env.middlewares, Normalized(env.codec, ms), s);
              if r.Ok? then p(r.value, s1) else q([], s1)
    {
      StartKeepsAccount(env, opts, slots, describe, at, 0, Normalized(env.codec, ms), s);
    }
  }

  /**
   * Conservation over the runner: with summarization installed, after any sequence of runs, resumes and
   * user inputs the archive followed by the visible tail is the runner's whole history.
   */
  lemma RunnerHistoryIsConserved<S(!new)>(env: Env<S>, opts: Options, slots: Slots<S>,
                                          describe: SummarizationEvent -> Value,
                                          at: nat, messages: seq<Message>, state: S, inputs: seq<Input>)
    requires Installed(env, opts, slots, describe, at) && SameAccount(slots.load(state), Untouched(None))
    ensures var r := After(env, messages, state, inputs);
            r.initialized ==> Conserved(r.conv.messages, slots.load(r.conv.state))
  {
    AccountSurvives(env, opts, slots, describe, at);
    AccountStarts(env, opts, slots, describe, at);
    EveryRunKeeps(env, UntouchedClaim(slots), AccountClaim(slots), messages, state, inputs);
    var r := After(env, messages, state, inputs);
    if r.initialized {
      AccountedIsConserved(r.conv.messages, slots.load(r.conv.state));
    }
  }

  // ----- a child agent that compacts -----

  /** The parent's entries after those of a child have been written over them; the parent's archive is its own. */
  function MergeChild(parent: SumState, child: SumState): SumState {
    parent.(event := if child.event.Some? then child.event else parent.event,
            events := if child.events != [] then child.events else parent.events,
            force := parent.force || child.force,
            threadId := child.threadId.Or(parent.threadId))
  }

  lemma OperateStoresOrKeeps(opts: Options, messages: seq<Message>, st: SumState, op: Operation)
    ensures var st1 := Operate(opts, messages, st, op);
            st.events <= st1.events && (st1.events == st.events ==> st1.event == st.event)
  {
    OperateKeepsEvents(opts, messages, st, op);
  }

  /** A run stores no event exactly when it leaves the list of events alone, and then it leaves the event alone. */
  lemma {:induction false} RunStoresOrKeeps(opts: Options, st: SumState, run: seq<Moment>)
    ensures var st1 := AfterRun(opts, st, run);
            st.events <= st1.events && (st1.events == st.events ==> st1.event == st.event)
  {
    if run != [] {
      var last := |run| - 1;
      RunStoresOrKeeps(opts, st, run[..last]);
      OperateStoresOrKeeps(opts, run[last].messages, AfterRun(opts, st, run[..last]), run[last].op);
    }
  }

  /** A compaction is never stored below the cutoff it starts from, whatever history it works on. */
  lemma {:induction false} RunNeverGoesBack(opts: Options, st: SumState, run: seq<Moment>)
    ensures PriorCutoff(st.event) <= PriorCutoff(AfterRun(opts, st, run).event)
  {
    if run != [] {
      var last := |run| - 1;
      RunNeverGoesBack(opts, st, run[..last]);
      OperateNeverGoesBack(opts, run[last].messages, AfterRun(opts, st, run[..last]), run[last].op);
    }
  }

  lemma OperateNeverGoesBack(opts: Options, messages: seq<Message>, st: SumState, op: Operation)
    ensures PriorCutoff(st.event) <= PriorCutoff(Operate(opts, messages, st, op).event)
  {
  }

  /** Every message is in the archive or past the stored cutoff, in order, summaries aside. */
  ghost predicate NothingLost(messages: seq<Message>, st: SumState) {
    Archived(st.archive) + WithoutSummaries(Skip(messages, PriorCutoff(st.event))) == WithoutSummaries(messages)
  }

  lemma {:induction false} OnlySummaries(messages: seq<Message>)
    ensures WithoutSummaries(messages) == [] <==> forall m :: m in messages ==> IsSummaryMessage(m)
  {
    if messages != [] {
      OnlySummaries(messages[1..]);
      assert messages == [messages[0]] + messages[1..];
    }
  }

  /** Nothing but summaries stands in this range of a history. */
  ghost predicate OnlySummariesIn(messages: seq<Message>, lo: nat, hi: nat) {
    forall i :: lo <= i < hi && i < |messages| ==> IsSummaryMessage(messages[i])
  }

  lemma SkippedRange(messages: seq<Message>, lo: nat, hi: nat) returns (gap: seq<Message>)
    requires lo <= hi && lo <= |messages|
    ensures messages[lo..] == gap + Skip(messages, hi)
    ensures WithoutSummaries(gap) == [] <==> OnlySummariesIn(messages, lo, hi)
  {
    var end := if hi <= |messages| then hi else |messages|;
    gap := messages[lo..end];
    OnlySummaries(gap);
    assert forall i :: lo <= i < end ==> messages[i] == gap[i - lo];
    assert (forall m :: m in gap ==> IsSummaryMessage(m)) <==> forall k :: 0 <= k < |gap| ==> IsSummaryMessage(gap[k]);
  }

  /** Raising the cutoff of an accounted history loses exactly the messages in between. */
  lemma RaisedCutoffLosesIff(messages: seq<Message>, st: SumState, raised: SumState)
    requires Accounted(messages, st) && raised.archive == st.archive
    requires PriorCutoff(st.event) <= PriorCutoff(raised.event)
    ensures NothingLost(messages, raised) <==>
            OnlySummariesIn(messages, PriorCutoff(st.event), PriorCutoff(raised.event))
  {
    var gap := SkippedRange(messages, PriorCutoff(st.event), PriorCutoff(raised.event));
    var rest := Skip(messages, PriorCutoff(raised.event));
    AccountedIsConserved(messages, st);
    WithoutSummariesSplit(gap, rest);
    Cancel(Archived(st.archive), WithoutSummaries(gap), WithoutSummaries(rest));
  }

  lemma Cancel<T>(a: seq<T>, gap: seq<T>, rest: seq<T>)
    ensures a + rest == a + (gap + rest) <==> gap == []
  {
    if gap == [] {
      assert gap + rest == rest;
    } else {
      assert |a + rest| < |a + (gap + rest)|;
    }
  }

  /**
   * A child that starts from the parent's entries and is merged back loses nothing of the parent's
   * history exactly when only summaries stand between the parent's cutoff and the child's. The
   * events stay in step with the archive exactly when the child never compacts.
   */
  lemma ChildMergeConservesIff(opts: Options, messages: seq<Message>, st: SumState, run: seq<Moment>)
    requires Accounted(messages, st)
    ensures var child := AfterRun(opts, st, run);
            && (NothingLost(messages, MergeChild(st, child)) <==>
                OnlySummariesIn(messages, PriorCutoff(st.event), PriorCutoff(child.event)))
            && (Conserved(messages, MergeChild(st, child)) <==> child.events == st.events)
  {
    var child := AfterRun(opts, st, run);
    RunStoresOrKeeps(opts, st, run);
    RunNeverGoesBack(opts, st, run);
    RaisedCutoffLosesIff(messages, st, MergeChild(st, child));
    InStepIff(messages, st, child);
  }

  lemma InStepIff(messages: seq<Message>, st: SumState, child: SumState)
    requires Accounted(messages, st)
    requires st.events <= child.events && (child.events == st.events ==> child.event == st.event)
    ensures Conserved(messages, MergeChild(st, child)) <==> child.events == st.events
  {
    if child.events == st.events {
      AccountIgnoresTheRest(messages, st, MergeChild(st, child));
      AccountedIsConserved(messages, MergeChild(st, child));
    } else {
      assert |child.events| > |st.events| == |MergeChild(st, child).archive|;
    }
  }

  /** An instance: after one step of a child, the parent's first message is neither archived nor shown any more. */
  lemma ChildCompactionLosesAMessage(host: Host, opts: Options, st: SumState, messages: seq<Message>)
    requires TwoFit(opts) && host.summaryText([Plain("user", "abc")]) != ""
    requires forall id, kept :: host.persist(id, kept).Ok?
    requires st.event.None? && st.events == [] && st.archive == []
    requires messages != [] && !IsSummaryMessage(messages[0])
    ensures var merged := MergeChild(st, AfterRun(opts, st, [Moment(THREE, Step(host))]));
            && merged.archive == [] && merged.event.Some?
            && EffectiveMessages(messages, merged.event) == [merged.event.value.summaryMessage] + messages[1..]
            && !NothingLost(messages, merged) && !Conserved(messages, merged)
  {
    var run := [Moment(THREE, Step(host))];
    assert run[..0] == [];
    var child := FirstIsCompacted(host, opts, st);
    assert AfterRun(opts, st, run) == child;
    assert |WithoutSummaries(messages)| == 1 + |WithoutSummaries(messages[1..])|;
  }
}
