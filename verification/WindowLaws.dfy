/** When a history is compacted, what is stored then, and what is shown, in terms of the history itself. */
module WindowLaws {
  import opened Wrappers
  import opened Json
  import opened Listings
  import opened Types
  import opened Summarization
  import opened SummarizationTheorems

  // ----- what is shown -----

  /** Whatever a step shows is the stored summary, where there is one, and the history past the stored cutoff. */
  lemma ViewIsSummaryAndRest(host: Host, opts: Options, messages: seq<Message>, st: SumState)
    requires EventFits(messages, st) && ProviderView(host, opts, messages, st).1.Ok?
    ensures var (st1, r) := ProviderView(host, opts, messages, st);
            if st1.event.None? then r.value == Redacted(messages, opts)
            else
              var event := st1.event.value;
              event.cutoffIndex <= |messages|
              && r.value == Redacted([event.summaryMessage] + messages[event.cutoffIndex..], opts)
  {
  }

  // ----- when a history is compacted -----

  /** A compaction was tried: it stored an event, or the history store failed. */
  ghost predicate Tried<T>(before: SumState, after: SumState, r: Result<T, string>) {
    after.events != before.events || r.Err?
  }

  /** An index of the view as an index of the full history; the summary in front of the view counts for nothing. */
  function FoldedBack(event: Option<SummarizationEvent>, k: nat): int {
    if event.None? || k == 0 then k else event.value.cutoffIndex + k - 1
  }

  /**
   * With a character budget, a step compacts exactly when it is enabled and what it would show is larger than the
   * budget, or when it is forced, and the place where the budget cuts the view lies inside the history.
   */
  lemma BudgetStepCompactsIff(host: Host, opts: Options, messages: seq<Message>, st: SumState) returns (k: nat)
    requires EventFits(messages, st) && !opts.policy.Turns?
    ensures var view := Redacted(EffectiveMessages(messages, st.event), opts);
            var (st1, r) := ProviderView(host, opts, messages, st);
            && k <= |view| && CutsAt(host, view, opts.maxCharBudget, opts.minRecentMessages, k)
            && (Tried(st, st1, r) <==>
                 && ((opts.enabled && Measure(host, view) > opts.maxCharBudget) || st.force)
                 && 0 < FoldedBack(st.event, k) < |messages|)
            && (r.Ok? && st1.events != st.events ==>
                  st1.event.Some? && st1.event.value.cutoffIndex == FoldedBack(st.event, k))
  {
    var view := Redacted(EffectiveMessages(messages, st.event), opts);
    k := BudgetCutoff(host, view, opts.maxCharBudget, opts.minRecentMessages);
    CutoffWithinView(host, view, opts);
    BudgetCutoffIsLeast(host, view, opts.maxCharBudget, opts.minRecentMessages, k);
    TotalIsMeasure(host, view);
    assert ComputeCutoff(host, view, opts) == k;
    CompactingTries(host, opts, messages, st);
  }

  /**
   * With a character budget, whatever an enabled step shows is within the budget and the longest summary, unless it
   * is no more than a summary and the messages the recency floor protects. Where nothing is protected there is one
   * more exception: a last message that is over the budget by itself.
   */
  lemma EveryViewIsBounded(host: Host, opts: Options, messages: seq<Message>, st: SumState)
    requires opts.enabled && !opts.policy.Turns? && ProviderView(host, opts, messages, st).1.Ok?
    requires st.event.Some? ==> st.event.value.cutoffIndex > 0
    ensures var view := ProviderView(host, opts, messages, st).1.value;
            || |view| <= 1 + opts.minRecentMessages
            || Measure(host, view) <= opts.maxCharBudget + opts.maxSummaryChars + |SUMMARY_TRUNCATED|
            || (opts.minRecentMessages == 0 && Measure(host, view[|view| - 1..]) > opts.maxCharBudget)
  {
    var (st1, r) := ProviderView(host, opts, messages, st);
    var view := Redacted(EffectiveMessages(messages, st.event), opts);
    if st1.events != st.events {
      VisibleWindowIsBounded(host, opts, messages, st);
    } else if EventFits(messages, st) {
      var k := BudgetStepCompactsIff(host, opts, messages, st);
      assert r.value == view;
      if Measure(host, view) > opts.maxCharBudget && |view| > 1 + opts.minRecentMessages {
        assert view[0..] == view;
        assert k == |view|;
      }
    }
  }

  lemma CompactingTries(host: Host, opts: Options, messages: seq<Message>, st: SumState)
    ensures var (st1, r) := ProviderView(host, opts, messages, st);
            && (Tried(st, st1, r) <==> StepCompacts(host, opts, messages, st))
            && (r.Ok? && st1.events != st.events ==>
                  st1.event.Some? && st1.event.value.cutoffIndex == NextCutoff(host, opts, messages, st))
  {
    if StepCompacts(host, opts, messages, st) {
      assert |CompactTo(host, opts, messages, st, NextCutoff(host, opts, messages, st)).0.events| != |st.events|
             || CompactTo(host, opts, messages, st, NextCutoff(host, opts, messages, st)).1.Err?;
    }
  }

  /** Another role than before; an unnamed role at the start is none. */
  predicate TakesOver(messages: seq<Message>, i: nat)
    requires i < |messages|
  {
    messages[i].role != if i == 0 then "" else messages[i - 1].role
  }

  /** The indices at which another role takes over. */
  function Takeovers(messages: seq<Message>): set<nat> {
    set i: nat | i < |messages| && TakesOver(messages, i)
  }

  lemma {:induction false} TurnsAreTakeovers(messages: seq<Message>)
    ensures TurnCount(messages) == |Takeovers(messages)|
  {
    if messages != [] {
      var n := |messages| - 1;
      TurnsAreTakeovers(messages[..n]);
      assert messages == messages[..n] + [messages[n]];
      TurnsAfterSnoc(messages[..n], messages[n], "");
      TakeoversSnoc(messages);
    }
  }

  lemma TakeoversSnoc(messages: seq<Message>)
    requires messages != []
    ensures var n := |messages| - 1;
            |Takeovers(messages)| == |Takeovers(messages[..n])| + if TakesOver(messages, n) then 1 else 0
  {
    var n := |messages| - 1;
    assert forall i: nat :: i < n ==> TakesOver(messages, i) == TakesOver(messages[..n], i);
    assert Takeovers(messages) == Takeovers(messages[..n]) + if TakesOver(messages, n) then {n} else {};
  }

  lemma {:induction false} TurnsAfterSnoc(messages: seq<Message>, m: Message, lastRole: string)
    ensures TurnsAfter(messages + [m], lastRole) == TurnsAfter(messages, lastRole)
              + if m.role != (if messages == [] then lastRole else messages[|messages| - 1].role) then 1 else 0
  {
    if messages == [] {
      assert (messages + [m])[1..] == [];
    } else {
      assert (messages + [m])[1..] == messages[1..] + [m];
      TurnsAfterSnoc(messages[1..], m, messages[0].role);
    }
  }

  /** With a limit on turns, what decides is how often the role changes. */
  lemma TurnStepCompactsIff(host: Host, opts: Options, messages: seq<Message>, st: SumState)
    requires EventFits(messages, st) && opts.policy.Turns?
    ensures var view := Redacted(EffectiveMessages(messages, st.event), opts);
            var k := TurnCutoff(view, opts.maxTurnsVisible, opts.minRecentMessages);
            var (st1, r) := ProviderView(host, opts, messages, st);
            && (Tried(st, st1, r) <==>
                 && ((opts.enabled && |Takeovers(view)| > opts.maxTurnsVisible) || st.force)
                 && 0 < FoldedBack(st.event, k) < |messages|)
            && (r.Ok? && st1.events != st.events ==>
                  st1.event.Some? && st1.event.value.cutoffIndex == FoldedBack(st.event, k))
  {
    TurnsAreTakeovers(Redacted(EffectiveMessages(messages, st.event), opts));
    CompactingTries(host, opts, messages, st);
  }

  /** The tool compacts whatever is large enough, enabled or not. */
  lemma ToolCompactsIff(host: Host, opts: Options, messages: seq<Message>, st: SumState)
    requires EventFits(messages, st)
    ensures var view := Redacted(EffectiveMessages(messages, st.event), opts);
            var (st1, r) := CompactTool(host, opts, messages, st);
            && (Tried(st, st1, r) <==>
                 && Measure(host, view) >= opts.minCompactChars
                 && 0 < FoldedBack(st.event, ComputeCutoff(host, view, opts)) < |messages|)
            && (r.Ok? ==> (r.value.Some? <==> st1.events != st.events))
  {
    TotalIsMeasure(host, Redacted(EffectiveMessages(messages, st.event), opts));
    if ToolCompacts(host, opts, messages, st) {
      assert |CompactTo(host, opts, messages, st, NextCutoff(host, opts, messages, st)).0.events| != |st.events|
             || CompactTo(host, opts, messages, st, NextCutoff(host, opts, messages, st)).1.Err?;
    }
  }

  // ----- what is archived -----

  predicate StandsAt(s: string, part: string, i: nat) {
    i + |part| <= |s| && s[i..i + |part|] == part
  }

  /** A summary of an earlier compaction: it bears the name, or the marker stands somewhere in its text. */
  ghost predicate EarlierSummary(m: Message) {
    m.name == Some("summarization") || exists i: nat :: StandsAt(m.content, "SUMMARY_MESSAGE_V1", i)
  }

  lemma {:induction false} FoundWhereContained(s: string, part: string) returns (i: nat)
    requires Contains(s, part)
    ensures StandsAt(s, part, i)
    decreases |s|
  {
    if s[..|part|] == part {
      i := 0;
    } else {
      var j := FoundWhereContained(s[1..], part);
      i := j + 1;
      assert s[1..][j..j + |part|] == s[i..i + |part|];
    }
  }

  lemma {:induction false} ContainedWhereFound(s: string, part: string, i: nat)
    requires StandsAt(s, part, i)
    ensures Contains(s, part)
    decreases i
  {
    if i > 0 {
      assert s[1..][i - 1..i - 1 + |part|] == s[i..i + |part|];
      ContainedWhereFound(s[1..], part, i - 1);
    }
  }

  lemma SummariesAreMarked(m: Message)
    ensures IsSummaryMessage(m) <==> EarlierSummary(m)
  {
    if Contains(m.content, SUMMARY_MARKER) {
      var _ := FoundWhereContained(m.content, SUMMARY_MARKER);
    }
    forall i: nat | StandsAt(m.content, SUMMARY_MARKER, i) ensures Contains(m.content, SUMMARY_MARKER) {
      ContainedWhereFound(m.content, SUMMARY_MARKER, i);
    }
  }

  /** The positions of the messages that are no summaries. */
  ghost function Proper(messages: seq<Message>): nat -> bool {
    (i: nat) => i < |messages| && !EarlierSummary(messages[i])
  }

  lemma {:induction false} WithoutSummariesIsPick(messages: seq<Message>) returns (at: seq<nat>)
    ensures Lists(at, |messages|, Proper(messages)) && WithoutSummaries(messages) == Pick(messages, at)
  {
    if messages == [] {
      at := [];
    } else {
      var n := |messages| - 1;
      var init := WithoutSummariesIsPick(messages[..n]);
      ListsAgree(init, n, Proper(messages[..n]), Proper(messages));
      at := SnocLists(init, n, Proper(messages));
      SummariesAreMarked(messages[n]);
      WithoutSummariesSplit(messages[..n], [messages[n]]);
      assert messages == messages[..n] + [messages[n]];
      assert [messages[n]][1..] == [];
    }
  }

  /**
   * What a compaction stores: the messages since the last cutoff that are no summaries go to the history store in
   * order, and the event has the new cutoff, a bounded summary message of theirs and the path the store gave back.
   */
  lemma CompactionStores(host: Host, opts: Options, messages: seq<Message>, st: SumState)
    returns (from: nat, to: nat, at: seq<nat>)
    requires EventFits(messages, st) && StepCompacts(host, opts, messages, st)
    ensures from == (if st.event.None? then 0 else st.event.value.cutoffIndex) && from <= to <= |messages|
    ensures Lists(at, to - from, Proper(messages[from..to]))
    ensures var kept := Pick(messages[from..to], at);
            var id := if st.threadId.Some? then st.threadId.value else host.newThreadId;
            var stored := host.persist(id, kept);
            var (st1, r) := ProviderView(host, opts, messages, st);
            && st1.threadId == Some(id) && st1.force == st.force && (r.Err? <==> stored.Err?)
            && (stored.Err? ==> r.error == stored.error && st1 == st.(threadId := Some(id)))
            && (stored.Ok? ==>
                  exists e: SummarizationEvent ::
                    && e.cutoffIndex == to && e.filePath == stored.value
                    && e.summaryMessage == Message("user", TruncateChars(host.summaryText(kept), opts.maxSummaryChars,
                         SUMMARY_TRUNCATED), None, None, None, Some("summarization"), None)
                    && st1.event == Some(e) && st1.events == st.events + [e]
                    && st1.archive == st.archive + [Section(from, to, kept)])
  {
    from, to := PriorCutoff(st.event), NextCutoff(host, opts, messages, st);
    CutoffFolds(host, opts, messages, st);
    at := WithoutSummariesIsPick(messages[from..to]);
    var (st1, r) := CompactTo(host, opts, messages, st, to);
    if r.Ok? {
      assert st1.event == Some(r.value);
    }
  }

  // ----- what redaction changes -----

  /** The value found by going down by positions, in arrays and objects alike. */
  function At(v: Value, path: seq<nat>): Option<Value> {
    if path == [] then Some(v)
    else
      match v
      case Arr(items) => if path[0] < |items| then At(items[path[0]], path[1..]) else None
      case Obj(fields) => if path[0] < |fields| then At(fields[path[0]].value, path[1..]) else None
      case _ => None
  }

  lemma {:induction false} TruncatedItem(items: seq<Value>, maxChars: nat, text: string)
    ensures var out := TruncateItems(items, maxChars, text);
            |out| == |items| && forall i :: 0 <= i < |items| ==> out[i] == TruncateValue(items[i], maxChars, text)
  {
    if items != [] {
      TruncatedItem(items[1..], maxChars, text);
    }
  }

  lemma {:induction false} TruncatedField(fields: seq<Field>, maxChars: nat, text: string)
    ensures var out := TruncateFields(fields, maxChars, text);
            && |out| == |fields|
            && forall i :: 0 <= i < |fields| ==>
                 out[i] == Field(fields[i].key, TruncateValue(fields[i].value, maxChars, text))
  {
    if fields != [] {
      TruncatedField(fields[1..], maxChars, text);
    }
  }

  /** The shortened form of a text: both ends, of as many characters together as allowed, around a notice. */
  ghost predicate Shortened(out: string, s: string, maxChars: nat, text: string) {
    if |s| <= maxChars then out == s
    else
      exists head: string, tail: string, middle: string ::
        && s == head + middle + tail && out == head + text + tail
        && |head| == maxChars / 2 && |head| + |tail| == maxChars
  }

  /** Same shape: two strings of which one is shortened, arrays or objects of equal length, or the same value. */
  ghost predicate ShapeKept(v: Value, w: Value, maxChars: nat, text: string) {
    match v
    case Str(s) => w.Str? && Shortened(w.s, s, maxChars, text)
    case Arr(items) => w.Arr? && |w.items| == |items|
    case Obj(fields) =>
      w.Obj? && |w.fields| == |fields| && forall i :: 0 <= i < |fields| ==> w.fields[i].key == fields[i].key
    case _ => w == v
  }

  /** Shortening reaches every string at any depth and changes nothing else. */
  lemma {:induction false} EveryStringIsShortened(v: Value, maxChars: nat, text: string, path: seq<nat>)
    ensures var a, b := At(v, path), At(TruncateValue(v, maxChars, text), path);
            a.Some? == b.Some? && (a.Some? ==> ShapeKept(a.value, b.value, maxChars, text))
    decreases path
  {
    match v {
      case Arr(items) =>
        TruncatedItem(items, maxChars, text);
        if path != [] && path[0] < |items| {
          EveryStringIsShortened(items[path[0]], maxChars, text, path[1..]);
        }
      case Obj(fields) =>
        TruncatedField(fields, maxChars, text);
        if path != [] && path[0] < |fields| {
          EveryStringIsShortened(fields[path[0]].value, maxChars, text, path[1..]);
        }
      case Str(s) =>
        if path == [] && |s| > maxChars {
          var h := maxChars / 2;
          var t := |s| - (maxChars - h);
          assert s == s[..h] + s[h..t] + s[t..];
        }
      case _ =>
    }
  }

  /** The calls whose arguments may be shortened. */
  predicate Writes(c: ToolCall) {
    c.name in ["write_file", "edit_file", "execute"]
  }

  /**
   * Redaction changes nothing but the arguments of write and execute calls in messages before the last ones, and
   * all of those are shortened.
   */
  lemma RedactionIsNarrow(messages: seq<Message>, opts: Options, i: nat)
    requires i < |messages|
    ensures |Redacted(messages, opts)| == |messages|
    ensures var m, r := messages[i], Redacted(messages, opts)[i];
            && r == m.(toolCalls := r.toolCalls) && r.toolCalls.Some? == m.toolCalls.Some?
            && (m.toolCalls.Some? ==>
                  && |r.toolCalls.value| == |m.toolCalls.value|
                  && forall j :: 0 <= j < |m.toolCalls.value| ==>
                       var c, d := m.toolCalls.value[j], r.toolCalls.value[j];
                       if opts.redactToolArgs && i + opts.keepLast < |messages| && Writes(c)
                       then d == c.(arguments := TruncateValue(c.arguments, opts.maxToolArgChars, opts.truncationText))
                       else d == c)
  {
  }
}
