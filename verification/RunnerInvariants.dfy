/** What holds of the resumable runner in every state its owner can drive it to. */
module RunnerInvariants {
  import opened Wrappers
  import opened Json
  import opened Text
  import opened Types
  import opened ToolCompat
  import opened PatchToolCalls
  import opened RunnerSpec

  // ----- what is asked of the surroundings -----

  /** No middleware edits the history from inside a tool call. */
  ghost predicate KeepsMessages<S(!new)>(env: Env<S>) {
    forall k: nat, call, ms: seq<Message>, s: S ::
      k < |env.middlewares| ==> env.middlewares[k].handleToolCall(call, ms, s).0 == ms
  }

  /** A middleware that reports an error has no output to report. */
  ghost predicate NullOnError<S(!new)>(env: Env<S>) {
    forall k: nat, call, ms: seq<Message>, s: S ::
      k < |env.middlewares| ==>
        var a := env.middlewares[k].handleToolCall(call, ms, s).2;
        a.Ok? && a.value.Some? && a.value.value.error.Some? ==> a.value.value.output == Null
  }

  /**
   * A middleware that meets both: it leaves the history alone
   * inside a tool call and reports no output with an error.
   */
  ghost predicate Tidy<S(!new)>(m: Middleware<S>) {
    forall call, ms: seq<Message>, s: S ::
      var (messages, _, answer) := m.handleToolCall(call, ms, s);
      && messages == ms
      && (answer.Ok? && answer.value.Some? && answer.value.value.error.Some? ==> answer.value.value.output == Null)
  }

  /** What is asked of the middlewares is asked of each by itself, whatever the others are. */
  lemma TidyMiddlewares<S(!new)>(env: Env<S>)
    ensures KeepsMessages(env) && NullOnError(env)
            <==> forall k: nat :: k < |env.middlewares| ==> Tidy(env.middlewares[k])
  {
    if KeepsMessages(env) && NullOnError(env) {
      forall k: nat | k < |env.middlewares| ensures Tidy(env.middlewares[k]) {
        var m := env.middlewares[k];
        forall call, ms: seq<Message>, s: S
          ensures var (messages, _, answer) := m.handleToolCall(call, ms, s);
                  && messages == ms
                  && (answer.Ok? && answer.value.Some? && answer.value.value.error.Some?
                      ==> answer.value.value.output == Null)
        {
          assert env.middlewares[k].handleToolCall(call, ms, s).0 == ms;
        }
      }
    }
  }

  /** Under these the result index can be recomputed from the messages. */
  ghost predicate Recomputable<S(!new)>(env: Env<S>) {
    RoundTrips(env.codec) && KeepsMessages(env) && NullOnError(env)
  }

  /** The start hooks leave no dangling call in any history. */
  ghost predicate StartsPatched<S(!new)>(env: Env<S>) {
    forall ms: seq<Message>, s: S ::
      var r := BeforeRunChain(env.middlewares, ms, s).1; r.Ok? ==> NothingDangling(r.value)
  }

  predicate NoBlankId(calls: seq<ProviderToolCall>) {
    forall c :: c in calls ==> c.callId.Some? ==> !Blank(c.callId.value)
  }

  /** No step that reaches the runner carries a blank id (a missing one is fine). */
  ghost predicate NoBlankIds<S(!new)>(env: Env<S>) {
    forall cv: Conv<S> ::
      var a := AskProvider(env, cv); a.Answer? && a.step.ToolCalls? ==> NoBlankId(a.step.calls)
  }

  /** Under these the runner answers every call it announces. */
  ghost predicate Answering<S(!new)>(env: Env<S>) {
    KeepsMessages(env) && NoBlankIds(env)
  }

  // ----- the invariant -----

  /**
   * Row by row the results found after the seed answer the calls, in order, with the same
   * id and tool; while a call is held its row is the one row without a result.
   */
  ghost predicate Ledger<S>(cv: Conv<S>, seed: nat, held: bool) {
    && |cv.results| + (if held then 1 else 0) == seed + |cv.calls|
    && (held ==> |cv.calls| > 0)
    && (forall i :: 0 <= i < |cv.results| - seed ==>
          && cv.results[seed + i].callId == cv.calls[i].callId
          && cv.results[seed + i].toolName == cv.calls[i].toolName)
  }

  /** The result index is the one that would be recomputed from the messages. */
  ghost predicate Indexed<S>(env: Env<S>, cv: Conv<S>) {
    cv.results == ResultsOf(env.codec, cv.messages)
  }

  /** An edit of a held call that the runner accepts. */
  predicate AcceptedEdit(tool: string, d: HitlDecision, args: Value) {
    d == Edit(args) && EditComplaint(tool, args).None?
  }

  /** What entitles an event to be in the log. */
  ghost predicate Justified<S(!new)>(env: Env<S>, calls: seq<ToolCallRecord>, log: seq<Event<S>>, k: nat)
    requires k < |log|
  {
    match log[k]
    case Dispatched(serial, id, tool, args, state) =>
      && 0 <= serial < |calls|
      && calls[serial].callId == Some(id) && calls[serial].toolName == tool
      && Verdict(env, tool, args, state).Allow?
      && ((Interrupts(env, tool) || args != calls[serial].arguments) ==>
            && k > 0 && log[k - 1].Decided? && log[k - 1].callId == id
            && (|| (log[k - 1].decision == Approve && args == calls[serial].arguments)
                || AcceptedEdit(tool, log[k - 1].decision, args)))
    case Offered(serial, id, tool, args, history, state) =>
      && 0 <= serial < |calls|
      && calls[serial] == ToolCallRecord(tool, args, Some(id))
      && Verdict(env, tool, args, state).Allow? && !Interrupts(env, tool)
    case Paused(id) => true
    case Decided(id, _) => k > 0 && log[k - 1] == Paused(id)
  }

  /** Every event is justified, and dispatches go down the ledger without repeating a row. */
  ghost predicate Audited<S(!new)>(env: Env<S>, cv: Conv<S>, held: bool) {
    && (forall k: nat :: k < |cv.log| ==> Justified(env, cv.calls, cv.log, k))
    && (forall j: nat, k: nat :: j < k < |cv.log| && cv.log[j].Dispatched? && cv.log[k].Dispatched? ==>
          cv.log[j].serial < cv.log[k].serial)
    && (held ==> forall k: nat :: k < |cv.log| && cv.log[k].Dispatched? ==> cv.log[k].serial < |cv.calls| - 1)
  }

  /** The id was already waiting for a tool message when the first run started. */
  ghost predicate Inherited(opening: seq<Message>, id: string) {
    exists i: nat :: Dangling(opening, i, id)
  }

  /** Only these ids, and those inherited from the opening history, may still be waiting for a tool message. */
  ghost predicate OnlyOpen(messages: seq<Message>, opening: seq<Message>, open: set<string>) {
    forall i: nat, id :: Dangling(messages, i, id) ==> id in open || Inherited(opening, id)
  }

  ghost predicate SoundConv<S(!new)>(env: Env<S>, opening: seq<Message>, cv: Conv<S>, held: bool, open: set<string>) {
    && Ledger(cv, |ResultsOf(env.codec, opening)|, held)
    && Audited(env, cv, held)
    && (Recomputable(env) ==> Indexed(env, cv))
    && (Answering(env) ==> OnlyOpen(cv.messages, opening, open))
  }

  /** A call has its row and may have been dispatched, but has no result yet. */
  ghost predicate Midway<S(!new)>(env: Env<S>, opening: seq<Message>, cv: Conv<S>, open: set<string>) {
    && Ledger(cv, |ResultsOf(env.codec, opening)|, true)
    && Audited(env, cv, false)
    && (Recomputable(env) ==> Indexed(env, cv))
    && (Answering(env) ==> OnlyOpen(cv.messages, opening, open))
  }

  /** The last row of the ledger belongs to this id and tool. */
  ghost predicate LastRow<S>(cv: Conv<S>, id: string, tool: string) {
    && |cv.calls| > 0
    && cv.calls[|cv.calls| - 1].callId == Some(id) && cv.calls[|cv.calls| - 1].toolName == tool
  }

  /** The usable ids of a list of calls. */
  ghost function Owed(calls: seq<ProviderToolCall>): set<string> {
    set c | c in calls && c.callId.Some? && !Blank(c.callId.value) :: c.callId.value
  }

  ghost function OpenIds(pending: Option<PendingInterrupt>): set<string> {
    if pending.None? then {} else Owed([pending.value.call] + pending.value.remaining)
  }

  /** The held call is the last row of the ledger and the last thing that was logged. */
  ghost predicate HeldProperly<S>(cv: Conv<S>, p: PendingInterrupt) {
    && p.interrupt == InterruptFor(p.call)
    && p.call.callId.Some? && !Blank(p.call.callId.value)
    && |cv.calls| > 0
    && cv.calls[|cv.calls| - 1] == ToolCallRecord(p.call.toolName, p.call.arguments, p.call.callId)
    && |cv.log| > 0 && cv.log[|cv.log| - 1] == Paused(p.call.callId.value)
  }

  ghost predicate Sound<S(!new)>(env: Env<S>, r: Runner<S>) {
    && (r.pending.Some? ==> r.initialized && HeldProperly(r.conv, r.pending.value))
    && (!r.initialized ==> r.conv.calls == [] && r.conv.results == [] && r.conv.log == [] && r.opening == [])
    && (r.initialized && StartsPatched(env) ==> NothingDangling(r.opening))
    && (r.initialized ==> SoundConv(env, r.opening, r.conv, r.pending.Some?, OpenIds(r.pending)))
  }

  // ----- posting one outcome -----

  /** The message a post appends. */
  function Reported(codec: Codec, id: string, tool: string, status: string, envelope: Value,
                    blocks: Option<seq<ContentBlock>>): Message
  {
    Message("tool", codec.render(envelope), blocks, None, Some(id), Some(tool), Some(status))
  }

  /** The appended message reads back as the appended record. */
  ghost predicate ReadsBack(codec: Codec, id: string, tool: string, output: Value, error: Option<string>,
                            status: string,
                            envelope: Value)
  {
    forall blocks ::
      ResultOf(codec, Reported(codec, id, tool, status, envelope, blocks))
      == Some(ToolResultRecord(tool, Some(id), output, error, Some(status)))
  }

  /** Which envelopes read back: those whose `output` and `error` fields are the recorded ones. */
  lemma EnvelopeReadsBack(codec: Codec, id: string, tool: string, output: Value, error: Option<string>, status: string,
                          envelope: Value)
    requires RoundTrips(codec) && !Blank(id) && envelope.Obj?
    requires Lookup(envelope.fields, "output").GetOr(Null) == output
    requires error.Some? ==> Lookup(envelope.fields, "error") == Some(Str(error.value))
    requires error.None? ==> Lookup(envelope.fields, "error").GetOr(Null) == Null && status != "error"
    ensures ReadsBack(codec, id, tool, output, error, status, envelope)
  {
    forall blocks ensures ResultOf(codec, Reported(codec, id, tool, status, envelope, blocks))
                          == Some(ToolResultRecord(tool, Some(id), output, error, Some(status)))
    {
      assert codec.parse(codec.render(envelope)) == Some(envelope);
    }
  }

  lemma ErrorReadsBack(codec: Codec, id: string, tool: string, err: string)
    requires RoundTrips(codec) && !Blank(id)
    ensures ReadsBack(codec, id, tool, Null, Some(err), "error", ErrorEnvelope(id, tool, err))
  {
    var envelope := ErrorEnvelope(id, tool, err);
    LookupFirst(envelope.fields, "output", 5);
    LookupFirst(envelope.fields, "error", 1);
    EnvelopeReadsBack(codec, id, tool, Null, Some(err), "error", envelope);
  }

  /** A handled call reads back exactly when an error comes without output. */
  lemma HandledReadsBack(codec: Codec, id: string, tool: string, content: string, output: Value, error: Option<string>)
    requires RoundTrips(codec) && !Blank(id)
    ensures var status := if error.Some? then "error" else "success";
            ReadsBack(codec, id, tool, output, error, status, HandledEnvelope(id, tool, status, content, output, error))
            <==> (error.Some? ==> output == Null)
  {
    var status := if error.Some? then "error" else "success";
    var envelope := HandledEnvelope(id, tool, status, content, output, error);
    LookupFirst(envelope.fields, "output", 2);
    LookupFirst(envelope.fields, "error", 1);
    if error.Some? ==> output == Null {
      EnvelopeReadsBack(codec, id, tool, output, error, status, envelope);
    } else {
      assert codec.parse(codec.render(envelope)) == Some(envelope);
      var m := Reported(codec, id, tool, status, envelope, None);
      assert ResultOf(codec, m).value.output == Null;
    }
  }

  lemma SuccessReadsBack(codec: Codec, id: string, tool: string, content: string, output: Value)
    requires RoundTrips(codec) && !Blank(id)
    ensures ReadsBack(codec, id, tool, output, None, "success", SuccessEnvelope(id, tool, content, output))
  {
    var envelope := SuccessEnvelope(id, tool, content, output);
    LookupFirst(envelope.fields, "output", 1);
    LookupFirst(envelope.fields, "error", 5);
    EnvelopeReadsBack(codec, id, tool, output, None, "success", envelope);
  }

  lemma EditedReadsBack(codec: Codec, id: string, tool: string, content: string, output: Value,
                        original: Option<Value>, args: Value)
    requires RoundTrips(codec) && !Blank(id)
    ensures ReadsBack(codec, id, tool, output, None, "edited",
                      EditedEnvelope(id, tool, content, output, original, args))
  {
    var envelope := EditedEnvelope(id, tool, content, output, original, args);
    LookupFirst(envelope.fields, "output", if original.Some? then 4 else 3);
    LookupFirst(envelope.fields, "error", |envelope.fields|);
    EnvelopeReadsBack(codec, id, tool, output, None, "edited", envelope);
  }

  lemma RejectedReadsBack(codec: Codec, id: string, tool: string, err: string)
    requires RoundTrips(codec) && !Blank(id)
    ensures ReadsBack(codec, id, tool, Null, Some(err), "rejected", RejectedEnvelope(id, tool, err))
  {
    var envelope := RejectedEnvelope(id, tool, err);
    LookupFirst(envelope.fields, "output", 2);
    LookupFirst(envelope.fields, "error", 1);
    EnvelopeReadsBack(codec, id, tool, Null, Some(err), "rejected", envelope);
  }

  // ----- what is left open after a message -----

  lemma OnlyOpenAppend(messages: seq<Message>, m: Message, opening: seq<Message>, open: set<string>)
    requires OnlyOpen(messages, opening, open)
    ensures OnlyOpen(messages + [m], opening, open + set c | c in CallsOf(m) :: c.id)
    ensures m.role == "tool" && m.toolCallId.Some? && m.toolCalls.None? ==>
              OnlyOpen(messages + [m], opening, open - {m.toolCallId.value})
  {
    var out := messages + [m];
    forall i: nat, id | Dangling(out, i, id)
      ensures id in open || Inherited(opening, id) || exists c :: c in CallsOf(m) && c.id == id
      ensures m.role == "tool" && m.toolCalls.None?
              ==> (id in open || Inherited(opening, id)) && Some(id) != m.toolCallId
    {
      if i < |messages| {
        assert out[i + 1..] == messages[i + 1..] + [m];
        AnsweredSplit(messages[i + 1..], [m], id);
        assert [m][0] == m;
        assert Dangling(messages, i, id);
      }
    }
  }

  /** At the start everything that waits is inherited; from a clean start nothing is. */
  lemma OpeningIsOnlyOpen(opening: seq<Message>)
    ensures OnlyOpen(opening, opening, {})
    ensures NothingDangling(opening) ==>
              forall messages :: OnlyOpen(messages, opening, {}) ==> NothingDangling(messages)
  {
    forall i: nat, id | Dangling(opening, i, id) ensures Inherited(opening, id) {
    }
  }

  // ----- one post keeps everything -----

  lemma PostSound<S(!new)>(env: Env<S>, opening: seq<Message>, cv: Conv<S>, open: set<string>, id: string,
                           tool: string, output: Value,
                           error: Option<string>, status: string, envelope: Value, blocks: Option<seq<ContentBlock>>)
    requires Midway(env, opening, cv, open)
    requires LastRow(cv, id, tool)
    requires Recomputable(env) ==> ReadsBack(env.codec, id, tool, output, error, status, envelope)
    ensures SoundConv(env, opening, Post(env.codec, cv, id, tool, output, error, status, envelope, blocks), false,
                      open - {id})
  {
    var m := Reported(env.codec, id, tool, status, envelope, blocks);
    var cv1 := Post(env.codec, cv, id, tool, output, error, status, envelope, blocks);
    assert Audited(env, cv1, false) by {
      assert cv1.log == cv.log && cv1.calls == cv.calls;
    }
    if Recomputable(env) {
      ResultsOfAppend(env.codec, cv.messages, [m]);
      assert ResultsOf(env.codec, [m]) == [ToolResultRecord(tool, Some(id), output, error, Some(status))];
    }
    if Answering(env) {
      OnlyOpenAppend(cv.messages, m, opening, open);
    }
  }

  lemma PostErrorSound<S(!new)>(env: Env<S>, opening: seq<Message>, cv: Conv<S>, open: set<string>, id: string,
                                tool: string, err: string)
    requires Midway(env, opening, cv, open) && !Blank(id)
    requires LastRow(cv, id, tool)
    ensures SoundConv(env, opening, PostError(env.codec, cv, id, tool, err), false, open - {id})
  {
    if Recomputable(env) {
      ErrorReadsBack(env.codec, id, tool, err);
    }
    PostSound(env, opening, cv, open, id, tool, Null, Some(err), "error", ErrorEnvelope(id, tool, err), None);
  }

  lemma StateMidway<S(!new)>(env: Env<S>, opening: seq<Message>, cv: Conv<S>, open: set<string>, state: S)
    requires Midway(env, opening, cv, open)
    ensures Midway(env, opening, cv.(state := state), open)
  {
    assert Audited(env, cv.(state := state), false);
  }

  lemma PostHandledSound<S(!new)>(env: Env<S>, opening: seq<Message>, cv: Conv<S>, open: set<string>, id: string,
                                  tool: string,
                                  h: HandledToolCall)
    requires Midway(env, opening, cv, open) && !Blank(id)
    requires LastRow(cv, id, tool)
    requires Recomputable(env) ==> h.error.Some? ==> h.output == Null
    ensures SoundConv(env, opening, PostHandled(env, cv, id, tool, h), false, open - {id})
  {
    if h.error.Some? {
      if Recomputable(env) {
        HandledReadsBack(env.codec, id, tool, h.error.value, h.output, h.error);
      }
      PostSound(env, opening, cv, open, id, tool, h.output, h.error, "error",
                HandledEnvelope(id, tool, "error", h.error.value, h.output, h.error), None);
    } else {
      var (state, output, content) := env.offload(tool, id, h.output, cv.state);
      if Recomputable(env) {
        HandledReadsBack(env.codec, id, tool, content, output, None);
      }
      StateMidway(env, opening, cv, open, state);
      PostSound(env, opening, cv.(state := state), open, id, tool, output, None, "success",
                HandledEnvelope(id, tool, "success", content, output, None), None);
    }
  }

  lemma PostOutputSound<S(!new)>(env: Env<S>, opening: seq<Message>, cv: Conv<S>, open: set<string>, id: string,
                                 tool: string,
                                 out: ToolOutput, edited: Option<Option<Value>>, args: Value)
    requires Midway(env, opening, cv, open) && !Blank(id)
    requires LastRow(cv, id, tool)
    ensures edited.None? ==> SoundConv(env, opening, PostSuccess(env, cv, id, tool, out), false, open - {id})
    ensures edited.Some? ==> SoundConv(env, opening, PostEdited(env, cv, id, tool, out, edited.value, args), false,
                                       open - {id})
  {
    var (state, output, content) := env.offload(tool, id, out.output, cv.state);
    StateMidway(env, opening, cv, open, state);
    if edited.None? {
      if Recomputable(env) {
        SuccessReadsBack(env.codec, id, tool, content, output);
      }
      PostSound(env, opening, cv.(state := state), open, id, tool, output, None, "success",
                SuccessEnvelope(id, tool, content, output), out.blocks);
    } else {
      if Recomputable(env) {
        EditedReadsBack(env.codec, id, tool, content, output, edited.value, args);
      }
      PostSound(env, opening, cv.(state := state), open, id, tool, output, None, "edited",
                EditedEnvelope(id, tool, content, output, edited.value, args), out.blocks);
    }
  }

  lemma PostRejectedSound<S(!new)>(env: Env<S>, opening: seq<Message>, cv: Conv<S>, open: set<string>,
                                   call: ProviderToolCall,
                                   reason: Option<string>)
    requires Midway(env, opening, cv, open)
    requires call.callId.Some? && !Blank(call.callId.value)
    requires LastRow(cv, call.callId.value, call.toolName)
    ensures SoundConv(env, opening, PostRejected(env.codec, cv, call, reason), false, open - {call.callId.value})
  {
    var id, tool := call.callId.value, call.toolName;
    var err := "tool_call_rejected: " + reason.GetOr("rejected");
    if Recomputable(env) {
      RejectedReadsBack(env.codec, id, tool, err);
    }
    PostSound(env, opening, cv, open, id, tool, Null, Some(err), "rejected", RejectedEnvelope(id, tool, err), None);
  }

  // ----- one call -----

  lemma EnterSound<S(!new)>(env: Env<S>, opening: seq<Message>, cv: Conv<S>, open: set<string>, p: Prepared)
    requires SoundConv(env, opening, cv, false, open)
    requires p.call.callId.Some?
    ensures SoundConv(env, opening, Enter(cv, p), true, open)
    ensures LastRow(Enter(cv, p), p.call.callId.value, p.call.toolName)
  {
    var cv1 := Enter(cv, p);
    forall k: nat | k < |cv1.log| ensures Justified(env, cv1.calls, cv1.log, k) {
      assert Justified(env, cv.calls, cv.log, k);
    }
    forall k: nat | k < |cv1.log| && cv1.log[k].Dispatched? ensures cv1.log[k].serial < |cv1.calls| - 1 {
      assert Justified(env, cv.calls, cv.log, k);
    }
  }

  /** What is logged later does not matter. */
  lemma JustifiedStays<S(!new)>(env: Env<S>, calls: seq<ToolCallRecord>, log: seq<Event<S>>, e: Event<S>, k: nat)
    requires k < |log| && Justified(env, calls, log, k)
    ensures Justified(env, calls, log + [e], k)
  {
    assert (log + [e])[k] == log[k] && (k > 0 ==> (log + [e])[k - 1] == log[k - 1]);
  }

  /** Adding a justified event to the log; a dispatch uses up the last row. */
  lemma LogSound<S(!new)>(env: Env<S>, opening: seq<Message>, cv: Conv<S>, open: set<string>, e: Event<S>, state: S)
    requires SoundConv(env, opening, cv, true, open)
    requires Justified(env, cv.calls, cv.log + [e], |cv.log|)
    requires e.Dispatched? ==> e.serial == |cv.calls| - 1
    ensures Midway(env, opening, cv.(log := cv.log + [e], state := state), open)
    ensures !e.Dispatched? ==> SoundConv(env, opening, cv.(log := cv.log + [e], state := state), true, open)
  {
    var log := cv.log + [e];
    forall k: nat | k < |log| ensures Justified(env, cv.calls, log, k) {
      if k < |cv.log| {
        JustifiedStays(env, cv.calls, cv.log, e, k);
      }
    }
    var cv1 := cv.(log := log, state := state);
    assert Audited(env, cv1, false);
  }

  lemma DispatchSound<S(!new)>(env: Env<S>, opening: seq<Message>, cv: Conv<S>, open: set<string>,
                               call: ProviderToolCall, args: Value,
                               edited: Option<Option<Value>>)
    requires SoundConv(env, opening, cv, true, open)
    requires call.callId.Some? && !Blank(call.callId.value) && LastRow(cv, call.callId.value, call.toolName)
    requires Justified(env, cv.calls,
                       cv.log + [Dispatched(|cv.calls| - 1, call.callId.value, call.toolName, args, cv.state)],
                         |cv.log|)
    ensures SoundConv(env, opening, Dispatch(env, cv, call, args, edited), false, open - {call.callId.value})
  {
    var id, tool := call.callId.value, call.toolName;
    var (state, result) := env.tool(tool, args, cv.state);
    var e := Dispatched(|cv.calls| - 1, id, tool, args, cv.state);
    var cv1 := cv.(state := state, log := cv.log + [e]);
    LogSound(env, opening, cv, open, e, state);
    match result {
      case Err(err) =>
        PostErrorSound(env, opening, cv1, open, id, tool, err);
      case Ok(out) =>
        PostOutputSound(env, opening, cv1, open, id, tool, out, edited, args);
    }
  }

  lemma {:induction false} HandleChainTidy<S(!new)>(env: Env<S>, k: nat, call: ProviderToolCall, ms: seq<Message>, s: S)
    requires k <= |env.middlewares|
    ensures KeepsMessages(env) ==> HandleChain(env.middlewares[k..], call, ms, s).0 == ms
    ensures KeepsMessages(env) && NullOnError(env) ==>
              var h := HandleChain(env.middlewares[k..], call, ms, s).2;
              h.Some? && h.value.error.Some? ==> h.value.output == Null
    decreases |env.middlewares| - k
  {
    if k < |env.middlewares| {
      var r := env.middlewares[k].handleToolCall(call, ms, s);
      assert env.middlewares[k..][0] == env.middlewares[k];
      assert env.middlewares[k..][1..] == env.middlewares[k + 1..];
      HandleChainTidy(env, k + 1, call, r.0, r.1);
    }
  }

  lemma OfferAllSound<S(!new)>(env: Env<S>, opening: seq<Message>, cv: Conv<S>, open: set<string>,
                               call: ProviderToolCall)
    requires SoundConv(env, opening, cv, true, open)
    requires call.callId.Some? && !Blank(call.callId.value) && |cv.calls| > 0
    requires cv.calls[|cv.calls| - 1] == ToolCallRecord(call.toolName, call.arguments, call.callId)
    requires Verdict(env, call.toolName, call.arguments, cv.state).Allow? && !Interrupts(env, call.toolName)
    ensures var (cv1, handled) := OfferAll(env, cv, call);
            && SoundConv(env, opening, cv1, true, open) && cv1.calls == cv.calls
            && (Recomputable(env) && handled.Some? && handled.value.error.Some? ==> handled.value.output == Null)
  {
    var (messages, state, handled) := HandleChain(env.middlewares, call, cv.messages, cv.state);
    var e: Event<S> := Offered(|cv.calls| - 1, call.callId.value, call.toolName, call.arguments, cv.messages,
                                   cv.state);
    var offered := if env.middlewares == [] then [] else [e];
    var cv0 := cv.(state := state, log := cv.log + offered);
    assert SoundConv(env, opening, cv0, true, open) by {
      if env.middlewares == [] {
        assert cv0.log == cv.log && cv0 == cv;
      } else {
        LogSound(env, opening, cv, open, e, state);
      }
    }
    assert env.middlewares[0..] == env.middlewares;
    HandleChainTidy(env, 0, call, cv.messages, cv.state);
    var cv1 := cv0.(messages := messages);
    assert Audited(env, cv1, true);
    assert OfferAll(env, cv, call) == (cv1, handled);
  }

  lemma OfferSound<S(!new)>(env: Env<S>, opening: seq<Message>, cv: Conv<S>, open: set<string>, call: ProviderToolCall)
    requires SoundConv(env, opening, cv, true, open)
    requires call.callId.Some? && !Blank(call.callId.value) && |cv.calls| > 0
    requires cv.calls[|cv.calls| - 1] == ToolCallRecord(call.toolName, call.arguments, call.callId)
    requires Verdict(env, call.toolName, call.arguments, cv.state).Allow? && !Interrupts(env, call.toolName)
    ensures match OfferThenDispatch(env, cv, call)
            case Done(cv1) => SoundConv(env, opening, cv1, false, open - {call.callId.value})
            case Held(cv1, c) => c == call && cv1.calls == cv.calls && SoundConv(env, opening, cv1, true, open)
  {
    var id, tool := call.callId.value, call.toolName;
    var (cv1, handled) := OfferAll(env, cv, call);
    OfferAllSound(env, opening, cv, open, call);
    if handled.Some? {
      PostHandledSound(env, opening, cv1, open, id, tool, handled.value);
    } else {
      match Verdict(env, tool, call.arguments, cv1.state) {
        case Deny(code, reason) =>
          PostErrorSound(env, opening, cv1, open, id, tool, NotAllowed(code, reason));
        case RequireApproval(_, _) =>
        case Allow =>
          DispatchSound(env, opening, cv1, open, call, call.arguments, None);
      }
    }
  }

  lemma ExecOneSound<S(!new)>(env: Env<S>, opening: seq<Message>, cv: Conv<S>, open: set<string>, guard: bool,
                              call0: ProviderToolCall)
    requires SoundConv(env, opening, cv, false, open)
    ensures var p := PrepareCall(env.codec, call0, cv.nextId);
            match ExecOne(env, guard, call0, cv)
            case Done(cv1) => SoundConv(env, opening, cv1, false, open - Owed([call0]))
            case Held(cv1, call) =>
              && call == p.call && call.callId.Some? && !Blank(call.callId.value)
              && Owed([call0]) <= Owed([call])
              && cv1.calls == cv.calls + [ToolCallRecord(call.toolName, call.arguments, call.callId)]
              && SoundConv(env, opening, cv1, true, open)
  {
    var p := PrepareCall(env.codec, call0, cv.nextId);
    PreparedIsRunnable(env.codec, call0, cv.nextId);
    var id, tool := p.call.callId.value, p.call.toolName;
    var cv1 := Enter(cv, p);
    EnterSound(env, opening, cv, open, p);
    assert Owed([call0]) <= {id};
    assert p.call in [p.call] && id in Owed([p.call]);
    Shrink(env, opening, ExecOne(env, guard, call0, cv), open - {id}, open - Owed([call0]));
    if p.error.Some? {
      PostErrorSound(env, opening, cv1, open, id, tool, ArgumentsErrorText(p.error.value));
    } else if guard && tool == "write_todos" {
      PostErrorSound(env, opening, cv1, open, id, tool, TODOS_IN_PARALLEL);
    } else {
      match Verdict(env, tool, p.call.arguments, cv1.state) {
        case Deny(code, reason) =>
          PostErrorSound(env, opening, cv1, open, id, tool, NotAllowed(code, reason));
        case RequireApproval(_, _) =>
        case Allow =>
          if !Interrupts(env, tool) {
            OfferSound(env, opening, cv1, open, p.call);
          }
      }
    }
  }

  /** A smaller set of open ids is the stronger claim. */
  lemma Shrink<S(!new)>(env: Env<S>, opening: seq<Message>, r: CallResult<S>, small: set<string>, large: set<string>)
    requires small <= large
    ensures SoundConv(env, opening, r.conv, false, small) ==> SoundConv(env, opening, r.conv, false, large)
  {
  }

  // ----- a batch -----

  lemma OwedSplit(queue: seq<ProviderToolCall>)
    requires queue != []
    ensures Owed(queue) == Owed([queue[0]]) + Owed(queue[1..])
  {
    assert queue == [queue[0]] + queue[1..];
  }

  /** Draining a queue keeps everything; what was owed is answered, or still waits in the pending interrupt. */
  lemma {:induction false} ExecQueueSound<S(!new)>(env: Env<S>, opening: seq<Message>, cv: Conv<S>, guard: bool,
                                                   queue: seq<ProviderToolCall>)
    requires SoundConv(env, opening, cv, false, Owed(queue))
    ensures var (cv1, p) := ExecQueue(env, guard, queue, cv);
            && SoundConv(env, opening, cv1, p.Some?, OpenIds(p))
            && (p.Some? ==> HeldProperly(cv1, p.value))
    decreases |queue|
  {
    if queue != [] {
      OwedSplit(queue);
      var open := Owed(queue);
      ExecOneSound(env, opening, cv, open, guard, queue[0]);
      match ExecOne(env, guard, queue[0], cv) {
        case Done(cv1) =>
          assert open - Owed([queue[0]]) <= Owed(queue[1..]);
          Shrink(env, opening, Done(cv1), open - Owed([queue[0]]), Owed(queue[1..]));
          ExecQueueSound(env, opening, cv1, guard, queue[1..]);
        case Held(cv1, call) =>
          var p := PendingInterrupt(InterruptFor(call), call, queue[1..]);
          var e: Event<S> := Paused(call.callId.value);
          OwedSplit([call] + queue[1..]);
          assert ([call] + queue[1..])[1..] == queue[1..];
          assert open <= OpenIds(Some(p));
          LogSound(env, opening, cv1, open, e, cv1.state);
      }
    }
  }

  lemma RunBatchSound<S(!new)>(env: Env<S>, r: Runner<S>, calls: seq<ProviderToolCall>)
    requires r.initialized && r.pending.None?
    requires StartsPatched(env) ==> NothingDangling(r.opening)
    requires SoundConv(env, r.opening, r.conv, false, Owed(calls))
    ensures match RunBatch(env, r, calls)
            case Stop(r1, _) => Sound(env, r1) && r1.initialized && r1.pending.Some?
            case Go(r1) => Sound(env, r1) && r1.initialized && r1.pending.None?
  {
    ExecQueueSound(env, r.opening, r.conv, TodoCount(calls) > 1, calls);
  }

  // ----- a provider step -----

  lemma AnnounceSound<S(!new)>(env: Env<S>, opening: seq<Message>, cv: Conv<S>, calls: seq<ProviderToolCall>,
                               nextId: nat)
    requires SoundConv(env, opening, cv, false, {})
    requires forall c :: c in calls ==> c.callId.Some?
    requires Answering(env) ==> NoBlankId(calls)
    ensures SoundConv(env, opening, cv.(nextId := nextId, messages := cv.messages + [Announce(calls)]), false,
                      Owed(calls))
  {
    var m := Announce(calls);
    var cv1 := cv.(nextId := nextId, messages := cv.messages + [m]);
    assert Audited(env, cv1, false);
    if Recomputable(env) {
      ResultsOfAppend(env.codec, cv.messages, [m]);
    }
    if Answering(env) {
      OnlyOpenAppend(cv.messages, m, opening, {});
      forall c | c in CallsOf(m) ensures c.id in Owed(calls) {
        var k :| 0 <= k < |CallsOf(m)| && CallsOf(m)[k] == c;
        assert calls[k] in calls;
      }
    }
  }

  lemma PlainSound<S(!new)>(env: Env<S>, opening: seq<Message>, cv: Conv<S>, held: bool, open: set<string>,
                            role: string, text: string)
    requires SoundConv(env, opening, cv, held, open) && role != "tool"
    ensures SoundConv(env, opening, cv.(messages := cv.messages + [Plain(role, text)]), held, open)
  {
    var m := Plain(role, text);
    var cv1 := cv.(messages := cv.messages + [m]);
    assert Audited(env, cv1, held);
    if Recomputable(env) {
      ResultsOfAppend(env.codec, cv.messages, [m]);
    }
    if Answering(env) {
      OnlyOpenAppend(cv.messages, m, opening, open);
      assert open + (set c | c in CallsOf(m) :: c.id) == open;
    }
  }

  /** A change of state or id counter touches nothing that the invariant speaks of. */
  lemma ElsewhereSound<S(!new)>(env: Env<S>, opening: seq<Message>, cv: Conv<S>, held: bool, open: set<string>,
                                state: S, nextId: nat)
    requires SoundConv(env, opening, cv, held, open)
    ensures SoundConv(env, opening, cv.(state := state, nextId := nextId), held, open)
  {
    assert Audited(env, cv.(state := state, nextId := nextId), held);
  }

  /** Asking the provider changes only the state and the id counter. */
  lemma AskingIsElsewhere<S(!new)>(env: Env<S>, cv: Conv<S>)
    ensures var a := AskProvider(env, cv);
            a.conv == cv.(state := a.conv.state, nextId := a.conv.nextId)
  {
  }

  lemma ActSound<S(!new)>(env: Env<S>, r: Runner<S>, step: ProviderStep, k: nat)
    requires Sound(env, r) && r.initialized && r.pending.None?
    requires Answering(env) && step.ToolCalls? ==> NoBlankId(step.calls)
    ensures match Act(env, r, step, k)
            case Stop(r1, _) => Sound(env, r1) && r1.initialized
            case Go(r1) => Sound(env, r1) && r1.initialized && r1.pending.None?
  {
    var cv := r.conv;
    match step {
      case AssistantMessage(text) =>
        PlainSound(env, r.opening, cv, false, {}, "assistant", text);
      case FinalText(_) =>
      case StepError(_, _) =>
      case SkillCall(name, input, callId) =>
        var (state, expanded) := env.skill(name, input, callId, cv.state);
        var r1 := r.(conv := cv.(state := state));
        ElsewhereSound(env, r.opening, cv, false, {}, state, cv.nextId);
        if expanded.Ok? {
          Shrink(env, r.opening, Done(r1.conv), {}, Owed(expanded.value));
          RunBatchSound(env, r1, expanded.value);
        }
      case ToolCalls(calls0) =>
        var (calls, nextId) := NormalizedCalls(env.codec, calls0, cv.nextId);
        NormalizedCallsAreSettled(env.codec, calls0, cv.nextId);
        AnnounceSound(env, r.opening, cv, calls, nextId);
        RunBatchSound(env, r.(conv := cv.(nextId := nextId, messages := cv.messages + [Announce(calls)])), calls);
    }
  }

  lemma TurnSound<S(!new)>(env: Env<S>, r: Runner<S>, k: nat)
    requires Sound(env, r) && r.initialized && r.pending.None?
    ensures match Turn(env, r, k)
            case Stop(r1, _) => Sound(env, r1) && r1.initialized
            case Go(r1) => Sound(env, r1) && r1.initialized && r1.pending.None?
  {
    AskingIsElsewhere(env, r.conv);
    var a := AskProvider(env, r.conv);
    ElsewhereSound(env, r.opening, r.conv, false, {}, a.conv.state, a.conv.nextId);
    if a.Answer? {
      ActSound(env, r.(conv := a.conv), a.step, k);
    }
  }

  lemma {:induction false} RunLoopSound<S(!new)>(env: Env<S>, r: Runner<S>, k: nat)
    requires Sound(env, r) && r.initialized && r.pending.None?
    ensures Sound(env, RunLoop(env, r, k).0) && RunLoop(env, r, k).0.initialized
    decreases env.maxSteps - k
  {
    if k < env.maxSteps {
      TurnSound(env, r, k);
      match Turn(env, r, k) {
        case Stop(r1, _) =>
          assert RunLoop(env, r, k).0 == r1;
        case Go(r1) =>
          RunLoopSound(env, r1, k + 1);
          assert RunLoop(env, r, k) == RunLoop(env, r1, k + 1);
      }
    }
  }

  lemma InitializeSound<S(!new)>(env: Env<S>, r: Runner<S>)
    requires Sound(env, r) && r.pending.None? && !r.initialized
    ensures match Initialize(env, r)
            case Stop(r1, _) => Sound(env, r1)
            case Go(r1) => Sound(env, r1) && r1.initialized && r1.pending.None?
  {
    var i := Initialize(env, r);
    if i.Go? {
      OpeningIsOnlyOpen(i.runner.opening);
    }
  }

  lemma RunSound<S(!new)>(env: Env<S>, r: Runner<S>)
    requires Sound(env, r)
    ensures Sound(env, Run(env, r).0)
  {
    if r.pending.None? {
      if r.initialized {
        RunLoopSound(env, r, 0);
      } else {
        InitializeSound(env, r);
        var i := Initialize(env, r);
        if i.Go? {
          RunLoopSound(env, i.runner, 0);
        }
      }
    }
  }

  lemma SettleSound<S(!new)>(env: Env<S>, r: Runner<S>, decision: HitlDecision)
    requires Sound(env, r) && r.pending.Some?
    requires decision.Edit? ==> EditComplaint(r.pending.value.call.toolName, decision.args).None?
    ensures SoundConv(env, r.opening, Settle(env, r.conv, r.pending.value, decision), false,
                      Owed(r.pending.value.remaining))
  {
    var p := r.pending.value;
    var id, tool := p.call.callId.value, p.call.toolName;
    var open := OpenIds(r.pending);
    var e: Event<S> := Decided(id, decision);
    var cv := r.conv.(log := r.conv.log + [e]);
    LogSound(env, r.opening, r.conv, open, e, r.conv.state);
    OwedSplit([p.call] + p.remaining);
    assert ([p.call] + p.remaining)[1..] == p.remaining;
    assert open - {id} <= Owed(p.remaining);
    match decision {
      case Approve =>
        PendingSound(env, r.opening, cv, open, p.call, None, None);
      case Reject(reason) =>
        PostRejectedSound(env, r.opening, cv, open, p.call, reason);
      case Edit(args) =>
        PendingSound(env, r.opening, cv, open, p.call, Some(args), Some(p.interrupt.proposedArgs));
    }
    Shrink(env, r.opening, Done(Settle(env, r.conv, p, decision)), open - {id}, Owed(p.remaining));
  }

  lemma PendingSound<S(!new)>(env: Env<S>, opening: seq<Message>, cv: Conv<S>, open: set<string>,
                              call: ProviderToolCall,
                              edited: Option<Value>, original: Option<Value>)
    requires SoundConv(env, opening, cv, true, open)
    requires call.callId.Some? && !Blank(call.callId.value)
    requires cv.calls[|cv.calls| - 1] == ToolCallRecord(call.toolName, call.arguments, call.callId)
    requires |cv.log| > 0 && cv.log[|cv.log| - 1].Decided? && cv.log[|cv.log| - 1].callId == call.callId.value
    requires var d := cv.log[|cv.log| - 1].decision;
             if edited.Some? then AcceptedEdit(call.toolName, d, edited.value) else d == Approve
    ensures SoundConv(env, opening, ExecutePending(env, cv, call, edited, original), false, open - {call.callId.value})
  {
    var id, tool := call.callId.value, call.toolName;
    var args := edited.GetOr(call.arguments);
    match Verdict(env, tool, args, cv.state) {
      case Deny(code, reason) =>
        PostErrorSound(env, opening, cv, open, id, tool, NotAllowed(code, reason));
      case RequireApproval(code, reason) =>
        PostErrorSound(env, opening, cv, open, id, tool, NotAllowed(code, reason));
      case Allow =>
        DispatchSound(env, opening, cv, open, call, args, if edited.Some? then Some(original) else None);
    }
  }

  lemma ResumeSound<S(!new)>(env: Env<S>, r: Runner<S>, interruptId: string, decision: HitlDecision)
    requires Sound(env, r)
    ensures Sound(env, Resume(env, r, interruptId, decision).0)
  {
    if r.pending.Some? && r.pending.value.interrupt.interruptId == interruptId
       && (decision.Edit? ==> EditComplaint(r.pending.value.call.toolName, decision.args).None?) {
      var p := r.pending.value;
      SettleSound(env, r, decision);
      var r1 := r.(conv := Settle(env, r.conv, p, decision), pending := None);
      RunBatchSound(env, r1, p.remaining);
      var b := RunBatch(env, r1, p.remaining);
      if b.Go? {
        RunSound(env, b.runner);
      }
    }
  }

  lemma ReactSound<S(!new)>(env: Env<S>, r: Runner<S>, input: Input)
    requires Sound(env, r)
    ensures Sound(env, React(env, r, input))
  {
    match input {
      case RunInput => RunSound(env, r);
      case ResumeInput(id, decision) => ResumeSound(env, r, id, decision);
      case UserInput(text) =>
        if r.initialized {
          PlainSound(env, r.opening, r.conv, r.pending.Some?, OpenIds(r.pending), "user", text);
        }
    }
  }

  /** The invariant holds in every reachable state. */
  lemma {:induction false} DriveSound<S(!new)>(env: Env<S>, r: Runner<S>, inputs: seq<Input>)
    requires Sound(env, r)
    ensures Sound(env, Drive(env, r, inputs))
    decreases |inputs|
  {
    if inputs != [] {
      ReactSound(env, r, inputs[0]);
      DriveSound(env, React(env, r, inputs[0]), inputs[1..]);
    }
  }
}
