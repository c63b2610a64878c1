/** The promises of the resumable runner, over every run its owner can make. */
module RunnerTheorems {
  import opened Wrappers
  import opened Json
  import opened Text
  import opened Types
  import opened ToolCompat
  import opened PatchToolCalls
  import opened RunnerSpec
  import opened RunnerInvariants

  /** Reachable states: a fresh runner driven by any sequence of run, resume and user input. */
  ghost function After<S>(env: Env<S>, messages: seq<Message>, state: S, inputs: seq<Input>): Runner<S> {
    Drive(env, Fresh(messages, state), inputs)
  }

  lemma ReachableIsSound<S(!new)>(env: Env<S>, messages: seq<Message>, state: S, inputs: seq<Input>)
    ensures Sound(env, After(env, messages, state, inputs))
  {
    DriveSound(env, Fresh(messages, state), inputs);
  }

  // ----- the result index -----

  /** The incrementally kept results are the ones that would be recomputed from the messages. */
  lemma IndexEqualsRecomputation<S(!new)>(env: Env<S>, messages: seq<Message>, state: S, inputs: seq<Input>)
    requires Recomputable(env)
    ensures var r := After(env, messages, state, inputs);
            r.initialized ==> r.conv.results == ResultsOf(env.codec, r.conv.messages)
  {
    ReachableIsSound(env, messages, state, inputs);
  }

  /** One handled call keeps the index exact if and only if an error comes without output. */
  lemma HandledKeepsIndexIff<S(!new)>(env: Env<S>, cv: Conv<S>, id: string, tool: string, h: HandledToolCall)
    requires RoundTrips(env.codec) && !Blank(id) && Indexed(env, cv)
    ensures Indexed(env, PostHandled(env, cv, id, tool, h)) <==> (h.error.Some? ==> h.output == Null)
  {
    var (state, output, content) := env.offload(tool, id, h.output, cv.state);
    var recorded := if h.error.Some? then h.output else output;
    var text := if h.error.Some? then h.error.value else content;
    var status := if h.error.Some? then "error" else "success";
    HandledReadsBack(env.codec, id, tool, text, recorded, h.error);
    var envelope := HandledEnvelope(id, tool, status, text, recorded, h.error);
    var m := Reported(env.codec, id, tool, status, envelope, None);
    ResultsOfAppend(env.codec, cv.messages, [m]);
    assert env.codec.parse(env.codec.render(envelope)) == Some(envelope);
    var result := ResultOf(env.codec, m);
    assert result.Some?;
    assert ResultsOf(env.codec, [m]) == [result.value];
    LookupFirst(envelope.fields, "output", 2);
    var record := ToolResultRecord(tool, Some(id), recorded, h.error, Some(status));
    assert PostHandled(env, cv, id, tool, h).results == cv.results + [record];
    assert (cv.results + [record])[|cv.results|] == record;
    assert (cv.results + [result.value])[|cv.results|] == result.value;
  }

  /** A posted message, reduced to its role and text, and the message as the runner posts it. */
  ghost predicate Recoverable(codec: Codec, id: string, tool: string, status: string, envelope: Value) {
    NormalizeMessage(codec, Plain("tool", codec.render(envelope))) == Reported(codec, id, tool, status, envelope, None)
  }

  lemma EnvelopeIsRecoverable(codec: Codec, id: string, tool: string, status: string, envelope: Value, i: nat)
    requires RoundTrips(codec) && envelope.Obj? && i + 3 <= |envelope.fields|
    requires envelope.fields[i..i + 3] == [Field("status", Str(status)), Field("tool_call_id", Str(id)),
                                           Field("tool_name", Str(tool))]
    requires forall k :: 0 <= k < i ==> envelope.fields[k].key !in ["status", "tool_call_id", "tool_name", "name"]
    ensures Recoverable(codec, id, tool, status, envelope)
  {
    var fields := envelope.fields;
    assert fields[i] == fields[i..i + 3][0] && fields[i + 1] == fields[i..i + 3][1]
           && fields[i + 2] == fields[i..i + 3][2];
    LookupFirst(fields, "status", i);
    LookupFirst(fields, "tool_call_id", i + 1);
    LookupFirst(fields, "tool_name", i + 2);
    assert codec.parse(codec.render(envelope)) == Some(envelope);
    assert FirstString(fields, ID_KEYS) == Some(id);
    assert FirstString(fields, ["tool_name", "name"]) == Some(tool);
    assert FirstString(fields, ["status"]) == Some(status);
  }

  /** Text alone recovers a refusal or failure the runner posted: normalisation finds its id, tool and status again. */
  lemma TextRecoversRefusal(codec: Codec, id: string, tool: string, text: string)
    requires RoundTrips(codec)
    ensures Recoverable(codec, id, tool, "error", ErrorEnvelope(id, tool, text))
    ensures Recoverable(codec, id, tool, "rejected", RejectedEnvelope(id, tool, text))
  {
    EnvelopeIsRecoverable(codec, id, tool, "error", ErrorEnvelope(id, tool, text), 2);
    EnvelopeIsRecoverable(codec, id, tool, "rejected", RejectedEnvelope(id, tool, text), 3);
  }

  /** The same for what a middleware answers. */
  lemma TextRecoversHandled(codec: Codec, id: string, tool: string, text: string, output: Value)
    requires RoundTrips(codec)
    ensures Recoverable(codec, id, tool, "error", HandledEnvelope(id, tool, "error", text, output, Some(text)))
    ensures Recoverable(codec, id, tool, "success", HandledEnvelope(id, tool, "success", text, output, None))
  {
    EnvelopeIsRecoverable(codec, id, tool, "error", HandledEnvelope(id, tool, "error", text, output, Some(text)), 3);
    EnvelopeIsRecoverable(codec, id, tool, "success", HandledEnvelope(id, tool, "success", text, output, None), 3);
  }

  /** The same for what a tool answers, edited or not. */
  lemma TextRecoversOutput(codec: Codec, id: string, tool: string, text: string, output: Value, original: Option<Value>,
                           args: Value)
    requires RoundTrips(codec)
    ensures Recoverable(codec, id, tool, "success", SuccessEnvelope(id, tool, text, output))
    ensures Recoverable(codec, id, tool, "edited", EditedEnvelope(id, tool, text, output, original, args))
  {
    EnvelopeIsRecoverable(codec, id, tool, "success", SuccessEnvelope(id, tool, text, output), 2);
    var edited := EditedEnvelope(id, tool, text, output, original, args);
    EnvelopeIsRecoverable(codec, id, tool, "edited", edited, |edited.fields| - 3);
  }

  // ----- the ledgers -----

  /**
   * Every call has exactly one result, in order and under the same id and tool, except the
   * one call that is being held for review.
   */
  lemma EveryCallHasOneResult<S(!new)>(env: Env<S>, messages: seq<Message>, state: S, inputs: seq<Input>)
    ensures var r := After(env, messages, state, inputs);
            var seed := |ResultsOf(env.codec, r.opening)|;
            && seed <= |r.conv.results|
            && |r.conv.calls| - (|r.conv.results| - seed) == (if r.pending.Some? then 1 else 0)
            && (forall i :: 0 <= i < |r.conv.results| - seed ==>
                  && r.conv.results[seed + i].callId == r.conv.calls[i].callId
                  && r.conv.results[seed + i].toolName == r.conv.calls[i].toolName)
            && (r.pending.Some? ==>
                  var p := r.pending.value;
                  && r.conv.calls[|r.conv.calls| - 1]
                     == ToolCallRecord(p.call.toolName, p.call.arguments, Some(p.interrupt.interruptId))
                  && p.interrupt.proposedArgs == p.call.arguments && p.interrupt.toolName == p.call.toolName
                  && p.interrupt.toolCallId == p.interrupt.interruptId)
  {
    ReachableIsSound(env, messages, state, inputs);
  }

  /** No call is dispatched twice, and a held call has not been dispatched. */
  lemma NoCallIsDispatchedTwice<S(!new)>(env: Env<S>, messages: seq<Message>, state: S, inputs: seq<Input>, j: nat,
                                         k: nat)
    requires var log := After(env, messages, state, inputs).conv.log;
             j < |log| && k < |log| && log[j].Dispatched? && log[k].Dispatched?
    ensures var r := After(env, messages, state, inputs);
            && (r.conv.log[j].serial == r.conv.log[k].serial ==> j == k)
            && (r.pending.Some? ==> r.conv.log[k].serial != |r.conv.calls| - 1)
  {
    ReachableIsSound(env, messages, state, inputs);
  }

  // ----- gating -----

  /** The command the policy is asked about: the text under `command`, or nothing. */
  function CommandText(args: Value): string {
    match Get(args, "command")
    case Some(Str(s)) => s
    case _ => ""
  }

  lemma CommandIsItsText(args: Value)
    ensures CommandOf(args) == CommandText(args)
  {
  }

  /** The fields that a call of this tool must have as strings. */
  predicate Demands(tool: string, key: string) {
    || (tool == "write_file" && key in ["file_path", "content"])
    || (tool == "edit_file" && key in ["file_path", "old_string", "new_string"])
    || (tool in ["delete_file", "read_file"] && key == "file_path")
    || (tool == "execute" && key == "command")
  }

  ghost predicate Acceptable(tool: string, args: Value) {
    args.Obj? && forall key :: Demands(tool, key) ==> AsStr(Get(args, key)).Some?
  }

  lemma {:induction false} FirstMissing(args: Value, keys: seq<string>)
    ensures match MissingField(args, keys)
            case None => forall i :: 0 <= i < |keys| ==> AsStr(Get(args, keys[i])).Some?
            case Some(key) => key in keys && AsStr(Get(args, key)).None?
  {
    if keys != [] {
      FirstMissing(args, keys[1..]);
      assert MissingField(args, keys[1..]).None? ==> forall i :: 0 < i < |keys| ==> keys[i] == keys[1..][i - 1];
    }
  }

  lemma RequiredAreDemanded(tool: string, key: string)
    ensures key in RequiredFields(tool) <==> Demands(tool, key)
  {
  }

  /** Edited arguments are accepted exactly when they are an object with every field the tool demands. */
  lemma EditAcceptedIff(tool: string, args: Value)
    ensures EditComplaint(tool, args).None? <==> Acceptable(tool, args)
  {
    FirstMissing(args, RequiredFields(tool));
    forall key ensures key in RequiredFields(tool) <==> Demands(tool, key) {
      RequiredAreDemanded(tool, key);
    }
  }

  /**
   * A dispatched tool call is a row of the ledger; the approval policy allowed the very
   * arguments that ran; and if the tool is one to interrupt on, or the arguments are not
   * the proposed ones, a reviewer decided so just before, naming the call's id, and the
   * decision itself answers the pause for that id.
   */
  lemma DispatchesAreGated<S(!new)>(env: Env<S>, messages: seq<Message>, state: S, inputs: seq<Input>, k: nat)
    requires var log := After(env, messages, state, inputs).conv.log; k < |log| && log[k].Dispatched?
    ensures var r := After(env, messages, state, inputs);
            var e := r.conv.log[k];
            && 0 <= e.serial < |r.conv.calls|
            && r.conv.calls[e.serial].toolName == e.tool && r.conv.calls[e.serial].callId == Some(e.callId)
            && (e.tool == "execute" && env.approval.Some? ==>
                  env.approval.value(CommandText(e.args), e.state) == Allow)
            && ((e.tool in env.interruptOn && env.interruptOn[e.tool]) || e.args != r.conv.calls[e.serial].arguments ==>
                  && k >= 2
                  && r.conv.log[k - 2] == Paused(e.callId)
                  && (|| (r.conv.log[k - 1] == Decided(e.callId, Approve) && e.args == r.conv.calls[e.serial].arguments)
                      || (r.conv.log[k - 1] == Decided(e.callId, Edit(e.args)) && Acceptable(e.tool, e.args))))
  {
    ReachableIsSound(env, messages, state, inputs);
    var r := After(env, messages, state, inputs);
    CommandIsItsText(r.conv.log[k].args);
    EditAcceptedIff(r.conv.log[k].tool, r.conv.log[k].args);
    assert Justified(env, r.conv.calls, r.conv.log, k);
    if k > 0 {
      assert Justified(env, r.conv.calls, r.conv.log, k - 1);
    }
  }

  /** Middlewares never see a call of a tool to interrupt on, nor an `execute` the policy does not allow. */
  lemma OffersAreGated<S(!new)>(env: Env<S>, messages: seq<Message>, state: S, inputs: seq<Input>, k: nat)
    requires var log := After(env, messages, state, inputs).conv.log; k < |log| && log[k].Offered?
    ensures var e := After(env, messages, state, inputs).conv.log[k];
            && !(e.tool in env.interruptOn && env.interruptOn[e.tool])
            && (e.tool == "execute" && env.approval.Some? ==>
                  env.approval.value(CommandText(e.args), e.state) == Allow)
  {
    ReachableIsSound(env, messages, state, inputs);
    var r := After(env, messages, state, inputs);
    CommandIsItsText(r.conv.log[k].args);
    assert Justified(env, r.conv.calls, r.conv.log, k);
  }

  // ----- nothing recorded is taken back -----

  /** Ledgers and log only grow, and so does the history when middlewares leave it alone. */
  ghost predicate Grows<S(!new)>(env: Env<S>, a: Conv<S>, b: Conv<S>) {
    && a.calls <= b.calls && a.results <= b.results && a.log <= b.log
    && (KeepsMessages(env) ==> a.messages <= b.messages)
  }

  lemma GrowsOn<S(!new)>(env: Env<S>, a: Conv<S>, b: Conv<S>, c: Conv<S>)
    requires Grows(env, a, b) && Grows(env, b, c)
    ensures Grows(env, a, c)
  {
  }

  lemma PostErrorGrows<S(!new)>(env: Env<S>, cv: Conv<S>, id: string, tool: string, err: string)
    ensures Grows(env, cv, PostError(env.codec, cv, id, tool, err))
  {
  }

  lemma OfferGrows<S(!new)>(env: Env<S>, cv: Conv<S>, call: ProviderToolCall)
    ensures Grows(env, cv, OfferThenDispatch(env, cv, call).conv)
  {
    assert env.middlewares[0..] == env.middlewares;
    HandleChainTidy(env, 0, call, cv.messages, cv.state);
  }

  lemma ExecOneGrows<S(!new)>(env: Env<S>, guard: bool, call0: ProviderToolCall, cv: Conv<S>)
    ensures Grows(env, cv, ExecOne(env, guard, call0, cv).conv)
  {
    var p := PrepareCall(env.codec, call0, cv.nextId);
    var id, tool := p.call.callId.GetOr(""), p.call.toolName;
    var cv1 := Enter(cv, p);
    if p.error.Some? {
      PostErrorGrows(env, cv1, id, tool, ArgumentsErrorText(p.error.value));
    } else if guard && tool == "write_todos" {
      PostErrorGrows(env, cv1, id, tool, TODOS_IN_PARALLEL);
    } else {
      var verdict := Verdict(env, tool, p.call.arguments, cv1.state);
      if verdict.Deny? {
        PostErrorGrows(env, cv1, id, tool, NotAllowed(verdict.code, verdict.reason));
      } else {
        OfferGrows(env, cv1, p.call);
      }
    }
  }

  lemma {:induction false} ExecQueueGrows<S(!new)>(env: Env<S>, guard: bool, queue: seq<ProviderToolCall>, cv: Conv<S>)
    ensures Grows(env, cv, ExecQueue(env, guard, queue, cv).0)
    decreases |queue|
  {
    if queue != [] {
      ExecOneGrows(env, guard, queue[0], cv);
      var r := ExecOne(env, guard, queue[0], cv);
      if r.Done? {
        ExecQueueGrows(env, guard, queue[1..], r.conv);
      }
    }
  }

  lemma ActGrows<S(!new)>(env: Env<S>, r: Runner<S>, step: ProviderStep, k: nat)
    ensures Grows(env, r.conv, Act(env, r, step, k).runner.conv)
  {
    match step {
      case SkillCall(name, input, callId) =>
        var (state, expanded) := env.skill(name, input, callId, r.conv.state);
        if expanded.Ok? {
          ExecQueueGrows(env, TodoCount(expanded.value) > 1, expanded.value, r.conv.(state := state));
        }
      case ToolCalls(calls0) =>
        var (calls, nextId) := NormalizedCalls(env.codec, calls0, r.conv.nextId);
        ExecQueueGrows(env, TodoCount(calls) > 1, calls,
                       r.conv.(nextId := nextId, messages := r.conv.messages + [Announce(calls)]));
      case _ =>
    }
  }

  lemma TurnGrows<S(!new)>(env: Env<S>, r: Runner<S>, k: nat)
    ensures Grows(env, r.conv, Turn(env, r, k).runner.conv)
  {
    AskingIsElsewhere(env, r.conv);
    var a := AskProvider(env, r.conv);
    if a.Answer? {
      ActGrows(env, r.(conv := a.conv), a.step, k);
    }
  }

  lemma {:induction false} RunLoopGrows<S(!new)>(env: Env<S>, r: Runner<S>, k: nat)
    ensures Grows(env, r.conv, RunLoop(env, r, k).0.conv)
    decreases env.maxSteps - k
  {
    if k < env.maxSteps {
      var t := Turn(env, r, k);
      TurnGrows(env, r, k);
      if t.Go? {
        RunLoopGrows(env, t.runner, k + 1);
        GrowsOn(env, r.conv, t.runner.conv, RunLoop(env, t.runner, k + 1).0.conv);
        assert RunLoop(env, r, k) == RunLoop(env, t.runner, k + 1);
      }
    }
  }

  // ----- resuming -----

  /** The answers of `resume` that are refusals, each with its error code. */
  ghost function Refusal<S>(r: Runner<S>, interruptId: string, decision: HitlDecision): Option<string> {
    if r.pending.None? || r.pending.value.interrupt.interruptId != interruptId then Some("interrupt_not_found")
    else if decision.Edit? && EditComplaint(r.pending.value.call.toolName,
                                            decision.args).Some? then Some("invalid_resume")
    else None
  }

  /** A batch and then the rest of the run. */
  lemma BatchAndRunGrow<S(!new)>(env: Env<S>, r: Runner<S>, calls: seq<ProviderToolCall>)
    requires r.initialized && r.pending.None?
    ensures var b := RunBatch(env, r, calls);
            Grows(env, r.conv, if b.Go? then Run(env, b.runner).0.conv else b.runner.conv)
  {
    ExecQueueGrows(env, TodoCount(calls) > 1, calls, r.conv);
    var b := RunBatch(env, r, calls);
    if b.Go? {
      RunLoopGrows(env, b.runner, 0);
      GrowsOn(env, r.conv, b.runner.conv, RunLoop(env, b.runner, 0).0.conv);
    }
  }

  lemma SettleLogs<S(!new)>(env: Env<S>, cv: Conv<S>, p: PendingInterrupt, decision: HitlDecision)
    ensures var cv1 := Settle(env, cv, p, decision);
            cv.log + [Decided(p.interrupt.interruptId, decision)] <= cv1.log && |cv1.results| == |cv.results| + 1
  {
  }

  lemma AcceptedResumeGrows<S(!new)>(env: Env<S>, r: Runner<S>, interruptId: string, decision: HitlDecision)
    requires (r.pending.Some? ==> r.initialized) && Refusal(r, interruptId, decision).None?
    ensures var r1 := Resume(env, r, interruptId, decision).0;
            && r.conv.log + [Decided(interruptId, decision)] <= r1.conv.log
            && |r1.conv.results| > |r.conv.results|
  {
    var p := r.pending.value;
    SettleLogs(env, r.conv, p, decision);
    BatchAndRunGrow(env, r.(conv := Settle(env, r.conv, p, decision), pending := None), p.remaining);
  }

  /**
   * A refused resume changes nothing and keeps the pending interrupt; an accepted one is
   * logged and settles the held call. So the runner is unchanged exactly when the resume is refused.
   */
  lemma ResumeChangesNothingIffRefused<S(!new)>(env: Env<S>, r: Runner<S>, interruptId: string, decision: HitlDecision)
    requires r.pending.Some? ==> r.initialized
    ensures var (r1, out) := Resume(env, r, interruptId, decision);
            && (r1 == r <==> Refusal(r, interruptId, decision).Some?)
            && (Refusal(r, interruptId, decision).Some? ==>
                  out.status == Error && out.error.Some?
                    && out.error.value.code == Refusal(r, interruptId, decision).value)
            && (Refusal(r, interruptId, decision).None? ==>
                  && r.conv.log + [Decided(interruptId, decision)] <= r1.conv.log
                  && |r1.conv.results| > |r.conv.results|)
  {
    if Refusal(r, interruptId, decision).None? {
      AcceptedResumeGrows(env, r, interruptId, decision);
    }
  }

  /** While a call is held, running again reports the same interrupt and does nothing else. */
  lemma RunWhileHeldOnlyReports<S(!new)>(env: Env<S>, messages: seq<Message>, state: S, inputs: seq<Input>)
    requires After(env, messages, state, inputs).pending.Some?
    ensures var r := After(env, messages, state, inputs);
            && Run(env, r).0 == r
            && Run(env, r).1.status == Interrupted
            && Run(env, r).1.interrupts == [r.pending.value.interrupt]
            && |r.conv.log| > 0 && r.conv.log[|r.conv.log| - 1] == Paused(r.pending.value.interrupt.interruptId)
  {
    ReachableIsSound(env, messages, state, inputs);
  }

  // ----- repair -----

  /**
   * A call that dangles in a reachable history was dangling when the first run started, or belongs
   * to the held call or one that waits behind it. So from a clean opening history, the repair has
   * nothing to do whenever nothing is held.
   */
  lemma RepairIsNoOp<S(!new)>(env: Env<S>, messages: seq<Message>, state: S, inputs: seq<Input>)
    requires Answering(env)
    ensures var r := After(env, messages, state, inputs);
            && (r.initialized ==>
                  forall i: nat, id :: Dangling(r.conv.messages, i, id) ==>
                    || Inherited(r.opening, id)
                    || (&& r.pending.Some?
                        && exists c :: c in [r.pending.value.call] + r.pending.value.remaining && c.callId == Some(id)))
            && (r.initialized && r.pending.None? && NothingDangling(r.opening) ==>
                  Patched(env.codec, r.conv.messages) == r.conv.messages)
  {
    ReachableIsSound(env, messages, state, inputs);
    var r := After(env, messages, state, inputs);
    OpeningIsOnlyOpen(r.opening);
    PatchFixesOnlyDangling(env.codec, r.conv.messages);
  }

  /** The start hooks keep clean histories clean. */
  ghost predicate KeepsClean<S(!new)>(env: Env<S>) {
    forall ms: seq<Message>, s: S ::
      NothingDangling(ms) ==>
        var r := BeforeRunChain(env.middlewares, ms, s).1; r.Ok? ==> NothingDangling(r.value)
  }

  /** The history the runner starts from, or would start from, before the hooks. */
  ghost predicate CleanOpening<S(!new)>(env: Env<S>, r: Runner<S>) {
    if r.initialized then NothingDangling(r.opening) else NothingDangling(Normalized(env.codec, r.conv.messages))
  }

  /** One step of the loop. */
  lemma LoopStep<S(!new)>(env: Env<S>, r: Runner<S>, k: nat) returns (t: Outcome<S>, k1: nat)
    requires k < env.maxSteps
    ensures t == Turn(env, r, k) && k1 == k + 1
    ensures t.Go? ==> RunLoop(env, r, k) == RunLoop(env, t.runner, k1)
    ensures t.Stop? ==> RunLoop(env, r, k) == (t.runner, t.output)
  {
    t, k1 := Turn(env, r, k), k + 1;
  }

  lemma {:induction false} LoopKeepsOpening<S(!new)>(env: Env<S>, r: Runner<S>, k: nat)
    ensures RunLoop(env, r, k).0.opening == r.opening && RunLoop(env, r, k).0.initialized == r.initialized
    decreases env.maxSteps - k
  {
    if k < env.maxSteps {
      TurnKeepsOpening(env, r, k);
      var t, k1 := LoopStep(env, r, k);
      if t.Go? {
        LoopKeepsOpening(env, t.runner, k1);
      }
    }
  }

  lemma TurnKeepsOpening<S(!new)>(env: Env<S>, r: Runner<S>, k: nat)
    ensures Turn(env, r, k).runner.opening == r.opening && Turn(env, r, k).runner.initialized == r.initialized
  {
  }

  lemma RunOpening<S(!new)>(env: Env<S>, r: Runner<S>)
    requires KeepsClean(env) && CleanOpening(env, r)
    ensures CleanOpening(env, Run(env, r).0)
  {
    if r.pending.None? {
      if r.initialized {
        LoopKeepsOpening(env, r, 0);
      } else {
        var i := Initialize(env, r);
        if i.Go? {
          LoopKeepsOpening(env, i.runner, 0);
        } else {
          assert Run(env, r).0 == i.runner;
        }
      }
    }
  }

  lemma ReactOpening<S(!new)>(env: Env<S>, r: Runner<S>, input: Input)
    requires KeepsClean(env) && CleanOpening(env, r) && (r.pending.Some? ==> r.initialized)
    ensures CleanOpening(env, React(env, r, input))
  {
    match input {
      case RunInput => RunOpening(env, r);
      case ResumeInput(id, decision) =>
        if r.pending.Some? {
          var p := r.pending.value;
          var r1 := r.(conv := Settle(env, r.conv, p, decision), pending := None);
          var b := RunBatch(env, r1, p.remaining);
          if b.Go? {
            LoopKeepsOpening(env, b.runner, 0);
          }
        }
      case UserInput(text) =>
        if !r.initialized {
          NormalizedSplit(env.codec, r.conv.messages, [Plain("user", text)]);
          assert Normalized(env.codec, [Plain("user", text)]) == [Plain("user", text)];
          PlainNeverDangles(Normalized(env.codec, r.conv.messages), "user", text);
        }
    }
  }

  lemma PlainNeverDangles(messages: seq<Message>, role: string, text: string)
    requires NothingDangling(messages)
    ensures NothingDangling(messages + [Plain(role, text)])
  {
    var out := messages + [Plain(role, text)];
    forall i: nat, id ensures !Dangling(out, i, id) {
      if i < |messages| {
        assert out[i + 1..] == messages[i + 1..] + [Plain(role, text)];
        AnsweredSplit(messages[i + 1..], [Plain(role, text)], id);
        assert !Dangling(messages, i, id);
      }
    }
  }

  lemma {:induction false} DriveOpening<S(!new)>(env: Env<S>, r: Runner<S>, inputs: seq<Input>)
    requires KeepsClean(env) && CleanOpening(env, r) && Sound(env, r)
    ensures CleanOpening(env, Drive(env, r, inputs))
    decreases |inputs|
  {
    if inputs != [] {
      ReactOpening(env, r, inputs[0]);
      ReactSound(env, r, inputs[0]);
      DriveOpening(env, React(env, r, inputs[0]), inputs[1..]);
    }
  }

  /** A runner that is given a clean history never needs the repair while nothing is held. */
  lemma CleanHistoryStaysClean<S(!new)>(env: Env<S>, messages: seq<Message>, state: S, inputs: seq<Input>)
    requires Answering(env) && KeepsClean(env) && NothingDangling(Normalized(env.codec, messages))
    ensures var r := After(env, messages, state, inputs);
            && (r.initialized ==> NothingDangling(r.opening))
            && (r.initialized && r.pending.None? ==> Patched(env.codec, r.conv.messages) == r.conv.messages)
  {
    DriveOpening(env, Fresh(messages, state), inputs);
    RepairIsNoOp(env, messages, state, inputs);
  }

  /** So does one whose start hooks patch whatever they are given, as PatchToolCalls does. */
  lemma PatchedStartsAreClean<S(!new)>(env: Env<S>, messages: seq<Message>, state: S, inputs: seq<Input>)
    requires Answering(env) && StartsPatched(env)
    ensures var r := After(env, messages, state, inputs);
            r.initialized && r.pending.None? ==> Patched(env.codec, r.conv.messages) == r.conv.messages
  {
    ReachableIsSound(env, messages, state, inputs);
    RepairIsNoOp(env, messages, state, inputs);
  }

  /** The runner at every point of a run where the provider is about to be asked. */
  ghost function Turns<S>(env: Env<S>, r: Runner<S>, k: nat): seq<Runner<S>>
    decreases env.maxSteps - k
  {
    if k >= env.maxSteps then []
    else
      var t := Turn(env, r, k);
      [r] + if t.Go? then Turns(env, t.runner, k + 1) else []
  }

  lemma FirstOrLaterTurn<S>(env: Env<S>, r: Runner<S>, k: nat, i: nat) returns (next: Runner<S>)
    requires i < |Turns(env, r, k)|
    ensures k < env.maxSteps
    ensures i == 0 ==> Turns(env, r, k)[i] == r
    ensures i > 0 ==> Turn(env, r, k) == Go(next)
    ensures i > 0 ==> i - 1 < |Turns(env, next, k + 1)| && Turns(env, r, k)[i] == Turns(env, next, k + 1)[i - 1]
  {
    next := Turn(env, r, k).runner;
  }

  lemma {:induction false} EveryTurnIsSound<S(!new)>(env: Env<S>, r: Runner<S>, k: nat, i: nat, now: Runner<S>)
    requires Sound(env, r) && r.initialized && r.pending.None?
    requires i < |Turns(env, r, k)| && now == Turns(env, r, k)[i]
    ensures Sound(env, now) && now.initialized && now.pending.None? && now.opening == r.opening
    decreases env.maxSteps - k
  {
    var next := FirstOrLaterTurn(env, r, k, i);
    if i > 0 {
      TurnSound(env, r, k);
      TurnKeepsOpening(env, r, k);
      EveryTurnIsSound(env, next, k + 1, i - 1, now);
    }
  }

  /** The runner as the step loop of a run first sees it; a run over a held call or a failed first run has no loop. */
  ghost function LoopStart<S>(env: Env<S>, r: Runner<S>): Option<Runner<S>> {
    if r.pending.Some? then None
    else if r.initialized then Some(r)
    else
      var i := Initialize(env, r);
      if i.Go? then Some(i.runner) else None
  }

  // ----- batches -----

  /** The ledger row a call of a batch gets, whatever the id counter was at the time. */
  ghost predicate RowOf(codec: Codec, call: ProviderToolCall, row: ToolCallRecord) {
    exists n: nat :: var c := PrepareCall(codec, call, n).call; row == ToolCallRecord(c.toolName, c.arguments, c.callId)
  }

  /** The ledger from `start` on holds the rows of the first calls of a batch, in order. */
  ghost predicate RowsOf(codec: Codec, batch: seq<ProviderToolCall>, start: nat, rows: seq<ToolCallRecord>) {
    && start <= |rows| <= start + |batch|
    && forall i :: start <= i < |rows| ==> RowOf(codec, batch[i - start], rows[i])
  }

  /**
   * How far a batch has come. The ledger holds one row for each call taken from the batch,
   * in batch order; the held call, if any, is the last of them; the rest waits behind it.
   */
  ghost predicate BatchAt(codec: Codec, batch: seq<ProviderToolCall>, start: nat, rows: seq<ToolCallRecord>,
                          pending: Option<PendingInterrupt>)
  {
    && RowsOf(codec, batch, start, rows)
    && (pending.None? ==> |rows| == start + |batch|)
    && (pending.Some? ==>
          && |rows| > start
          && pending.value.remaining == batch[|rows| - start..]
          && rows[|rows| - 1]
             == ToolCallRecord(pending.value.call.toolName, pending.value.call.arguments, pending.value.call.callId))
  }

  /** One call of a queue adds exactly its own row. */
  lemma OneRowPerCall<S(!new)>(env: Env<S>, guard: bool, call0: ProviderToolCall, cv: Conv<S>)
    ensures var r := ExecOne(env, guard, call0, cv);
            var c := PrepareCall(env.codec, call0, cv.nextId).call;
            && r.conv.calls == cv.calls + [ToolCallRecord(c.toolName, c.arguments, c.callId)]
            && (r.Held? ==> r.call == c)
            && RowOf(env.codec, call0, ToolCallRecord(c.toolName, c.arguments, c.callId))
  {
    var p := PrepareCall(env.codec, call0, cv.nextId);
    ServeKeepsRows(env, Enter(cv, p), p.call);
  }

  lemma ServeKeepsRows<S(!new)>(env: Env<S>, cv: Conv<S>, call: ProviderToolCall)
    ensures var r := OfferThenDispatch(env, cv, call); r.conv.calls == cv.calls && (r.Held? ==> r.call == call)
  {
  }

  lemma RowsExtend(codec: Codec, batch: seq<ProviderToolCall>, start: nat, rows: seq<ToolCallRecord>,
                   row: ToolCallRecord)
    requires RowsOf(codec, batch, start, rows) && |rows| < start + |batch|
    requires RowOf(codec, batch[|rows| - start], row)
    ensures RowsOf(codec, batch, start, rows + [row])
  {
  }

  /** One call further: its row is added and the calls behind it wait. */
  lemma OneFurther(codec: Codec, batch: seq<ProviderToolCall>, start: nat, rows: seq<ToolCallRecord>,
                   queue: seq<ProviderToolCall>, more: seq<ToolCallRecord>, row: ToolCallRecord)
    requires RowsOf(codec, batch, start, rows) && queue == batch[|rows| - start..] && queue != []
    requires more == rows + [row] && RowOf(codec, queue[0], row)
    ensures RowsOf(codec, batch, start, more) && queue[1..] == batch[|more| - start..] && |more| > start
  {
    RowsExtend(codec, batch, start, rows, row);
  }

  /** Draining the rest of a batch keeps every call of it, in order, whether or not it is interrupted. */
  lemma {:induction false} QueueKeepsBatch<S(!new)>(env: Env<S>, guard: bool, batch: seq<ProviderToolCall>, start: nat,
                                                    cv: Conv<S>, queue: seq<ProviderToolCall>)
    requires RowsOf(env.codec, batch, start, cv.calls) && queue == batch[|cv.calls| - start..]
    ensures var (cv1, p) := ExecQueue(env, guard, queue, cv);
            BatchAt(env.codec, batch, start, cv1.calls, p)
    decreases |queue|
  {
    if queue != [] {
      OneRowPerCall(env, guard, queue[0], cv);
      var r := ExecOne(env, guard, queue[0], cv);
      OneFurther(env.codec, batch, start, cv.calls, queue, r.conv.calls, r.conv.calls[|cv.calls|]);
      if r.Done? {
        QueueKeepsBatch(env, guard, batch, start, r.conv, queue[1..]);
      }
    }
  }

  /** Settling the held call leaves the call ledger alone. */
  lemma SettleKeepsRows<S(!new)>(env: Env<S>, cv: Conv<S>, p: PendingInterrupt, decision: HitlDecision)
    ensures Settle(env, cv, p, decision).calls == cv.calls
  {
  }

  /** Settling the held call and draining the rest leaves the batch finished or held again, with nothing lost. */
  lemma BatchSurvivesSettling<S(!new)>(env: Env<S>, batch: seq<ProviderToolCall>, start: nat, cv: Conv<S>,
                                       p: PendingInterrupt, decision: HitlDecision)
    requires BatchAt(env.codec, batch, start, cv.calls, Some(p))
    ensures var (cv1, p1) := ExecuteCalls(env, p.remaining, Settle(env, cv, p, decision));
            BatchAt(env.codec, batch, start, cv1.calls, p1)
  {
    SettleKeepsRows(env, cv, p, decision);
    QueueKeepsBatch(env, TodoCount(p.remaining) > 1, batch, start, Settle(env, cv, p, decision), p.remaining);
  }

  lemma BatchStartsWhole<S(!new)>(env: Env<S>, batch: seq<ProviderToolCall>, cv: Conv<S>)
    ensures var (cv1, p) := ExecuteCalls(env, batch, cv);
            BatchAt(env.codec, batch, |cv.calls|, cv1.calls, p)
  {
    QueueKeepsBatch(env, TodoCount(batch) > 1, batch, |cv.calls|, cv, batch);
  }

  /** A batch after some decisions of its reviewer; decisions past the last pause do nothing. */
  ghost function Reviewed<S>(env: Env<S>, batch: seq<ProviderToolCall>, cv: Conv<S>, decisions: seq<HitlDecision>):
    (Conv<S>, Option<PendingInterrupt>)
  {
    if decisions == [] then ExecuteCalls(env, batch, cv)
    else
      var n := |decisions| - 1;
      var r := Reviewed(env, batch, cv, decisions[..n]);
      if r.1.None? then r
      else ExecuteCalls(env, r.1.value.remaining, Settle(env, r.0, r.1.value, decisions[n]))
  }

  /**
   * However its reviewer decides, at every pause the processed, the
   * held and the waiting calls are the batch, in order.
   */
  lemma {:induction false} BatchIsConserved<S(!new)>(env: Env<S>, batch: seq<ProviderToolCall>, cv: Conv<S>,
                                                     decisions: seq<HitlDecision>)
    ensures var (cv1, p) := Reviewed(env, batch, cv, decisions);
            BatchAt(env.codec, batch, |cv.calls|, cv1.calls, p)
  {
    if decisions == [] {
      BatchStartsWhole(env, batch, cv);
    } else {
      var n := |decisions| - 1;
      var (cv1, p) := Reviewed(env, batch, cv, decisions[..n]);
      BatchIsConserved(env, batch, cv, decisions[..n]);
      if p.Some? {
        BatchSurvivesSettling(env, batch, |cv.calls|, cv1, p.value, decisions[n]);
      }
    }
  }

  // ----- batches of a run -----

  /** The batch that the turn from `r` takes: what the provider asked for, or what a skill expanded to. */
  ghost function BatchOf<S>(env: Env<S>, r: Runner<S>): Option<seq<ProviderToolCall>> {
    match AskProvider(env, r.conv)
    case Abort(_, _, _) => None
    case Answer(cv, step) =>
      match step
      case SkillCall(name, input, callId) =>
        var expanded := env.skill(name, input, callId, cv.state).1;
        if expanded.Ok? then Some(expanded.value) else None
      case ToolCalls(calls) => Some(NormalizedCalls(env.codec, calls, cv.nextId).0)
      case _ => None
  }

  /** What is held belongs to the batch of the turn from `start`, which stands in the ledger up to the held call. */
  ghost predicate HoldsBatchOf<S(!new)>(env: Env<S>, start: Runner<S>, r: Runner<S>) {
    && BatchOf(env, start).Some? && start.conv.calls <= r.conv.calls
    && BatchAt(env.codec, BatchOf(env, start).value, |start.conv.calls|, r.conv.calls, r.pending)
  }

  /** If a call is held, it is held from the last of these turns. */
  ghost predicate HeldFromLast<S(!new)>(env: Env<S>, turns: seq<Runner<S>>, r: Runner<S>) {
    r.pending.Some? ==> r.initialized && turns != [] && HoldsBatchOf(env, turns[|turns| - 1], r)
  }

  /** The runners at which an input makes the provider be asked. */
  ghost function TurnsOf<S>(env: Env<S>, r: Runner<S>, input: Input): seq<Runner<S>> {
    match input
    case RunInput => RunTurns(env, r)
    case ResumeInput(id, decision) =>
      if r.pending.None? || Refusal(r, id, decision).Some? then []
      else
        var b := RunBatch(env, r.(conv := Settle(env, r.conv, r.pending.value, decision), pending := None),
                          r.pending.value.remaining);
        if b.Go? then RunTurns(env, b.runner) else []
    case UserInput(_) => []
  }

  ghost function RunTurns<S>(env: Env<S>, r: Runner<S>): seq<Runner<S>> {
    var start := LoopStart(env, r);
    if start.Some? then Turns(env, start.value, 0) else []
  }

  /** The runners at which any of these inputs makes the provider be asked, in order. */
  ghost function AllTurns<S>(env: Env<S>, r: Runner<S>, inputs: seq<Input>): seq<Runner<S>>
    decreases |inputs|
  {
    if inputs == [] then [] else TurnsOf(env, r, inputs[0]) + AllTurns(env, React(env, r, inputs[0]), inputs[1..])
  }

  /** A turn that takes a batch runs it; any other holds nothing. */
  lemma TurnRunsBatch<S(!new)>(env: Env<S>, r: Runner<S>, k: nat) returns (r1: Runner<S>)
    requires r.pending.None? && r.initialized
    ensures r1.conv.calls == r.conv.calls && r1.pending.None? && r1.initialized
    ensures BatchOf(env, r).Some? ==> Turn(env, r, k) == RunBatch(env, r1, BatchOf(env, r).value)
    ensures BatchOf(env, r).None? ==> Turn(env, r, k).runner.pending.None? && Turn(env, r, k).runner.initialized
  {
    AskingIsElsewhere(env, r.conv);
    var a := AskProvider(env, r.conv);
    r1 := r;
    if a.Answer? {
      match a.step {
        case SkillCall(name, input, callId) =>
          r1 := r.(conv := a.conv.(state := env.skill(name, input, callId, a.conv.state).0));
        case ToolCalls(calls0) =>
          var (calls, nextId) := NormalizedCalls(env.codec, calls0, a.conv.nextId);
          r1 := r.(conv := a.conv.(nextId := nextId, messages := a.conv.messages + [Announce(calls)]));
        case _ =>
      }
    }
  }

  lemma TurnHolds<S(!new)>(env: Env<S>, r: Runner<S>, k: nat)
    requires r.pending.None? && r.initialized
    ensures var t := Turn(env, r, k);
            && (t.Go? ==> t.runner.pending.None? && t.runner.initialized)
            && (t.Stop? ==> HeldFromLast(env, [r], t.runner))
  {
    var r1 := TurnRunsBatch(env, r, k);
    if BatchOf(env, r).Some? {
      var batch := BatchOf(env, r).value;
      BatchStartsWhole(env, batch, r1.conv);
      ExecQueueGrows(env, TodoCount(batch) > 1, batch, r1.conv);
    }
  }

  lemma TurnsUnfold<S(!new)>(env: Env<S>, r: Runner<S>, k: nat, k1: nat)
    requires k < env.maxSteps && k1 == k + 1
    ensures var t := Turn(env, r, k);
            Turns(env, r, k) == if t.Go? then [r] + Turns(env, t.runner, k1) else [r]
  {
    assert [r] + [] == [r];
  }

  lemma {:induction false} LoopHolds<S(!new)>(env: Env<S>, r: Runner<S>, k: nat)
    requires r.pending.None? && r.initialized
    ensures HeldFromLast(env, Turns(env, r, k), RunLoop(env, r, k).0)
    decreases env.maxSteps - k
  {
    if k < env.maxSteps {
      TurnHolds(env, r, k);
      var t, k1 := LoopStep(env, r, k);
      TurnsUnfold(env, r, k, k1);
      if t.Go? {
        LoopHolds(env, t.runner, k1);
        LastOfLater(env, [r], Turns(env, t.runner, k1), RunLoop(env, r, k).0);
      }
    }
  }

  lemma RunHolds<S(!new)>(env: Env<S>, turns: seq<Runner<S>>, r: Runner<S>)
    requires HeldFromLast(env, turns, r)
    ensures HeldFromLast(env, turns + RunTurns(env, r), Run(env, r).0)
  {
    var start := LoopStart(env, r);
    if start.Some? {
      LoopHolds(env, start.value, 0);
      LastOfLater(env, turns, Turns(env, start.value, 0), Run(env, r).0);
    } else {
      assert turns + [] == turns;
    }
  }

  lemma LastOfLater<S(!new)>(env: Env<S>, turns: seq<Runner<S>>, later: seq<Runner<S>>, r: Runner<S>)
    requires HeldFromLast(env, later, r)
    ensures HeldFromLast(env, turns + later, r)
  {
  }

  /** Settling the held call and draining the rest of its batch. */
  lemma SettlingHolds<S(!new)>(env: Env<S>, turns: seq<Runner<S>>, r: Runner<S>, decision: HitlDecision)
    requires HeldFromLast(env, turns, r) && r.pending.Some?
    ensures var p := r.pending.value;
            var b := RunBatch(env, r.(conv := Settle(env, r.conv, p, decision), pending := None), p.remaining);
            HeldFromLast(env, turns, b.runner) && (b.Go? ==> b.runner.pending.None?)
  {
    var p, start := r.pending.value, turns[|turns| - 1];
    var cv := Settle(env, r.conv, p, decision);
    BatchSurvivesSettling(env, BatchOf(env, start).value, |start.conv.calls|, r.conv, p, decision);
    SettleKeepsRows(env, r.conv, p, decision);
    ExecQueueGrows(env, TodoCount(p.remaining) > 1, p.remaining, cv);
  }

  lemma ResumeHolds<S(!new)>(env: Env<S>, turns: seq<Runner<S>>, r: Runner<S>, id: string, decision: HitlDecision)
    requires HeldFromLast(env, turns, r)
    ensures HeldFromLast(env, turns + TurnsOf(env, r, ResumeInput(id, decision)), Resume(env, r, id, decision).0)
  {
    assert turns + [] == turns;
    if r.pending.Some? && Refusal(r, id, decision).None? {
      var p := r.pending.value;
      var b := RunBatch(env, r.(conv := Settle(env, r.conv, p, decision), pending := None), p.remaining);
      SettlingHolds(env, turns, r, decision);
      if b.Go? {
        RunHolds(env, turns, b.runner);
      }
    }
  }

  lemma ReactHolds<S(!new)>(env: Env<S>, turns: seq<Runner<S>>, r: Runner<S>, input: Input)
    requires HeldFromLast(env, turns, r)
    ensures HeldFromLast(env, turns + TurnsOf(env, r, input), React(env, r, input))
  {
    match input {
      case RunInput => RunHolds(env, turns, r);
      case ResumeInput(id, decision) => ResumeHolds(env, turns, r, id, decision);
      case UserInput(text) => assert turns + [] == turns;
    }
  }

  lemma Regroup<T>(a: seq<T>, b: seq<T>, c: seq<T>)
    ensures a + (b + c) == (a + b) + c
  {
  }

  /** The turns of the first input come before those of the others. */
  lemma TurnsInOrder<S(!new)>(env: Env<S>, turns: seq<Runner<S>>, r: Runner<S>, inputs: seq<Input>)
    requires inputs != []
    ensures turns + AllTurns(env, r, inputs)
         == (turns + TurnsOf(env, r, inputs[0])) + AllTurns(env, React(env, r, inputs[0]), inputs[1..])
  {
    Regroup(turns, TurnsOf(env, r, inputs[0]), AllTurns(env, React(env, r, inputs[0]), inputs[1..]));
  }

  lemma {:induction false} DriveHolds<S(!new)>(env: Env<S>, turns: seq<Runner<S>>, r: Runner<S>, inputs: seq<Input>)
    requires HeldFromLast(env, turns, r)
    ensures HeldFromLast(env, turns + AllTurns(env, r, inputs), Drive(env, r, inputs))
    decreases |inputs|
  {
    if inputs == [] {
      assert turns + [] == turns;
    } else {
      ReactHolds(env, turns, r, inputs[0]);
      DriveHolds(env, turns + TurnsOf(env, r, inputs[0]), React(env, r, inputs[0]), inputs[1..]);
      TurnsInOrder(env, turns, r, inputs);
    }
  }

  /**
   * In every reachable state that holds a call, the batch is the one that the last request to the provider led
   * to: its ledger rows, of which the held call is the last, and then the calls that wait are that batch, in order.
   */
  lemma HeldBatchIsWhole<S(!new)>(env: Env<S>, messages: seq<Message>, state: S, inputs: seq<Input>)
    requires After(env, messages, state, inputs).pending.Some?
    ensures var r, turns := After(env, messages, state, inputs), AllTurns(env, Fresh(messages, state), inputs);
            turns != [] && HoldsBatchOf(env, turns[|turns| - 1], r)
  {
    var turns := AllTurns(env, Fresh(messages, state), inputs);
    DriveHolds(env, [], Fresh(messages, state), inputs);
    assert [] + turns == turns;
  }

  // ----- repair at every turn -----

  /** At a turn the provider is about to be asked: the invariant holds and no call is held. */
  ghost predicate ReadyToAsk<S(!new)>(env: Env<S>, r: Runner<S>) {
    Sound(env, r) && r.initialized && r.pending.None?
  }

  lemma RunTurnIsReady<S(!new)>(env: Env<S>, r: Runner<S>, i: nat)
    requires Sound(env, r) && i < |RunTurns(env, r)|
    ensures ReadyToAsk(env, RunTurns(env, r)[i])
    ensures KeepsClean(env) && CleanOpening(env, r) ==> NothingDangling(RunTurns(env, r)[i].opening)
  {
    if !r.initialized {
      InitializeSound(env, r);
    }
    EveryTurnIsSound(env, LoopStart(env, r).value, 0, i, RunTurns(env, r)[i]);
  }

  /** The runner from which a run goes on once the held call is settled and its batch is done. */
  lemma SettledIsSound<S(!new)>(env: Env<S>, r: Runner<S>, id: string, decision: HitlDecision)
    requires Sound(env, r) && r.pending.Some? && Refusal(r, id, decision).None?
    ensures var p := r.pending.value;
            var b := RunBatch(env, r.(conv := Settle(env, r.conv, p, decision), pending := None), p.remaining);
            b.Go? ==> Sound(env, b.runner) && b.runner.initialized && b.runner.opening == r.opening
  {
    SettleSound(env, r, decision);
    var p := r.pending.value;
    RunBatchSound(env, r.(conv := Settle(env, r.conv, p, decision), pending := None), p.remaining);
  }

  lemma InputTurnIsReady<S(!new)>(env: Env<S>, r: Runner<S>, input: Input, i: nat)
    requires Sound(env, r) && i < |TurnsOf(env, r, input)|
    ensures ReadyToAsk(env, TurnsOf(env, r, input)[i])
    ensures KeepsClean(env) && CleanOpening(env, r) ==> NothingDangling(TurnsOf(env, r, input)[i].opening)
  {
    match input {
      case RunInput => RunTurnIsReady(env, r, i);
      case ResumeInput(id, decision) =>
        SettledIsSound(env, r, id, decision);
        var p := r.pending.value;
        var b := RunBatch(env, r.(conv := Settle(env, r.conv, p, decision), pending := None), p.remaining);
        RunTurnIsReady(env, b.runner, i);
    }
  }

  lemma {:induction false} TurnIsReady<S(!new)>(env: Env<S>, r: Runner<S>, inputs: seq<Input>, i: nat)
    requires Sound(env, r) && i < |AllTurns(env, r, inputs)|
    ensures ReadyToAsk(env, AllTurns(env, r, inputs)[i])
    ensures KeepsClean(env) && CleanOpening(env, r) ==> NothingDangling(AllTurns(env, r, inputs)[i].opening)
    decreases |inputs|
  {
    var first, next := TurnsOf(env, r, inputs[0]), React(env, r, inputs[0]);
    if i < |first| {
      InputTurnIsReady(env, r, inputs[0], i);
    } else {
      ReactSound(env, r, inputs[0]);
      if KeepsClean(env) && CleanOpening(env, r) {
        ReactOpening(env, r, inputs[0]);
      }
      TurnIsReady(env, next, inputs[1..], i - |first|);
    }
  }

  lemma ReadyNeedsNoRepair<S(!new)>(env: Env<S>, now: Runner<S>)
    requires Answering(env) && ReadyToAsk(env, now) && NothingDangling(now.opening)
    ensures Patched(env.codec, now.conv.messages) == now.conv.messages
  {
    OpeningIsOnlyOpen(now.opening);
    PatchFixesOnlyDangling(env.codec, now.conv.messages);
  }

  /**
   * Whenever a runner with a clean opening history asks the provider, in a run or after a resume,
   * the history it asks with needs no repair.
   */
  lemma EveryTurnStartsRepaired<S(!new)>(env: Env<S>, messages: seq<Message>, state: S, inputs: seq<Input>, i: nat)
    requires Answering(env) && i < |AllTurns(env, Fresh(messages, state), inputs)|
    requires NothingDangling(AllTurns(env, Fresh(messages, state), inputs)[i].opening)
    ensures var history := AllTurns(env, Fresh(messages, state), inputs)[i].conv.messages;
            Patched(env.codec, history) == history
  {
    ReachableIsSound(env, messages, state, []);
    TurnIsReady(env, Fresh(messages, state), inputs, i);
    ReadyNeedsNoRepair(env, AllTurns(env, Fresh(messages, state), inputs)[i]);
  }

  /**
   * No turn needs the repair when the history given is clean and
   * stays so through the start hooks, or these patch it.
   */
  lemma CleanRunsStayRepaired<S(!new)>(env: Env<S>, messages: seq<Message>, state: S, inputs: seq<Input>, i: nat)
    requires Answering(env) && i < |AllTurns(env, Fresh(messages, state), inputs)|
    requires (KeepsClean(env) && NothingDangling(Normalized(env.codec, messages))) || StartsPatched(env)
    ensures var history := AllTurns(env, Fresh(messages, state), inputs)[i].conv.messages;
            Patched(env.codec, history) == history
  {
    ReachableIsSound(env, messages, state, []);
    TurnIsReady(env, Fresh(messages, state), inputs, i);
    ReadyNeedsNoRepair(env, AllTurns(env, Fresh(messages, state), inputs)[i]);
  }

  /** Without middlewares nothing is asked of hooks or handlers. */
  lemma NoMiddlewaresStayRepaired<S(!new)>(env: Env<S>, messages: seq<Message>, state: S, inputs: seq<Input>, i: nat)
    requires env.middlewares == [] && NoBlankIds(env) && NothingDangling(Normalized(env.codec, messages))
    requires i < |AllTurns(env, Fresh(messages, state), inputs)|
    ensures var history := AllTurns(env, Fresh(messages, state), inputs)[i].conv.messages;
            Patched(env.codec, history) == history
  {
    assert KeepsClean(env) && KeepsMessages(env);
    CleanRunsStayRepaired(env, messages, state, inputs, i);
  }
}
