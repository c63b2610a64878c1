/** What survives every step of the surroundings survives every run of the resumable runner. */
module ConversationInvariants {
  import opened Wrappers
  import opened Json
  import opened Types
  import opened ToolCompat
  import opened PatchToolCalls
  import opened RunnerSpec
  import opened RunnerTheorems

  /** A claim about the history and the state. */
  type Claim<!S> = (seq<Message>, S) -> bool

  ghost predicate Holds<S>(p: Claim<S>, cv: Conv<S>) {
    p(cv.messages, cv.state)
  }

  /** A further message does no harm. */
  ghost predicate SurvivesMessages<S(!new)>(p: Claim<S>) {
    forall ms: seq<Message>, m: Message, s: S :: p(ms, s) ==> p(ms + [m], s)
  }

  /** Nor does what the runner calls outside while it acts on a provider step. */
  ghost predicate SurvivesCalls<S(!new)>(env: Env<S>, p: Claim<S>) {
    && (forall ms, s, name, input, id :: p(ms, s) ==> p(ms, env.skill(name, input, id, s).0))
    && (forall ms, s, tool, args :: p(ms, s) ==> p(ms, env.tool(tool, args, s).0))
    && (forall ms, s, tool, id, output :: p(ms, s) ==> p(ms, env.offload(tool, id, output, s).0))
  }

  /** Nor does what it calls to get one. */
  ghost predicate SurvivesAsking<S(!new)>(env: Env<S>, p: Claim<S>) {
    && (forall ms, s, req :: p(ms, s) ==> p(ms, env.provider(req, s).0))
    && (forall ms, s :: p(ms, s) ==> p(ms, env.setForce(s)))
    && (forall ms, s :: p(ms, s) ==> p(ms, env.clearForce(s)))
  }

  /** Nor does a middleware that is offered a call. */
  ghost predicate SurvivesOffer<S(!new)>(m: Middleware<S>, p: Claim<S>) {
    forall call, ms, s :: p(ms, s) ==> p(m.handleToolCall(call, ms, s).0, m.handleToolCall(call, ms, s).1)
  }

  /** Nor do the middlewares that prepare the view of the provider, all together. */
  ghost predicate SurvivesView<S(!new)>(env: Env<S>, p: Claim<S>) {
    forall ms, s :: p(ms, s) ==> p(ms, BeforeStepChain(env.middlewares, ms, s).0)
  }

  /** Whatever acts on a provider step keeps the claim. */
  ghost predicate SurvivesActs<S(!new)>(env: Env<S>, p: Claim<S>) {
    && SurvivesMessages(p) && SurvivesCalls(env, p)
    && forall k: nat :: k < |env.middlewares| ==> SurvivesOffer(env.middlewares[k], p)
  }

  ghost predicate Survives<S(!new)>(env: Env<S>, p: Claim<S>) {
    SurvivesActs(env, p) && SurvivesAsking(env, p) && SurvivesView(env, p)
  }

  /**
   * From `q` before the first run the start hooks lead to `p`, or
   * back to `q` when they fail and the history is lost.
   */
  ghost predicate Starts<S(!new)>(env: Env<S>, q: Claim<S>, p: Claim<S>) {
    && SurvivesMessages(q)
    && forall ms, s ::
         q(ms, s) ==>
           var (s1, r) := BeforeRunChain(env.middlewares, Normalized(env.codec, ms), s);
           if r.Ok? then p(r.value, s1) else q([], s1)
  }

  // ----- one call -----

  lemma PostKeeps<S(!new)>(codec: Codec, p: Claim<S>, cv: Conv<S>, id: string, tool: string, output: Value,
                           error: Option<string>, status: string, envelope: Value, blocks: Option<seq<ContentBlock>>)
    requires SurvivesMessages(p) && Holds(p, cv)
    ensures Holds(p, Post(codec, cv, id, tool, output, error, status, envelope, blocks))
  {
    assert p(cv.messages + [Message("tool", codec.render(envelope), blocks, None, Some(id), Some(tool),
                                    Some(status))], cv.state);
  }

  lemma ErrorKeeps<S(!new)>(codec: Codec, p: Claim<S>, cv: Conv<S>, id: string, tool: string, err: string)
    requires SurvivesMessages(p) && Holds(p, cv)
    ensures Holds(p, PostError(codec, cv, id, tool, err))
  {
    PostKeeps(codec, p, cv, id, tool, Null, Some(err), "error", ErrorEnvelope(id, tool, err), None);
  }

  lemma HandledKeeps<S(!new)>(env: Env<S>, p: Claim<S>, cv: Conv<S>, id: string, tool: string, h: HandledToolCall)
    requires SurvivesActs(env, p) && Holds(p, cv)
    ensures Holds(p, PostHandled(env, cv, id, tool, h))
  {
    if h.error.Some? {
      PostKeeps(env.codec, p, cv, id, tool, h.output, h.error, "error",
                HandledEnvelope(id, tool, "error", h.error.value, h.output, h.error), None);
    } else {
      var (state, output, content) := env.offload(tool, id, h.output, cv.state);
      PostKeeps(env.codec, p, cv.(state := state), id, tool, output, None, "success",
                HandledEnvelope(id, tool, "success", content, output, None), None);
    }
  }

  lemma DispatchKeeps<S(!new)>(env: Env<S>, p: Claim<S>, cv: Conv<S>, call: ProviderToolCall, args: Value,
                               edited: Option<Option<Value>>)
    requires SurvivesActs(env, p) && Holds(p, cv)
    ensures Holds(p, Dispatch(env, cv, call, args, edited))
  {
    var id, tool := call.callId.GetOr(""), call.toolName;
    var (state, result) := env.tool(tool, args, cv.state);
    var cv1 := cv.(state := state, log := cv.log + [Dispatched(|cv.calls| - 1, id, tool, args, cv.state)]);
    assert Holds(p, cv1);
    match result {
      case Err(e) => ErrorKeeps(env.codec, p, cv1, id, tool, e);
      case Ok(out) =>
        var (state2, output, content) := env.offload(tool, id, out.output, cv1.state);
        var cv2 := cv1.(state := state2);
        if edited.Some? {
          PostKeeps(env.codec, p, cv2, id, tool, output, None, "edited",
                    EditedEnvelope(id, tool, content, output, edited.value, args), out.blocks);
        } else {
          PostKeeps(env.codec, p, cv2, id, tool, output, None, "success",
                    SuccessEnvelope(id, tool, content, output), out.blocks);
        }
    }
  }

  lemma {:induction false} ChainKeeps<S(!new)>(env: Env<S>, p: Claim<S>, k: nat, call: ProviderToolCall,
                                               ms: seq<Message>, s: S)
    requires SurvivesActs(env, p) && p(ms, s) && k <= |env.middlewares|
    ensures var r := HandleChain(env.middlewares[k..], call, ms, s); p(r.0, r.1)
    decreases |env.middlewares| - k
  {
    if k < |env.middlewares| {
      var m := env.middlewares[k];
      assert SurvivesOffer(m, p);
      var (ms1, s1, answer) := m.handleToolCall(call, ms, s);
      assert env.middlewares[k..][0] == m && env.middlewares[k..][1..] == env.middlewares[k + 1..];
      ChainKeeps(env, p, k + 1, call, ms1, s1);
    }
  }

  lemma OfferKeeps<S(!new)>(env: Env<S>, p: Claim<S>, cv: Conv<S>, call: ProviderToolCall)
    requires SurvivesActs(env, p) && Holds(p, cv)
    ensures Holds(p, OfferThenDispatch(env, cv, call).conv)
  {
    assert env.middlewares[0..] == env.middlewares;
    ChainKeeps(env, p, 0, call, cv.messages, cv.state);
    var (cv1, handled) := OfferAll(env, cv, call);
    var id, tool := call.callId.GetOr(""), call.toolName;
    if handled.Some? {
      HandledKeeps(env, p, cv1, id, tool, handled.value);
    } else {
      match Verdict(env, tool, call.arguments, cv1.state) {
        case Deny(code, reason) => ErrorKeeps(env.codec, p, cv1, id, tool, NotAllowed(code, reason));
        case RequireApproval(_, _) =>
        case Allow => DispatchKeeps(env, p, cv1, call, call.arguments, None);
      }
    }
  }

  lemma OneKeeps<S(!new)>(env: Env<S>, p: Claim<S>, guard: bool, call0: ProviderToolCall, cv: Conv<S>)
    requires SurvivesActs(env, p) && Holds(p, cv)
    ensures Holds(p, ExecOne(env, guard, call0, cv).conv)
  {
    var prepared := PrepareCall(env.codec, call0, cv.nextId);
    var id, tool := prepared.call.callId.GetOr(""), prepared.call.toolName;
    var cv1 := Enter(cv, prepared);
    if prepared.error.Some? {
      ErrorKeeps(env.codec, p, cv1, id, tool, ArgumentsErrorText(prepared.error.value));
    } else if guard && tool == "write_todos" {
      ErrorKeeps(env.codec, p, cv1, id, tool, TODOS_IN_PARALLEL);
    } else {
      match Verdict(env, tool, prepared.call.arguments, cv1.state) {
        case Deny(code, reason) => ErrorKeeps(env.codec, p, cv1, id, tool, NotAllowed(code, reason));
        case RequireApproval(_, _) =>
        case Allow => OfferKeeps(env, p, cv1, prepared.call);
      }
    }
  }

  lemma {:induction false} QueueKeeps<S(!new)>(env: Env<S>, p: Claim<S>, guard: bool, queue: seq<ProviderToolCall>,
                                               cv: Conv<S>)
    requires SurvivesActs(env, p) && Holds(p, cv)
    ensures Holds(p, ExecQueue(env, guard, queue, cv).0)
  {
    if queue != [] {
      OneKeeps(env, p, guard, queue[0], cv);
      var r := ExecOne(env, guard, queue[0], cv);
      if r.Done? {
        QueueKeeps(env, p, guard, queue[1..], r.conv);
      }
    }
  }

  lemma BatchKeeps<S(!new)>(env: Env<S>, p: Claim<S>, r: Runner<S>, calls: seq<ProviderToolCall>)
    requires SurvivesActs(env, p) && Holds(p, r.conv)
    ensures Holds(p, RunBatch(env, r, calls).runner.conv) && RunBatch(env, r, calls).runner.initialized == r.initialized
  {
    QueueKeeps(env, p, TodoCount(calls) > 1, calls, r.conv);
  }

  lemma PendingKeeps<S(!new)>(env: Env<S>, p: Claim<S>, cv: Conv<S>, call: ProviderToolCall, edited: Option<Value>,
                              original: Option<Value>)
    requires SurvivesActs(env, p) && Holds(p, cv)
    ensures Holds(p, ExecutePending(env, cv, call, edited, original))
  {
    var id, tool, args := call.callId.GetOr(""), call.toolName, edited.GetOr(call.arguments);
    match Verdict(env, tool, args, cv.state) {
      case Deny(code, reason) => ErrorKeeps(env.codec, p, cv, id, tool, NotAllowed(code, reason));
      case RequireApproval(code, reason) => ErrorKeeps(env.codec, p, cv, id, tool, NotAllowed(code, reason));
      case Allow => DispatchKeeps(env, p, cv, call, args, if edited.Some? then Some(original) else None);
    }
  }

  lemma SettleKeeps<S(!new)>(env: Env<S>, p: Claim<S>, cv0: Conv<S>, held: PendingInterrupt, decision: HitlDecision)
    requires SurvivesActs(env, p) && Holds(p, cv0)
    ensures Holds(p, Settle(env, cv0, held, decision))
  {
    var cv := cv0.(log := cv0.log + [Decided(held.interrupt.interruptId, decision)]);
    match decision {
      case Approve => PendingKeeps(env, p, cv, held.call, None, None);
      case Reject(reason) =>
        var id, tool := held.call.callId.GetOr(""), held.call.toolName;
        var err := "tool_call_rejected: " + reason.GetOr("rejected");
        PostKeeps(env.codec, p, cv, id, tool, Null, Some(err), "rejected", RejectedEnvelope(id, tool, err), None);
      case Edit(args) => PendingKeeps(env, p, cv, held.call, Some(args), Some(held.interrupt.proposedArgs));
    }
  }

  // ----- one turn -----

  lemma AskOnceKeeps<S(!new)>(env: Env<S>, p: Claim<S>, cv: Conv<S>)
    requires Survives(env, p) && Holds(p, cv)
    ensures Holds(p, AskOnce(env, cv).conv)
  {
    assert p(cv.messages, BeforeStepChain(env.middlewares, cv.messages, cv.state).0);
  }

  lemma AskForcedKeeps<S(!new)>(env: Env<S>, p: Claim<S>, cv: Conv<S>)
    requires Survives(env, p) && Holds(p, cv)
    ensures Holds(p, AskForced(env, cv).conv)
  {
    var s := env.setForce(cv.state);
    assert p(cv.messages, s);
    assert p(cv.messages, BeforeStepChain(env.middlewares, cv.messages, s).0);
  }

  lemma AskKeeps<S(!new)>(env: Env<S>, p: Claim<S>, cv: Conv<S>)
    requires Survives(env, p) && Holds(p, cv)
    ensures Holds(p, AskProvider(env, cv).conv)
  {
    AskOnceKeeps(env, p, cv);
    var first := AskOnce(env, cv);
    if first.Answer? && Overflow(first.step) {
      AskForcedKeeps(env, p, first.conv);
    }
  }

  lemma ActKeeps<S(!new)>(env: Env<S>, p: Claim<S>, r: Runner<S>, step: ProviderStep, k: nat)
    requires SurvivesActs(env, p) && Holds(p, r.conv)
    ensures Holds(p, Act(env, r, step, k).runner.conv) && Act(env, r, step, k).runner.initialized == r.initialized
  {
    match step {
      case SkillCall(name, input, callId) =>
        var (state, expanded) := env.skill(name, input, callId, r.conv.state);
        if expanded.Ok? {
          BatchKeeps(env, p, r.(conv := r.conv.(state := state)), expanded.value);
        }
      case ToolCalls(calls0) =>
        var (calls, nextId) := NormalizedCalls(env.codec, calls0, r.conv.nextId);
        BatchKeeps(env, p, r.(conv := r.conv.(nextId := nextId, messages := r.conv.messages + [Announce(calls)])),
                   calls);
      case _ =>
    }
  }

  lemma TurnKeeps<S(!new)>(env: Env<S>, p: Claim<S>, r: Runner<S>, k: nat)
    requires Survives(env, p) && Holds(p, r.conv)
    ensures Holds(p, Turn(env, r, k).runner.conv) && Turn(env, r, k).runner.initialized == r.initialized
  {
    AskKeeps(env, p, r.conv);
    var a := AskProvider(env, r.conv);
    if a.Answer? {
      ActKeeps(env, p, r.(conv := a.conv), a.step, k);
    }
  }

  lemma {:induction false} LoopKeeps<S(!new)>(env: Env<S>, p: Claim<S>, r: Runner<S>, k: nat)
    requires Survives(env, p) && Holds(p, r.conv)
    ensures Holds(p, RunLoop(env, r, k).0.conv) && RunLoop(env, r, k).0.initialized == r.initialized
    decreases env.maxSteps - k
  {
    if k < env.maxSteps {
      var t := Turn(env, r, k);
      TurnKeeps(env, p, r, k);
      if t.Go? {
        LoopKeeps(env, p, t.runner, k + 1);
      }
    }
  }

  // ----- every run -----

  /** `q` before the first run has prepared the history, `p` from then on. */
  ghost predicate Kept<S>(q: Claim<S>, p: Claim<S>, r: Runner<S>) {
    if r.initialized then Holds(p, r.conv) else r.pending.None? && Holds(q, r.conv)
  }

  lemma RunKeeps<S(!new)>(env: Env<S>, q: Claim<S>, p: Claim<S>, r: Runner<S>)
    requires Survives(env, p) && Starts(env, q, p) && Kept(q, p, r)
    ensures Kept(q, p, Run(env, r).0)
  {
    if r.pending.None? {
      if r.initialized {
        LoopKeeps(env, p, r, 0);
      } else {
        var i := Initialize(env, r);
        assert q(r.conv.messages, r.conv.state);
        if i.Go? {
          LoopKeeps(env, p, i.runner, 0);
        } else {
          assert Run(env, r).0 == i.runner;
        }
      }
    }
  }

  lemma ResumeKeeps<S(!new)>(env: Env<S>, q: Claim<S>, p: Claim<S>, r: Runner<S>, id: string, decision: HitlDecision)
    requires Survives(env, p) && Starts(env, q, p) && Kept(q, p, r)
    ensures Kept(q, p, Resume(env, r, id, decision).0)
  {
    if r.pending.Some? {
      var held := r.pending.value;
      var r1 := r.(conv := Settle(env, r.conv, held, decision), pending := None);
      SettleKeeps(env, p, r.conv, held, decision);
      BatchKeeps(env, p, r1, held.remaining);
      var b := RunBatch(env, r1, held.remaining);
      if b.Go? {
        RunKeeps(env, q, p, b.runner);
      }
    }
  }

  lemma ReactKeeps<S(!new)>(env: Env<S>, q: Claim<S>, p: Claim<S>, r: Runner<S>, input: Input)
    requires Survives(env, p) && Starts(env, q, p) && Kept(q, p, r)
    ensures Kept(q, p, React(env, r, input))
  {
    match input {
      case RunInput => RunKeeps(env, q, p, r);
      case ResumeInput(id, decision) => ResumeKeeps(env, q, p, r, id, decision);
      case UserInput(text) =>
    }
  }

  lemma {:induction false} DriveKeeps<S(!new)>(env: Env<S>, q: Claim<S>, p: Claim<S>, r: Runner<S>, inputs: seq<Input>)
    requires Survives(env, p) && Starts(env, q, p) && Kept(q, p, r)
    ensures Kept(q, p, Drive(env, r, inputs))
    decreases |inputs|
  {
    if inputs != [] {
      ReactKeeps(env, q, p, r, inputs[0]);
      DriveKeeps(env, q, p, React(env, r, inputs[0]), inputs[1..]);
    }
  }

  // ----- whenever the provider is asked -----

  lemma {:induction false} LoopTurnKeeps<S(!new)>(env: Env<S>, p: Claim<S>, r: Runner<S>, k: nat, i: nat,
                                                  now: Runner<S>)
    requires Survives(env, p) && Holds(p, r.conv) && i < |Turns(env, r, k)| && now == Turns(env, r, k)[i]
    ensures Holds(p, now.conv)
    decreases env.maxSteps - k
  {
    var next := FirstOrLaterTurn(env, r, k, i);
    if i > 0 {
      TurnKeeps(env, p, r, k);
      LoopTurnKeeps(env, p, next, k + 1, i - 1, now);
    }
  }

  lemma RunTurnKeeps<S(!new)>(env: Env<S>, q: Claim<S>, p: Claim<S>, r: Runner<S>, i: nat)
    requires Survives(env, p) && Starts(env, q, p) && Kept(q, p, r) && i < |RunTurns(env, r)|
    ensures Holds(p, RunTurns(env, r)[i].conv)
  {
    assert !r.initialized ==> q(r.conv.messages, r.conv.state);
    LoopTurnKeeps(env, p, LoopStart(env, r).value, 0, i, RunTurns(env, r)[i]);
  }

  lemma InputTurnKeeps<S(!new)>(env: Env<S>, q: Claim<S>, p: Claim<S>, r: Runner<S>, input: Input, i: nat)
    requires Survives(env, p) && Starts(env, q, p) && Kept(q, p, r) && i < |TurnsOf(env, r, input)|
    ensures Holds(p, TurnsOf(env, r, input)[i].conv)
  {
    match input {
      case RunInput => RunTurnKeeps(env, q, p, r, i);
      case ResumeInput(id, decision) =>
        var held := r.pending.value;
        var r1 := r.(conv := Settle(env, r.conv, held, decision), pending := None);
        SettleKeeps(env, p, r.conv, held, decision);
        BatchKeeps(env, p, r1, held.remaining);
        RunTurnKeeps(env, q, p, RunBatch(env, r1, held.remaining).runner, i);
    }
  }

  /** Such a claim holds whenever the provider is about to be asked. */
  lemma {:induction false} EveryTurnKeeps<S(!new)>(env: Env<S>, q: Claim<S>, p: Claim<S>, r: Runner<S>,
                                                   inputs: seq<Input>, i: nat)
    requires Survives(env, p) && Starts(env, q, p) && Kept(q, p, r) && i < |AllTurns(env, r, inputs)|
    ensures Holds(p, AllTurns(env, r, inputs)[i].conv)
    decreases |inputs|
  {
    var first := TurnsOf(env, r, inputs[0]);
    if i < |first| {
      InputTurnKeeps(env, q, p, r, inputs[0], i);
    } else {
      ReactKeeps(env, q, p, r, inputs[0]);
      EveryTurnKeeps(env, q, p, React(env, r, inputs[0]), inputs[1..], i - |first|);
    }
  }

  /** Every claim that survives the surroundings holds in every initialised state that a runner reaches. */
  lemma EveryRunKeeps<S(!new)>(env: Env<S>, q: Claim<S>, p: Claim<S>, messages: seq<Message>, state: S,
                               inputs: seq<Input>)
    requires Survives(env, p) && Starts(env, q, p) && q(messages, state)
    ensures var r := After(env, messages, state, inputs);
            if r.initialized then p(r.conv.messages, r.conv.state) else q(r.conv.messages, r.conv.state)
  {
    DriveKeeps(env, q, p, Fresh(messages, state), inputs);
  }
}
