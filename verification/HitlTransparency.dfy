/** Pausing for review and approving is invisible. */
module HitlTransparency {
  import opened Wrappers
  import opened Json
  import opened Types
  import opened ToolCompat
  import opened RunnerSpec

  // ----- conversations that differ only in how they were reviewed -----

  /** The tool dispatches of a log, in order. */
  ghost function Dispatches<S>(log: seq<Event<S>>): seq<Event<S>> {
    if log == [] then []
    else
      var e := log[|log| - 1];
      Dispatches(log[..|log| - 1]) + if e.Dispatched? then [e] else []
  }

  lemma DispatchesAppend<S>(log: seq<Event<S>>, e: Event<S>)
    ensures Dispatches(log + [e]) == Dispatches(log) + if e.Dispatched? then [e] else []
  {
    assert (log + [e])[..|log|] == log;
  }

  /** Same messages, ledgers, id counter, state and dispatches. */
  ghost predicate SameTalk<S(!new)>(a: Conv<S>, b: Conv<S>) {
    && a.messages == b.messages && a.calls == b.calls && a.results == b.results
    && a.nextId == b.nextId && a.state == b.state
    && Dispatches(a.log) == Dispatches(b.log)
  }

  lemma DispatchAlike<S(!new)>(env: Env<S>, a: Conv<S>, b: Conv<S>, call: ProviderToolCall, args: Value,
                               edited: Option<Option<Value>>)
    requires SameTalk(a, b)
    ensures SameTalk(Dispatch(env, a, call, args, edited), Dispatch(env, b, call, args, edited))
  {
    var e: Event<S> := Dispatched(|a.calls| - 1, call.callId.GetOr(""), call.toolName, args, a.state);
    DispatchesAppend(a.log, e);
    DispatchesAppend(b.log, e);
  }

  lemma LogAlike<S(!new)>(a: Conv<S>, b: Conv<S>, e: Event<S>)
    requires SameTalk(a, b) && !e.Dispatched?
    ensures SameTalk(a.(log := a.log + [e]), b)
    ensures SameTalk(a, b.(log := b.log + [e]))
    ensures SameTalk(a.(log := a.log + [e]), b.(log := b.log + [e]))
  {
    DispatchesAppend(a.log, e);
    DispatchesAppend(b.log, e);
  }

  // ----- reviewing a batch to its end -----

  /** Execute a batch, settle every held call as the reviewer chooses, and go on until it is done. */
  ghost function ReviewAll<S>(env: Env<S>, choose: PendingInterrupt -> HitlDecision, calls: seq<ProviderToolCall>,
                              cv: Conv<S>): Conv<S>
    decreases |calls|
  {
    var (cv1, p) := ExecuteCalls(env, calls, cv);
    if p.None? then cv1
    else ReviewAll(env, choose, p.value.remaining, Settle(env, cv1, p.value, choose(p.value)))
  }

  ghost function ApproveAll<S>(env: Env<S>, calls: seq<ProviderToolCall>, cv: Conv<S>): Conv<S> {
    ReviewAll(env, p => Approve, calls, cv)
  }

  /** One accepted `resume` is one step of the review of the batch it was held in. */
  lemma ResumeIsOneReviewStep<S(!new)>(env: Env<S>, choose: PendingInterrupt -> HitlDecision, r: Runner<S>,
                                       decision: HitlDecision)
    requires r.pending.Some? && r.initialized && decision == choose(r.pending.value)
    requires decision.Edit? ==> EditComplaint(r.pending.value.call.toolName, decision.args).None?
    ensures var p := r.pending.value;
            var (r1, _) := Resume(env, r, p.interrupt.interruptId, decision);
            var (cv, q) := ExecuteCalls(env, p.remaining, Settle(env, r.conv, p, decision));
            && ReviewAll(env, choose, p.remaining, Settle(env, r.conv, p, decision))
               == (if q.None? then cv else ReviewAll(env, choose, q.value.remaining,
                                                     Settle(env, cv, q.value, choose(q.value))))
            && (q.Some? ==> r1.conv == cv && r1.pending == q)
            && (q.None? ==> r1 == Run(env, r.(conv := cv, pending := None)).0)
  {
  }

  // ----- transparency -----

  /** The approval policy never asks for a reviewer. */
  ghost predicate NeverAsks<S(!new)>(env: Env<S>) {
    forall cmd: string, s: S :: env.approval.Some? ==> !env.approval.value(cmd, s).RequireApproval?
  }

  /** Middlewares let calls of these tools pass and leave no trace. */
  ghost predicate LetPass<S(!new)>(env: Env<S>, call: ProviderToolCall) {
    forall k: nat, ms: seq<Message>, s: S ::
      k < |env.middlewares| ==> env.middlewares[k].handleToolCall(call, ms, s) == (ms, s, Ok(None))
  }

  /** No middleware handles a tool that is interrupted on. */
  ghost predicate InterruptedUnhandled<S(!new)>(env: Env<S>) {
    forall call: ProviderToolCall :: Interrupts(env, call.toolName) ==> LetPass(env, call)
  }

  lemma {:induction false} LetPassChain<S(!new)>(env: Env<S>, k: nat, call: ProviderToolCall, ms: seq<Message>, s: S)
    requires k <= |env.middlewares| && LetPass(env, call)
    ensures HandleChain(env.middlewares[k..], call, ms, s) == (ms, s, None)
    decreases |env.middlewares| - k
  {
    if k < |env.middlewares| {
      assert env.middlewares[k..][0] == env.middlewares[k];
      assert env.middlewares[k..][1..] == env.middlewares[k + 1..];
      assert env.middlewares[k].handleToolCall(call, ms, s) == (ms, s, Ok(None));
      LetPassChain(env, k + 1, call, ms, s);
    }
  }

  function WithoutInterrupts<S>(env: Env<S>): Env<S> {
    env.(interruptOn := map[])
  }

  /** Offering depends on the conversation only up to review. */
  lemma OfferAllAlike<S(!new)>(env: Env<S>, a: Conv<S>, b: Conv<S>, call: ProviderToolCall)
    requires SameTalk(a, b)
    ensures SameTalk(OfferAll(env, a, call).0, OfferAll(env, b, call).0)
    ensures OfferAll(env, a, call).1 == OfferAll(env, b, call).1
    ensures LetPass(env, call) ==> SameTalk(a, OfferAll(env, b, call).0) && OfferAll(env, b, call).1.None?
  {
    if env.middlewares == [] {
      assert a.log + [] == a.log && b.log + [] == b.log;
    } else {
      LogAlike(a, b, Offered(|a.calls| - 1, call.callId.GetOr(""), call.toolName, call.arguments, a.messages,
                              a.state));
    }
    if LetPass(env, call) {
      assert env.middlewares[0..] == env.middlewares;
      LetPassChain(env, 0, call, b.messages, b.state);
    }
  }

  lemma PostErrorAlike<S(!new)>(codec: Codec, a: Conv<S>, b: Conv<S>, id: string, tool: string, err: string)
    requires SameTalk(a, b)
    ensures SameTalk(PostError(codec, a, id, tool, err), PostError(codec, b, id, tool, err))
  {
  }

  lemma PostHandledAlike<S(!new)>(env: Env<S>, a: Conv<S>, b: Conv<S>, id: string, tool: string, h: HandledToolCall)
    requires SameTalk(a, b)
    ensures SameTalk(PostHandled(env, a, id, tool, h), PostHandled(env, b, id, tool, h))
  {
  }

  /** After the ledger row is entered, serving a call depends on the conversation only up to review. */
  lemma ServeAlike<S(!new)>(env: Env<S>, a: Conv<S>, b: Conv<S>, call: ProviderToolCall)
    requires SameTalk(a, b) && NeverAsks(env)
    ensures var x, y := OfferThenDispatch(env, a, call), OfferThenDispatch(env, b, call);
            x.Done? && y.Done? && SameTalk(x.conv, y.conv)
  {
    var id, tool := call.callId.GetOr(""), call.toolName;
    var (a1, handled) := OfferAll(env, a, call);
    var b1 := OfferAll(env, b, call).0;
    OfferAllAlike(env, a, b, call);
    if handled.Some? {
      PostHandledAlike(env, a1, b1, id, tool, handled.value);
    } else {
      var verdict := Verdict(env, tool, call.arguments, a1.state);
      if verdict.Deny? {
        PostErrorAlike(env.codec, a1, b1, id, tool, NotAllowed(verdict.code, verdict.reason));
      } else {
        DispatchAlike(env, a1, b1, call, call.arguments, None);
      }
    }
  }

  /** Serving a call does not look at the interrupt table. */
  lemma SameServe<S(!new)>(env: Env<S>, cv: Conv<S>, call: ProviderToolCall)
    ensures OfferThenDispatch(WithoutInterrupts(env), cv, call) == OfferThenDispatch(env, cv, call)
  {
    SameDispatch(env, OfferAll(env, cv, call).0, call, call.arguments);
  }

  /** Dispatching does not look at the interrupt table. */
  lemma SameDispatch<S(!new)>(env: Env<S>, cv: Conv<S>, call: ProviderToolCall, args: Value)
    ensures Dispatch(env, cv, call, args, None) == Dispatch(WithoutInterrupts(env), cv, call, args, None)
  {
  }

  /** What approving makes of a call that was held, or what executing made of one that was not. */
  ghost function Approved<S>(env: Env<S>, r: CallResult<S>): Conv<S> {
    match r
    case Done(cv) => cv
    case Held(cv, call) =>
      var p := PendingInterrupt(InterruptFor(call), call, []);
      Settle(env, cv.(log := cv.log + [Paused(call.callId.GetOr(""))]), p, Approve)
  }

  /** A call held because its tool is interrupted on, and then approved, ends as if it had been served. */
  lemma HeldApprovedAlike<S(!new)>(env: Env<S>, call: ProviderToolCall, a: Conv<S>, b: Conv<S>)
    requires SameTalk(a, b) && LetPass(env, call) && Verdict(env, call.toolName, call.arguments, a.state).Allow?
    ensures var y := OfferThenDispatch(env, b, call);
            y.Done? && SameTalk(Approved(env, Held(a, call)), y.conv)
  {
    var id := call.callId.GetOr("");
    var e1: Event<S>, e2: Event<S> := Paused(id), Decided(id, Approve);
    var a2 := a.(log := a.log + [e1]);
    var a3 := a2.(log := a2.log + [e2]);
    LogAlike(a, b, e1);
    LogAlike(a2, b, e2);
    OfferAllAlike(env, a3, b, call);
    DispatchAlike(env, a3, OfferAll(env, b, call).0, call, call.arguments, None);
  }

  lemma OneApprovedAlike<S(!new)>(env: Env<S>, call0: ProviderToolCall, a: Conv<S>, b: Conv<S>)
    requires SameTalk(a, b) && NeverAsks(env) && InterruptedUnhandled(env)
    ensures var y := ExecOne(WithoutInterrupts(env), false, call0, b);
            y.Done? && SameTalk(Approved(env, ExecOne(env, false, call0, a)), y.conv)
  {
    var p := PrepareCall(env.codec, call0, a.nextId);
    var a1, b1 := Enter(a, p), Enter(b, p);
    var id, tool := p.call.callId.GetOr(""), p.call.toolName;
    if p.error.Some? {
      PostErrorAlike(env.codec, a1, b1, id, tool, ArgumentsErrorText(p.error.value));
    } else {
      var verdict := Verdict(env, tool, p.call.arguments, a1.state);
      if verdict.Deny? {
        PostErrorAlike(env.codec, a1, b1, id, tool, NotAllowed(verdict.code, verdict.reason));
      } else {
        SameServe(env, b1, p.call);
        if Interrupts(env, tool) {
          HeldApprovedAlike(env, p.call, a1, b1);
        } else {
          ServeAlike(env, a1, b1, p.call);
        }
      }
    }
  }

  lemma TodoCountTail(calls: seq<ProviderToolCall>)
    requires calls != []
    ensures TodoCount(calls[1..]) <= TodoCount(calls)
  {
  }

  /**
   * Transparency: with at most one `write_todos` in the batch, a policy that never asks for a
   * reviewer and interrupted tools that no middleware handles, approving at every pause ends
   * in the same messages, ledgers, id counter, state and dispatches as never pausing at all.
   */
  lemma {:induction false} ApprovingIsTransparent<S(!new)>(env: Env<S>, calls: seq<ProviderToolCall>, a: Conv<S>,
                                                           b: Conv<S>)
    requires SameTalk(a, b) && NeverAsks(env) && InterruptedUnhandled(env) && TodoCount(calls) <= 1
    ensures var (plain, p) := ExecuteCalls(WithoutInterrupts(env), calls, b);
            p.None? && SameTalk(ApproveAll(env, calls, a), plain)
    decreases |calls|
  {
    if calls != [] {
      OneApprovedAlike(env, calls[0], a, b);
      TodoCountTail(calls);
      var x := ExecOne(env, false, calls[0], a);
      var y := ExecOne(WithoutInterrupts(env), false, calls[0], b);
      ApprovingIsTransparent(env, calls[1..], Approved(env, x), y.conv);
      assert ApproveAll(env, calls, a) == ApproveAll(env, calls[1..], Approved(env, x)) by {
        StepOfApproveAll(env, calls, a);
      }
    }
  }

  lemma StepOfApproveAll<S(!new)>(env: Env<S>, calls: seq<ProviderToolCall>, cv: Conv<S>)
    requires calls != [] && TodoCount(calls) <= 1
    ensures ApproveAll(env, calls, cv) == ApproveAll(env, calls[1..], Approved(env, ExecOne(env, false, calls[0], cv)))
  {
    TodoCountTail(calls);
    var x := ExecOne(env, false, calls[0], cv);
    match x {
      case Done(cv1) =>
        assert ExecuteCalls(env, calls, cv) == ExecuteCalls(env, calls[1..], cv1);
      case Held(cv1, call) =>
        var p := PendingInterrupt(InterruptFor(call), call, calls[1..]);
        var cv2 := cv1.(log := cv1.log + [Paused(call.callId.GetOr(""))]);
        assert ExecuteCalls(env, calls, cv) == (cv2, Some(p));
        assert Settle(env, cv2, p, Approve) == Approved(env, x);
    }
  }
}
