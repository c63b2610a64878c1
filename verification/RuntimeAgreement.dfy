/** The two runtimes do the same with every provider, and the one place where they differ. */
module RuntimeAgreement {
  import opened Wrappers
  import opened Types
  import opened ToolCompat
  import opened PatchToolCalls
  import opened RunnerSpec
  import opened RunnerInvariants
  import opened SimpleRuntimes
  import opened HitlTransparency

  // ----- when the runtimes are comparable -----

  /** Every batch that leaves the middlewares is already normalised. */
  ghost predicate SettledSteps<S(!new)>(env: Env<S>) {
    forall step: ProviderStep, n: nat ::
      var r := PatchStepChain(env.middlewares, step, n).1;
      r.Ok? && r.value.ToolCalls? ==> forall c :: c in r.value.calls ==> Settled(env.codec, c)
  }

  /** No interrupts, no policy that asks, and under a policy no middleware that touches `execute`. */
  ghost predicate Comparable<S(!new)>(env: Env<S>) {
    && (forall tool :: !Interrupts(env, tool))
    && NeverAsks(env)
    && (env.approval.Some? ==> forall call: ProviderToolCall :: call.toolName == "execute" ==> LetPass(env, call))
    && SettledSteps(env)
  }

  /** The middleware that repairs histories and normalises provider calls. */
  function PatchMiddleware<S>(codec: Codec): Middleware<S> {
    Middleware(
      (ms, s) => (s, Ok(RepairedView(codec, ms))),
      (ms, s) => (s, Ok(RepairedView(codec, ms))),
      (step: ProviderStep, n: nat) =>
        if step.ToolCalls? then (NormalizedCalls(codec, step.calls, n).1,
                                 Ok(ToolCalls(NormalizedCalls(codec, step.calls, n).0)))
        else (n, Ok(step)),
      (call, ms, s) => (ms, s, Ok(None)))
  }

  lemma {:induction false} PatchChainSplit<S>(a: seq<Middleware<S>>, b: seq<Middleware<S>>, step: ProviderStep, n: nat)
    ensures var (n1, r) := PatchStepChain(a, step, n);
            PatchStepChain(a + b, step, n) == if r.Ok? then PatchStepChain(b, r.value, n1) else (n1, r)
  {
    if a == [] {
      assert a + b == b;
    } else {
      assert (a + b)[0] == a[0] && (a + b)[1..] == a[1..] + b;
      var (n1, r) := a[0].patchProviderStep(step, n);
      if r.Ok? {
        PatchChainSplit(a[1..], b, r.value, n1);
      }
    }
  }

  lemma {:induction false} BeforeRunChainSplit<S>(a: seq<Middleware<S>>, b: seq<Middleware<S>>, ms: seq<Message>, s: S)
    ensures var (s1, r) := BeforeRunChain(a, ms, s);
            BeforeRunChain(a + b, ms, s) == if r.Ok? then BeforeRunChain(b, r.value, s1) else (s1, r)
  {
    if a == [] {
      assert a + b == b;
    } else {
      assert (a + b)[0] == a[0] && (a + b)[1..] == a[1..] + b;
      var (s1, r) := a[0].beforeRun(ms, s);
      if r.Ok? {
        BeforeRunChainSplit(a[1..], b, r.value, s1);
      }
    }
  }

  lemma {:induction false} IdlePatchHooks<S>(mws: seq<Middleware<S>>, step: ProviderStep, n: nat)
    requires forall m, st: ProviderStep, k: nat :: m in mws ==> m.patchProviderStep(st, k) == (k, Ok(st))
    ensures PatchStepChain(mws, step, n) == (n, Ok(step))
  {
    if mws != [] {
      assert mws[0] in mws;
      IdlePatchHooks(mws[1..], step, n);
    }
  }

  lemma {:induction false} IdleRunHooks<S(!new)>(mws: seq<Middleware<S>>, ms: seq<Message>, s: S)
    requires forall m, xs: seq<Message>, t: S ::
      m in mws && m.beforeRun(xs, t).1.Ok? ==> m.beforeRun(xs, t).1.value == xs
    ensures var r := BeforeRunChain(mws, ms, s).1; r.Ok? ==> r.value == ms
  {
    if mws != [] {
      assert mws[0] in mws;
      var (s1, r) := mws[0].beforeRun(ms, s);
      if r.Ok? {
        IdleRunHooks(mws[1..], ms, s1);
      }
    }
  }

  /**
   * With PatchToolCalls installed, and behind it only middlewares that keep the history and the
   * step, every run starts from a repaired history and every batch is normalised.
   */
  lemma PatchInstalled<S(!new)>(env: Env<S>, pre: seq<Middleware<S>>, post: seq<Middleware<S>>)
    requires env.middlewares == pre + [PatchMiddleware(env.codec)] + post
    requires forall m, st: ProviderStep, k: nat :: m in post ==> m.patchProviderStep(st, k) == (k, Ok(st))
    requires forall m, xs: seq<Message>, t: S ::
      m in post && m.beforeRun(xs, t).1.Ok? ==> m.beforeRun(xs, t).1.value == xs
    ensures SettledSteps(env) && StartsPatched(env)
  {
    var patch: Middleware<S> := PatchMiddleware(env.codec);
    forall step: ProviderStep, n: nat
      ensures var r := PatchStepChain(env.middlewares, step, n).1;
              r.Ok? && r.value.ToolCalls? ==> forall c :: c in r.value.calls ==> Settled(env.codec, c)
    {
      PatchChainSplit(pre + [patch], post, step, n);
      PatchChainSplit(pre, [patch], step, n);
      var (n1, r1) := PatchStepChain(pre, step, n);
      if r1.Ok? {
        var (n2, r2) := patch.patchProviderStep(r1.value, n1);
        assert PatchStepChain([patch], r1.value, n1) == (n2, r2);
        IdlePatchHooks(post, r2.value, n2);
        if r1.value.ToolCalls? {
          NormalizedCallsAreSettled(env.codec, r1.value.calls, n1);
        }
      }
    }
    forall ms: seq<Message>, s: S
      ensures var r := BeforeRunChain(env.middlewares, ms, s).1; r.Ok? ==> NothingDangling(r.value)
    {
      BeforeRunChainSplit(pre + [patch], post, ms, s);
      BeforeRunChainSplit(pre, [patch], ms, s);
      var (s1, r1) := BeforeRunChain(pre, ms, s);
      if r1.Ok? {
        assert BeforeRunChain([patch], r1.value, s1) == (s1, Ok(RepairedView(env.codec, r1.value)));
        PatchCompletes(env.codec, Normalized(env.codec, r1.value));
        IdleRunHooks(post, RepairedView(env.codec, r1.value), s1);
      }
    }
  }

  // ----- one call, one batch -----

  /** Past the first policy check both runtimes treat a call alike. */
  lemma ServeAgrees<S(!new)>(env: Env<S>, a: Conv<S>, b: Conv<S>, call: ProviderToolCall)
    requires NeverAsks(env) && SameTalk(a, b)
    ensures var r := OfferThenDispatch(env, a, call);
            r.Done? && SameTalk(r.conv, SimpleServe(env, b, call))
  {
    ServeAlike(env, a, b, call);
    assert SimpleServe(env, b, call) == OfferThenDispatch(env, b, call).conv;
  }

  /** A denied call ends the same way, whether the policy is asked before the middlewares or after them. */
  lemma DenialAgrees<S(!new)>(env: Env<S>, a: Conv<S>, b: Conv<S>, call: ProviderToolCall)
    requires SameTalk(a, b) && LetPass(env, call)
    requires Verdict(env, call.toolName, call.arguments, a.state).Deny?
    ensures var d := Verdict(env, call.toolName, call.arguments, a.state);
            SameTalk(PostError(env.codec, a, call.callId.GetOr(""), call.toolName, NotAllowed(d.code, d.reason)),
                     SimpleServe(env, b, call))
  {
    OfferAllAlike(env, a, b, call);
  }

  lemma OneAgrees<S(!new)>(env: Env<S>, guard: bool, call0: ProviderToolCall, a: Conv<S>, b: Conv<S>)
    requires Comparable(env) && SameTalk(a, b)
    ensures var r := ExecOne(env, guard, call0, a);
            r.Done? && SameTalk(r.conv, SimpleOne(env, guard, call0, b))
  {
    var p := PrepareCall(env.codec, call0, a.nextId);
    var call := p.call;
    var a1, b1 := Enter(a, p), Enter(b, p);
    if p.error.None? && !(guard && call.toolName == "write_todos") {
      if Verdict(env, call.toolName, call.arguments, a1.state).Deny? {
        DenialAgrees(env, a1, b1, call);
      } else {
        ServeAgrees(env, a1, b1, call);
      }
    }
  }

  lemma {:induction false} QueueAgrees<S(!new)>(env: Env<S>, guard: bool, queue: seq<ProviderToolCall>, a: Conv<S>,
                                                b: Conv<S>)
    requires Comparable(env) && SameTalk(a, b)
    ensures var (cv, p) := ExecQueue(env, guard, queue, a);
            p.None? && SameTalk(cv, SimpleQueue(env, guard, queue, b))
    decreases |queue|
  {
    if queue != [] {
      OneAgrees(env, guard, queue[0], a, b);
      QueueAgrees(env, guard, queue[1..], ExecOne(env, guard, queue[0], a).conv, SimpleOne(env, guard, queue[0], b));
    }
  }

  // ----- one turn -----

  /** The provider overflowed, and a middleware failed while summarization was being forced. */
  ghost predicate ForcedHookFails<S>(env: Env<S>, cv: Conv<S>) {
    var first := AskOnce(env, cv);
    && first.Answer? && Overflow(first.step)
    && BeforeStepChain(env.middlewares, first.conv.messages, env.setForce(first.conv.state)).1.Err?
  }

  /** Both runtimes get the same answer, or end with the same error and the force flag set in one of them. */
  lemma AskAgrees<S(!new)>(env: Env<S>, a: Conv<S>, b: Conv<S>)
    requires SameTalk(a, b)
    ensures var x, y := AskProvider(env, a), SimpleAsk(env, b);
            && (x.Answer? <==> y.Answer?)
            && (x.Answer? ==> x.step == y.step && SameTalk(x.conv, y.conv))
            && (x.Abort? ==>
                  && x.error == y.error && x.reason == y.reason
                  && SameTalk(x.conv, y.conv.(state := x.conv.state)))
            && (ForcedHookFails(env, b) ==> x.Abort? && x.conv.state == env.clearForce(y.conv.state))
            && (!ForcedHookFails(env, b) ==> x.conv.state == y.conv.state)
  {
    var first, second := AskOnce(env, a), AskOnce(env, b);
    assert SameTalk(first.conv, second.conv) && (first.Answer? <==> second.Answer?);
    assert first.Answer? ==> first.step == second.step;
    if first.Answer? && Overflow(first.step) {
      var forced, again := AskForced(env, first.conv), SimpleAskForced(env, second.conv);
      assert ForcedHookFails(env, b) ==> forced.Abort? && again.Abort?;
    }
  }

  lemma BatchAgrees<S(!new)>(env: Env<S>, r: Runner<S>, b: Conv<S>, calls: seq<ProviderToolCall>)
    requires Comparable(env) && SameTalk(r.conv, b) && r.pending.None?
    ensures var o := RunBatch(env, r, calls);
            o.Go? && o.runner == r.(conv := o.runner.conv) && SameTalk(o.runner.conv, SimpleBatch(env, calls, b))
  {
    QueueAgrees(env, TodoCount(calls) > 1, calls, r.conv, b);
  }

  lemma ActAgrees<S(!new)>(env: Env<S>, r: Runner<S>, b: Conv<S>, step: ProviderStep, k: nat)
    requires Comparable(env) && SameTalk(r.conv, b) && r.pending.None?
    requires step.ToolCalls? ==> forall c :: c in step.calls ==> Settled(env.codec, c)
    ensures var x, y := Act(env, r, step, k), SimpleAct(env, b, step, k);
            && x.runner == r.(conv := x.runner.conv) && SameTalk(x.runner.conv, y.conv)
            && (x.Stop? <==> y.Finish?)
            && (x.Stop? ==> x.output == y.output)
  {
    match step {
      case SkillCall(name, input, callId) =>
        var (state, expanded) := env.skill(name, input, callId, b.state);
        if expanded.Ok? {
          BatchAgrees(env, r.(conv := r.conv.(state := state)), b.(state := state), expanded.value);
        }
      case ToolCalls(calls) =>
        SettledCallsAreFixed(env.codec, calls, b.nextId);
        var m := Announce(calls);
        BatchAgrees(env, r.(conv := r.conv.(messages := r.conv.messages + [m])), b.(messages := b.messages + [m]),
                    calls);
      case _ =>
    }
  }

  // ----- whole runs -----

  /** The run ends because a middleware failed while summarization was being forced. */
  ghost predicate EndsForced<S>(env: Env<S>, cv: Conv<S>, k: nat)
    decreases env.maxSteps - k
  {
    && k < env.maxSteps
    && (|| ForcedHookFails(env, cv)
        || var t := SimpleTurn(env, cv, k); t.Continue? && EndsForced(env, t.conv, k + 1))
  }

  lemma {:induction false} LoopAgrees<S(!new)>(env: Env<S>, r: Runner<S>, b: Conv<S>, k: nat)
    requires Comparable(env) && SameTalk(r.conv, b) && r.pending.None?
    ensures var (r1, out) := RunLoop(env, r, k);
            var (cv, out2) := SimpleLoop(env, b, k);
            && r1 == r.(conv := r1.conv)
            && SameTalk(r1.conv, cv.(state := r1.conv.state))
            && out == out2.(state := out.state) && out.state == r1.conv.state && out2.state == cv.state
            && r1.conv.state == (if EndsForced(env, b, k) then env.clearForce(cv.state) else cv.state)
    decreases env.maxSteps - k
  {
    if k < env.maxSteps {
      AskAgrees(env, r.conv, b);
      var x, y := AskProvider(env, r.conv), SimpleAsk(env, b);
      if x.Answer? {
        AnswersAreSettled(env, r.conv);
        ActAgrees(env, r.(conv := x.conv), y.conv, x.step, k);
        var t := Turn(env, r, k);
        if t.Go? {
          LoopAgrees(env, t.runner, SimpleTurn(env, b, k).conv, k + 1);
        }
      }
    }
  }

  lemma AnswersAreSettled<S(!new)>(env: Env<S>, cv: Conv<S>)
    requires SettledSteps(env)
    ensures var x := AskProvider(env, cv);
            x.Answer? && x.step.ToolCalls? ==> forall c :: c in x.step.calls ==> Settled(env.codec, c)
  {
    var first := AskOnce(env, cv);
    var asked := if first.Answer? && Overflow(first.step) then AskForced(env, first.conv) else first;
    if asked.Answer? {
      var r := PatchStepChain(env.middlewares, asked.step, asked.conv.nextId).1;
    }
  }

  /** The conversation from which the loop of a run starts. */
  ghost function Opening<S>(env: Env<S>, messages: seq<Message>, state: S): Option<Conv<S>> {
    var (s, prepared) := BeforeRunChain(env.middlewares, Normalized(env.codec, messages), state);
    if prepared.Ok? then Some(Conv(prepared.value, [], ResultsOf(env.codec, prepared.value), 1, s, [])) else None
  }

  /** The run of the simple runtime that leaves its force flag behind. */
  ghost predicate LeavesForceFlag<S>(env: Env<S>, messages: seq<Message>, state: S) {
    var start := Opening(env, messages, state);
    start.Some? && EndsForced(env, start.value, 0)
  }

  /**
   * On comparable surroundings one run of a fresh resumable runner and one run of the simple
   * runtime end with the same messages, ledgers, id counter, dispatches and output. Their
   * states are equal too, unless the run ends because a middleware failed while summarization
   * was being forced: then the simple runtime still has the flag the other one cleared.
   */
  lemma RuntimesAgree<S(!new)>(env: Env<S>, messages: seq<Message>, state: S)
    requires Comparable(env)
    ensures var (r, out) := Run(env, Fresh(messages, state));
            var (cv, out2) := SimpleRun(env, messages, state);
            && r.pending.None?
            && SameTalk(r.conv, cv.(state := r.conv.state))
            && out == out2.(state := r.conv.state) && out2.state == cv.state
            && r.conv.state == (if LeavesForceFlag(env, messages, state) then env.clearForce(cv.state) else cv.state)
  {
    var start := Opening(env, messages, state);
    if start.Some? {
      var i := Initialize(env, Fresh(messages, state));
      assert i.runner.conv == start.value;
      LoopAgrees(env, i.runner, start.value, 0);
    }
  }

  /** The runtimes agree in everything exactly when no forced flag is left that clearing would change. */
  lemma RuntimesAgreeIff<S(!new)>(env: Env<S>, messages: seq<Message>, state: S)
    requires Comparable(env)
    ensures var (r, out) := Run(env, Fresh(messages, state));
            var (cv, out2) := SimpleRun(env, messages, state);
            SameTalk(r.conv, cv) && out == out2
            <==> (LeavesForceFlag(env, messages, state) ==> env.clearForce(cv.state) == cv.state)
  {
    RuntimesAgree(env, messages, state);
  }

  /** No hook before a provider step fails while summarization is being forced. */
  ghost predicate ForcedHooksSucceed<S(!new)>(env: Env<S>) {
    forall ms, s :: BeforeStepChain(env.middlewares, ms, env.setForce(s)).1.Ok?
  }

  lemma {:induction false} NeverEndsForced<S(!new)>(env: Env<S>, cv: Conv<S>, k: nat)
    requires ForcedHooksSucceed(env)
    ensures !EndsForced(env, cv, k)
    decreases env.maxSteps - k
  {
    if k < env.maxSteps {
      var t := SimpleTurn(env, cv, k);
      if t.Continue? {
        NeverEndsForced(env, t.conv, k + 1);
      }
    }
  }

  /** Then the runtimes agree in everything, state included. */
  lemma RuntimesAgreeFully<S(!new)>(env: Env<S>, messages: seq<Message>, state: S)
    requires Comparable(env) && ForcedHooksSucceed(env)
    ensures var (r, out) := Run(env, Fresh(messages, state));
            var (cv, out2) := SimpleRun(env, messages, state);
            SameTalk(r.conv, cv) && out == out2
  {
    var start := Opening(env, messages, state);
    if start.Some? {
      NeverEndsForced(env, start.value, 0);
    }
    RuntimesAgreeIff(env, messages, state);
  }

  // ----- surroundings on which they differ -----

  /** A middleware that fails exactly when summarization is being forced; the state is the flag itself. */
  function FailsWhenForced(): Middleware<bool> {
    Middleware(
      (ms, s) => (s, Ok(ms)),
      (ms, s) => (s, if s then Err("forced") else Ok(ms)),
      (step: ProviderStep, n: nat) => (n, Ok(step)),
      (call, ms, s) => (ms, s, Ok(None)))
  }

  /** A provider that always reports an overflow. */
  function AlwaysOverflows(codec: Codec): Env<bool> {
    Env(codec, [PatchMiddleware(codec), FailsWhenForced()],
        (req, s) => (s, Replied(StepError("context_overflow", "too long"))),
        (name, input, id, s) => (s, Err(RuntimeError("skill_not_found", name))),
        (name, args, s) => (s, Err("unknown tool")),
        (tool, id, output, s) => (s, output, ""),
        None, "non_interactive", map[], s => true, s => false, 1)
  }

  lemma RuntimesCanDisagree(codec: Codec)
    ensures var env := AlwaysOverflows(codec);
            && Comparable(env)
            && Run(env, Fresh([], false)).0.conv.state == false
            && SimpleRun(env, [], false).0.state == true
  {
    var env := AlwaysOverflows(codec);
    var patch, failing := PatchMiddleware<bool>(codec), FailsWhenForced();
    assert env.middlewares == [] + [patch] + [failing];
    PatchInstalled(env, [], [failing]);
    assert env.middlewares[1..] == [failing] && [failing][1..] == [];
    assert RepairedView(codec, []) == [];
    assert BeforeRunChain([failing], [], false) == (false, Ok([]));
    assert BeforeRunChain(env.middlewares, [], false) == (false, Ok([]));
    var start := Conv([], [], [], 1, false, []);
    assert Opening(env, [], false) == Some(start);
    assert BeforeStepChain([failing], [], false) == (false, Ok([]));
    assert BeforeStepChain(env.middlewares, [], false) == (false, Ok([]));
    assert AskOnce(env, start) == Answer(start, StepError("context_overflow", "too long"));
    assert BeforeStepChain([failing], [], true) == (true, Err("forced"));
    assert BeforeStepChain(env.middlewares, [], true) == (true, Err("forced"));
    assert SimpleAsk(env, start).Abort? && SimpleAsk(env, start).conv.state == true;
    assert SimpleLoop(env, start, 0).0.state == true;
    RuntimesAgree(env, [], false);
  }
}
