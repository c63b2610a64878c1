/** Approving every pause of a whole run: the run goes as if it had never paused, unless it hits the step limit. */
module HitlRuns {
  import opened Wrappers
  import opened Json
  import opened Text
  import opened Types
  import opened PatchToolCalls
  import opened RunnerSpec
  import opened HitlTransparency
  import opened TodoGuard

  // ----- approving until nothing is held -----

  /** Approve what is held, if anything is. */
  ghost function ApproveOnce<S>(env: Env<S>, x: (Runner<S>, RunOutput<S>)): (Runner<S>, RunOutput<S>) {
    if x.0.pending.None? then x else Resume(env, x.0, x.0.pending.value.interrupt.interruptId, Approve)
  }

  ghost function ApproveTimes<S>(env: Env<S>, x: (Runner<S>, RunOutput<S>), n: nat): (Runner<S>, RunOutput<S>)
    decreases n
  {
    if n == 0 then x else ApproveTimes(env, ApproveOnce(env, x), n - 1)
  }

  lemma {:induction false} ApproveSum<S>(env: Env<S>, x: (Runner<S>, RunOutput<S>), m: nat, n: nat)
    ensures ApproveTimes(env, x, m + n) == ApproveTimes(env, ApproveTimes(env, x, m), n)
    decreases m
  {
    if m > 0 {
      ApproveSum(env, ApproveOnce(env, x), m - 1, n);
    }
  }

  /** The state and output of a stopped run, or of the run that goes on with a fresh step count. */
  ghost function RunOn<S>(env: Env<S>, b: Outcome<S>): (Runner<S>, RunOutput<S>) {
    if b.Stop? then (b.runner, b.output) else RunLoop(env, b.runner, 0)
  }

  /** Resuming with an approval settles the held call and takes up the batch where it stopped. */
  lemma ApprovalTakesUpBatch<S(!new)>(env: Env<S>, r: Runner<S>, out: RunOutput<S>)
    requires r.initialized && r.pending.Some?
    ensures var p := r.pending.value;
            var r1 := r.(conv := Settle(env, r.conv, p, Approve), pending := None);
            ApproveOnce(env, (r, out)) == RunOn(env, RunBatch(env, r1, p.remaining))
  {
  }

  /**
   * A batch that pauses is approved to its end by some number of approvals, and the run then
   * goes on with a fresh step count.
   */
  lemma {:induction false} ApprovedBatchRunsOn<S(!new)>(env: Env<S>, r: Runner<S>, calls: seq<ProviderToolCall>)
    returns (n: nat)
    requires r.initialized && r.pending.None?
    ensures var done := r.(conv := ApproveAll(env, calls, r.conv));
            var b := RunBatch(env, r, calls);
            if b.Go? then b.runner == done
            else ApproveTimes(env, (b.runner, b.output), n) == RunLoop(env, done, 0)
    decreases |calls|
  {
    n := 0;
    var b := RunBatch(env, r, calls);
    if b.Stop? {
      var p := b.runner.pending.value;
      var r1 := r.(conv := Settle(env, b.runner.conv, p, Approve));
      var next := RunBatch(env, r1, p.remaining);
      ApprovalTakesUpBatch(env, b.runner, b.output);
      var m := ApprovedBatchRunsOn(env, r1, p.remaining);
      assert ApproveAll(env, calls, r.conv) == ApproveAll(env, p.remaining, r1.conv);
      n := 1 + if next.Go? then 0 else m;
      OneMoreApproval(env, (b.runner, b.output), RunOn(env, next), n - 1);
    }
  }

  lemma OneMoreApproval<S>(env: Env<S>, x: (Runner<S>, RunOutput<S>), y: (Runner<S>, RunOutput<S>), n: nat)
    requires ApproveOnce(env, x) == y
    ensures ApproveTimes(env, x, 1 + n) == ApproveTimes(env, y, n)
    ensures ApproveTimes(env, y, 0) == y
  {
  }

  // ----- one turn -----

  /** Neither runner holds a call, and they differ at most in how their calls were reviewed. */
  ghost predicate SameRunner<S(!new)>(a: Runner<S>, b: Runner<S>) {
    && a.pending.None? && b.pending.None?
    && a.initialized == b.initialized && a.opening == b.opening
    && SameTalk(a.conv, b.conv)
  }

  /** Equal outputs, except for the number of the step at which the run ended. */
  ghost predicate SameOutput<S>(a: RunOutput<S>, b: RunOutput<S>) {
    && a == b.(trace := a.trace)
    && (a.trace.None? <==> b.trace.None?)
    && (a.trace.Some? ==> a.trace.value.reason == b.trace.value.reason)
  }

  /** No batch holds two `write_todos`. */
  ghost predicate OneTodoAtMost<S(!new)>(env: Env<S>) {
    && (forall cv: Conv<S> ::
          var a := AskProvider(env, cv); a.Answer? && a.step.ToolCalls? ==> TodoCount(a.step.calls) <= 1)
    && (forall name, input, id, s: S ::
          var r := env.skill(name, input, id, s).1; r.Ok? ==> TodoCount(r.value) <= 1)
  }

  /** What the transparency of whole runs asks of the surroundings. */
  ghost predicate Transparent<S(!new)>(env: Env<S>) {
    NeverAsks(env) && InterruptedUnhandled(env) && OneTodoAtMost(env)
  }

  lemma {:induction false} NormalizingKeepsTodos(codec: Codec, calls: seq<ProviderToolCall>, nextId: nat)
    ensures TodoCount(NormalizedCalls(codec, calls, nextId).0) == TodoCount(calls)
    decreases |calls|
  {
    if calls != [] {
      var (c, next) := NormalizeProviderCall(codec, calls[0], nextId);
      VisibleIsNotBlank("write_todos");
      assert c.toolName == "write_todos" <==> calls[0].toolName == "write_todos";
      NormalizingKeepsTodos(codec, calls[1..], next);
      var rest := NormalizedCalls(codec, calls[1..], next).0;
      assert ([c] + rest)[1..] == rest;
    }
  }

  ghost predicate SameAsked<S(!new)>(x: Asked<S>, y: Asked<S>) {
    && SameTalk(x.conv, y.conv)
    && (x.Answer? <==> y.Answer?)
    && (x.Answer? ==> x.step == y.step)
    && (x.Abort? ==> x.error == y.error && x.reason == y.reason)
  }

  /** What two conversations that differ only in their logs make of a reply. */
  lemma ReplyAlike<S(!new)>(a: Conv<S>, b: Conv<S>, state: S, reply: Reply)
    requires SameTalk(a, b)
    ensures SameAsked(ReadReply(a.(state := state), reply), ReadReply(b.(state := state), reply))
  {
  }

  lemma AskOnceAlike<S(!new)>(env: Env<S>, a: Conv<S>, b: Conv<S>)
    requires SameTalk(a, b)
    ensures SameAsked(AskOnce(env, a), AskOnce(env, b))
  {
    var (s1, view) := BeforeStepChain(env.middlewares, a.messages, a.state);
    if view.Ok? {
      var (s2, reply) := env.provider(Request(view.value, a.results), s1);
      ReplyAlike(a, b, s2, reply);
    }
  }

  lemma AskForcedAlike<S(!new)>(env: Env<S>, a: Conv<S>, b: Conv<S>)
    requires SameTalk(a, b)
    ensures SameAsked(AskForced(env, a), AskForced(env, b))
  {
    var (s1, view) := BeforeStepChain(env.middlewares, a.messages, env.setForce(a.state));
    if view.Ok? {
      var (s2, reply) := env.provider(Request(view.value, a.results), env.clearForce(s1));
      ReplyAlike(a, b, s2, reply);
    }
  }

  lemma AskIgnoresInterrupts<S(!new)>(env: Env<S>, cv: Conv<S>)
    ensures AskProvider(WithoutInterrupts(env), cv) == AskProvider(env, cv)
  {
    var plain := WithoutInterrupts(env);
    var first := AskOnce(env, cv);
    assert AskOnce(plain, cv) == first;
    assert AskForced(plain, first.conv) == AskForced(env, first.conv);
  }

  /** Asking the provider depends on the conversation only up to review, and not on the interrupt table. */
  lemma AskAlike<S(!new)>(env: Env<S>, a: Conv<S>, b: Conv<S>)
    requires SameTalk(a, b)
    ensures SameAsked(AskProvider(env, a), AskProvider(WithoutInterrupts(env), b))
  {
    AskIgnoresInterrupts(env, b);
    var x, y := AskOnce(env, a), AskOnce(env, b);
    AskOnceAlike(env, a, b);
    AskForcedAlike(env, x.conv, y.conv);
  }

  /** A batch without pauses goes as one approved at every pause, after which the run goes on. */
  lemma BatchAlike<S(!new)>(env: Env<S>, r: Runner<S>, b: Runner<S>, calls: seq<ProviderToolCall>)
    returns (n: nat, done: Runner<S>)
    requires Transparent(env) && SameRunner(r, b) && r.initialized && TodoCount(calls) <= 1
    ensures var x, y := RunBatch(env, r, calls), RunBatch(WithoutInterrupts(env), b, calls);
            && y.Go? && done.initialized && SameRunner(done, y.runner)
            && (if x.Go? then x.runner == done
                else x.runner.pending.Some? && ApproveTimes(env, (x.runner, x.output), n) == RunLoop(env, done, 0))
  {
    ApprovingIsTransparent(env, calls, r.conv, b.conv);
    n := ApprovedBatchRunsOn(env, r, calls);
    done := r.(conv := ApproveAll(env, calls, r.conv));
  }

  lemma ActAlike<S(!new)>(env: Env<S>, r: Runner<S>, b: Runner<S>, step: ProviderStep, j: nat, k: nat)
    returns (n: nat, done: Runner<S>)
    requires Transparent(env) && SameRunner(r, b) && r.initialized
    requires step.ToolCalls? ==> TodoCount(step.calls) <= 1
    ensures var x, y := Act(env, r, step, j), Act(WithoutInterrupts(env), b, step, k);
            && (y.Stop? ==> x.Stop? && SameRunner(x.runner, y.runner) && SameOutput(x.output, y.output))
            && (y.Go? ==>
                  && done.initialized && SameRunner(done, y.runner)
                  && (if x.Go? then x.runner == done
                      else
                        && x.runner.pending.Some?
                        && ApproveTimes(env, (x.runner, x.output), n) == RunLoop(env, done, 0)))
  {
    n, done := 0, Act(env, r, step, j).runner;
    match step {
      case SkillCall(name, input, callId) =>
        var (state, expanded) := env.skill(name, input, callId, r.conv.state);
        if expanded.Ok? {
          n, done := BatchAlike(env, r.(conv := r.conv.(state := state)), b.(conv := b.conv.(state := state)),
                                expanded.value);
        }
      case ToolCalls(calls0) =>
        var (calls, nextId) := NormalizedCalls(env.codec, calls0, r.conv.nextId);
        NormalizingKeepsTodos(env.codec, calls0, r.conv.nextId);
        n, done := BatchAlike(env,
          r.(conv := r.conv.(nextId := nextId, messages := r.conv.messages + [Announce(calls)])),
          b.(conv := b.conv.(nextId := nextId, messages := b.conv.messages + [Announce(calls)])), calls);
      case _ =>
    }
  }

  /** One turn: it ends alike, or it goes on alike after some number of approvals. */
  lemma TurnAlike<S(!new)>(env: Env<S>, r: Runner<S>, b: Runner<S>, j: nat, k: nat) returns (n: nat, done: Runner<S>)
    requires Transparent(env) && SameRunner(r, b) && r.initialized
    ensures var t, u := Turn(env, r, j), Turn(WithoutInterrupts(env), b, k);
            && (u.Stop? ==> t.Stop? && SameRunner(t.runner, u.runner) && SameOutput(t.output, u.output))
            && (u.Go? ==>
                  && done.initialized && SameRunner(done, u.runner)
                  && (if t.Go? then t.runner == done
                      else
                        && t.runner.pending.Some?
                        && ApproveTimes(env, (t.runner, t.output), n) == RunLoop(env, done, 0)))
  {
    AskAlike(env, r.conv, b.conv);
    var x, y := AskProvider(env, r.conv), AskProvider(WithoutInterrupts(env), b.conv);
    n, done := 0, r;
    if x.Answer? {
      n, done := ActAlike(env, r.(conv := x.conv), b.(conv := y.conv), x.step, j, k);
    }
  }

  // ----- whole runs -----

  /** The run comes to an end before the step limit. */
  ghost predicate Ends<S>(env: Env<S>, r: Runner<S>, k: nat)
    decreases env.maxSteps - k
  {
    k < env.maxSteps && var t := Turn(env, r, k); (t.Go? ==> Ends(env, t.runner, k + 1))
  }

  lemma LoopUnfolds<S(!new)>(env: Env<S>, r: Runner<S>, k: nat)
    requires k < env.maxSteps
    ensures var t := Turn(env, r, k);
            RunLoop(env, r, k) == if t.Stop? then (t.runner, t.output) else RunLoop(env, t.runner, k + 1)
  {
  }

  ghost predicate SameEnd<S(!new)>(x: (Runner<S>, RunOutput<S>), y: (Runner<S>, RunOutput<S>)) {
    SameRunner(x.0, y.0) && SameOutput(x.1, y.1)
  }

  /** An observation that sees neither how calls were reviewed nor the number of the last step. */
  ghost predicate Blind<S(!new), V>(view: ((Runner<S>, RunOutput<S>)) -> V) {
    forall x: (Runner<S>, RunOutput<S>), y: (Runner<S>, RunOutput<S>) :: SameEnd(x, y) ==> view(x) == view(y)
  }

  /** Approvals that finish a batch, and then those that finish the rest of the run. */
  lemma BatchThenRest<S(!new), V>(env: Env<S>, view: ((Runner<S>, RunOutput<S>)) -> V, x: (Runner<S>, RunOutput<S>),
                                  m: nat, rest: (Runner<S>, RunOutput<S>), more: nat)
    returns (n: nat)
    requires ApproveTimes(env, x, m) == rest
    ensures n == m + more && view(ApproveTimes(env, x, n)) == view(ApproveTimes(env, rest, more))
  {
    n := m + more;
    ApproveSum(env, x, m, more);
  }

  lemma NoApproval<S>(env: Env<S>, x: (Runner<S>, RunOutput<S>))
    ensures ApproveTimes(env, x, 0) == x
  {
  }

  lemma SeenAlike<S(!new), V>(env: Env<S>, view: ((Runner<S>, RunOutput<S>)) -> V, x: (Runner<S>, RunOutput<S>),
                              y: (Runner<S>, RunOutput<S>))
    requires Blind(view) && SameEnd(x, y)
    ensures view(ApproveTimes(env, x, 0)) == view(y)
  {
  }

  lemma StopsAlike<S(!new)>(env: Env<S>, r: Runner<S>, b: Runner<S>, j: nat, k: nat, u: Outcome<S>)
    requires Transparent(env) && SameRunner(r, b) && r.initialized && j <= k < env.maxSteps
    requires u == Turn(WithoutInterrupts(env), b, k) && u.Stop?
    ensures SameEnd(RunLoop(env, r, j), (u.runner, u.output))
  {
    LoopUnfolds(env, r, j);
    var _, _ := TurnAlike(env, r, b, j, k);
  }

  lemma GoesOnAlike<S(!new)>(env: Env<S>, r: Runner<S>, b: Runner<S>, j: nat, k: nat, u: Outcome<S>)
    returns (m: nat, done: Runner<S>, j1: nat)
    requires Transparent(env) && SameRunner(r, b) && r.initialized && j <= k < env.maxSteps
    requires u == Turn(WithoutInterrupts(env), b, k) && u.Go?
    ensures done.initialized && SameRunner(done, u.runner) && j1 <= j + 1
    ensures var t := Turn(env, r, j); if t.Go? then done == t.runner else j1 == 0
    ensures ApproveTimes(env, RunLoop(env, r, j), m) == RunLoop(env, done, j1)
  {
    var t := Turn(env, r, j);
    m, done := TurnAlike(env, r, b, j, k);
    if t.Go? {
      m, j1 := 0, j + 1;
      LoopUnfolds(env, r, j);
      NoApproval(env, RunLoop(env, r, j));
    } else {
      j1 := 0;
      LoopUnfolds(env, r, j);
    }
  }

  /**
   * The loop after one turn: both ends are reached, or some
   * approvals lead to the loop of a runner like the other's.
   */
  lemma LoopAlike<S(!new), V>(env: Env<S>, view: ((Runner<S>, RunOutput<S>)) -> V, r: Runner<S>, b: Runner<S>,
                              j: nat, k: nat, u: Outcome<S>)
    returns (m: nat, done: Runner<S>, j1: nat)
    requires Transparent(env) && Blind(view) && SameRunner(r, b) && r.initialized && j <= k < env.maxSteps
    requires u == Turn(WithoutInterrupts(env), b, k)
    ensures u.Stop? ==> view(ApproveTimes(env, RunLoop(env, r, j), 0)) == view((u.runner, u.output))
    ensures u.Go? ==>
              && done.initialized && SameRunner(done, u.runner) && j1 <= k + 1
              && ApproveTimes(env, RunLoop(env, r, j), m) == RunLoop(env, done, j1)
  {
    m, done, j1 := 0, b, 0;
    if u.Stop? {
      StopsAlike(env, r, b, j, k, u);
      SeenAlike(env, view, RunLoop(env, r, j), (u.runner, u.output));
    } else {
      m, done, j1 := GoesOnAlike(env, r, b, j, k, u);
    }
  }

  lemma PlainUnfolds<S(!new), V>(env: Env<S>, view: ((Runner<S>, RunOutput<S>)) -> V, b: Runner<S>, k: nat)
    returns (u: Outcome<S>, k1: nat)
    requires Ends(WithoutInterrupts(env), b, k)
    ensures k < env.maxSteps && k1 == k + 1 && u == Turn(WithoutInterrupts(env), b, k)
    ensures u.Stop? ==> view(RunLoop(WithoutInterrupts(env), b, k)) == view((u.runner, u.output))
    ensures u.Go? ==>
              && Ends(WithoutInterrupts(env), u.runner, k1)
              && view(RunLoop(WithoutInterrupts(env), b, k)) == view(RunLoop(WithoutInterrupts(env), u.runner, k1))
  {
    u, k1 := Turn(WithoutInterrupts(env), b, k), k + 1;
  }

  /**
   * If the run without interrupts ends before the step limit, then so many approvals bring the
   * run with interrupts to the same end, for any observation that is blind to the review.
   */
  lemma {:induction false} ApprovedLoopIsTransparent<S(!new), V>(
    env: Env<S>, view: ((Runner<S>, RunOutput<S>)) -> V, r: Runner<S>, b: Runner<S>, j: nat, k: nat)
    returns (n: nat)
    requires Transparent(env) && Blind(view) && SameRunner(r, b) && r.initialized && j <= k
    requires Ends(WithoutInterrupts(env), b, k)
    ensures view(ApproveTimes(env, RunLoop(env, r, j), n)) == view(RunLoop(WithoutInterrupts(env), b, k))
    decreases env.maxSteps - k
  {
    var u, k1 := PlainUnfolds(env, view, b, k);
    var m, done, j1 := LoopAlike(env, view, r, b, j, k, u);
    if u.Stop? {
      n := 0;
    } else {
      var more := ApprovedLoopIsTransparent(env, view, done, u.runner, j1, k1);
      n := BatchThenRest(env, view, RunLoop(env, r, j), m, RunLoop(env, done, j1), more);
    }
  }

  lemma {:induction false} PlainLoopHoldsNothing<S(!new)>(env: Env<S>, b: Runner<S>, k: nat)
    requires Transparent(env) && b.pending.None? && b.initialized
    ensures RunLoop(WithoutInterrupts(env), b, k).0.pending.None?
    decreases env.maxSteps - k
  {
    if k < env.maxSteps {
      var u := Turn(WithoutInterrupts(env), b, k);
      LoopUnfolds(WithoutInterrupts(env), b, k);
      var m, done := TurnAlike(env, b, b, k, k);
      if u.Go? {
        PlainLoopHoldsNothing(env, u.runner, k + 1);
      }
    }
  }

  /** How a run ended, up to the way its calls were reviewed and the number of its last step. */
  datatype End<S> = End(
    messages: seq<Message>,
    calls: seq<ToolCallRecord>,
    results: seq<ToolResultRecord>,
    nextId: nat,
    state: S,
    dispatches: seq<Event<S>>,
    held: bool,
    opening: seq<Message>,
    output: RunOutput<S>)

  ghost function EndOf<S>(x: (Runner<S>, RunOutput<S>)): End<S> {
    var cv, trace := x.0.conv, x.1.trace;
    End(cv.messages, cv.calls, cv.results, cv.nextId, cv.state, Dispatches(cv.log), x.0.pending.Some?, x.0.opening,
        x.1.(trace := if trace.Some? then Some(Trace(0, trace.value.reason)) else None))
  }

  /** The run from this history and state without interrupts starts, and ends before the step limit. */
  ghost predicate EndsPlainly<S>(env: Env<S>, messages: seq<Message>, state: S) {
    var start := Initialize(WithoutInterrupts(env), Fresh(messages, state));
    start.Go? ==> Ends(WithoutInterrupts(env), start.runner, 0)
  }

  /**
   * Transparency of whole runs: if the run of a fresh runner without interrupts ends before the
   * step limit, then some number of approvals brings the run with interrupts to the same end: same
   * messages, ledgers, id counter, state, dispatches and output, and nothing held.
   */
  lemma ApprovedRunIsTransparent<S(!new)>(env: Env<S>, messages: seq<Message>, state: S) returns (n: nat)
    requires Transparent(env) && EndsPlainly(env, messages, state)
    ensures EndOf(ApproveTimes(env, Run(env, Fresh(messages, state)), n))
            == EndOf(Run(WithoutInterrupts(env), Fresh(messages, state)))
    ensures ApproveTimes(env, Run(env, Fresh(messages, state)), n).0.pending.None?
  {
    n := 0;
    var start := Initialize(env, Fresh(messages, state));
    if start.Go? {
      var view := (x: (Runner<S>, RunOutput<S>)) => EndOf(x);
      n := ApprovedLoopIsTransparent(env, view, start.runner, start.runner, 0, 0);
      PlainLoopHoldsNothing(env, start.runner, 0);
      var x, y := ApproveTimes(env, RunLoop(env, start.runner, 0), n), RunLoop(WithoutInterrupts(env), start.runner, 0);
      assert view(x) == view(y);
      assert EndOf(x) == EndOf(y) && !EndOf(y).held;
    }
  }

  // ----- the step limit -----

  /** A provider that asks for the same reviewed call at every step. */
  function Insistent(codec: Codec, maxSteps: nat): Env<bool> {
    Env(codec, [],
        (req, s) => (s, Replied(ToolCalls([REVIEWED]))),
        (name, input, id, s) => (s, Ok([])),
        (tool, args, s) => (s, Ok(ToolOutput(Null, None))),
        (tool, id, output, s) => (s, output, ""),
        None, "", map["write_file" := true], s => s, s => s, maxSteps)
  }

  /** The reviewed call goes into the batch as it is, whatever the interrupt table says. */
  lemma InsistentBatch(env: Env<bool>, codec: Codec, maxSteps: nat, r: Runner<bool>, k: nat)
    requires env == Insistent(codec, maxSteps) || env == WithoutInterrupts(Insistent(codec, maxSteps))
    requires r.pending.None? && k < maxSteps
    ensures var cv := r.conv.(messages := r.conv.messages + [Announce([REVIEWED])]);
            Turn(env, r, k) == RunBatch(env, r.(conv := cv), [REVIEWED])
  {
    SplitTodosPrepared(codec, REVIEWED, r.conv.nextId);
    VisibleIsNotBlank("write_file");
    assert Settled(codec, REVIEWED);
    SettledCallsAreFixed(codec, [REVIEWED], r.conv.nextId);
    assert AskProvider(env, r.conv) == Answer(r.conv, ToolCalls([REVIEWED]));
  }

  lemma InsistentTurn(codec: Codec, maxSteps: nat, r: Runner<bool>, k: nat)
    requires r.pending.None? && k < maxSteps
    ensures var env := Insistent(codec, maxSteps);
            var t, u := Turn(env, r, k), Turn(WithoutInterrupts(env), r, k);
            && t.Stop? && t.runner.initialized == r.initialized
            && t.runner.pending.Some? && t.runner.pending.value.remaining == []
            && u.Go? && u.runner.pending.None?
  {
    var env := Insistent(codec, maxSteps);
    var cv := r.conv.(messages := r.conv.messages + [Announce([REVIEWED])]);
    InsistentBatch(env, codec, maxSteps, r, k);
    InsistentBatch(WithoutInterrupts(env), codec, maxSteps, r, k);
    PlainCall(env, false, REVIEWED, cv);
    PlainCall(WithoutInterrupts(env), false, REVIEWED, cv);
    assert TodoCount([REVIEWED]) == 0 && [REVIEWED][1..] == [];
  }

  lemma {:induction false} InsistentPlainLoop(codec: Codec, maxSteps: nat, r: Runner<bool>, k: nat)
    requires r.pending.None?
    ensures var plain := WithoutInterrupts(Insistent(codec, maxSteps));
            RunLoop(plain, r, k).0.pending.None? && RunLoop(plain, r, k).1.error.Some?
            && RunLoop(plain, r, k).1.error.value.code == "max_steps_exceeded"
    decreases maxSteps - k
  {
    if k < maxSteps {
      InsistentTurn(codec, maxSteps, r, k);
      LoopUnfolds(WithoutInterrupts(Insistent(codec, maxSteps)), r, k);
      InsistentPlainLoop(codec, maxSteps, Turn(WithoutInterrupts(Insistent(codec, maxSteps)), r, k).runner, k + 1);
    }
  }

  ghost predicate HoldsAgain(x: (Runner<bool>, RunOutput<bool>)) {
    x.0.initialized && x.0.pending.Some? && x.0.pending.value.remaining == []
  }

  lemma InsistentApproval(codec: Codec, maxSteps: nat, x: (Runner<bool>, RunOutput<bool>))
    requires maxSteps >= 1 && HoldsAgain(x)
    ensures HoldsAgain(ApproveOnce(Insistent(codec, maxSteps), x))
  {
    var env := Insistent(codec, maxSteps);
    var r1 := x.0.(conv := Settle(env, x.0.conv, x.0.pending.value, Approve), pending := None);
    ApprovalTakesUpBatch(env, x.0, x.1);
    assert RunBatch(env, r1, []) == Go(r1);
    LoopUnfolds(env, r1, 0);
    InsistentTurn(codec, maxSteps, r1, 0);
  }

  /** Whatever every approval keeps, any number of approvals keeps. */
  lemma {:induction false} ApprovalsKeep<S(!new)>(env: Env<S>, kept: ((Runner<S>, RunOutput<S>)) -> bool,
                                                  x: (Runner<S>, RunOutput<S>), n: nat)
    requires kept(x) && forall y: (Runner<S>, RunOutput<S>) :: kept(y) ==> kept(ApproveOnce(env, y))
    ensures kept(ApproveTimes(env, x, n))
    decreases n
  {
    if n > 0 {
      ApprovalsKeep(env, kept, ApproveOnce(env, x), n - 1);
    }
  }

  /**
   * The step limit is what transparency needs: with this provider the run without interrupts ends
   * at the limit, while with interrupts every approval starts a new count and no number of them ends the run.
   */
  lemma StepLimitIsNotTransparent(codec: Codec, maxSteps: nat, messages: seq<Message>, n: nat)
    requires maxSteps >= 1
    ensures var env := Insistent(codec, maxSteps);
            var plain := Run(WithoutInterrupts(env), Fresh(messages, false));
            && plain.0.pending.None? && plain.1.error.Some? && plain.1.error.value.code == "max_steps_exceeded"
            && ApproveTimes(env, Run(env, Fresh(messages, false)), n).0.pending.Some?
  {
    var env := Insistent(codec, maxSteps);
    var start := Initialize(env, Fresh(messages, false));
    assert start.Go? && start.runner.initialized && start.runner.pending.None?;
    InsistentPlainLoop(codec, maxSteps, start.runner, 0);
    LoopUnfolds(env, start.runner, 0);
    InsistentTurn(codec, maxSteps, start.runner, 0);
    forall y: (Runner<bool>, RunOutput<bool>) | HoldsAgain(y) ensures HoldsAgain(ApproveOnce(env, y)) {
      InsistentApproval(codec, maxSteps, y);
    }
    var kept := (y: (Runner<bool>, RunOutput<bool>)) => HoldsAgain(y);
    var x := Run(env, Fresh(messages, false));
    ApprovalsKeep(env, kept, x, n);
    assert kept(ApproveTimes(env, x, n));
  }
}
