/** Runs that reach the step limit: approving is invisible in them exactly when nothing is held before the limit. */
module HitlLimit {
  import opened Wrappers
  import opened Json
  import opened Types
  import opened ToolCompat
  import opened PatchToolCalls
  import opened RunnerSpec
  import opened RunnerInvariants
  import opened RunnerTheorems
  import opened HitlTransparency
  import opened HitlRuns

  // ----- runs that hold nothing -----

  /** A loop that holds nothing goes as the loop without interrupts, whether or not it reaches the limit. */
  lemma {:induction false} UnheldLoopAlike<S(!new)>(env: Env<S>, r: Runner<S>, b: Runner<S>, k: nat)
    requires Transparent(env) && SameRunner(r, b) && r.initialized && RunLoop(env, r, k).0.pending.None?
    ensures SameEnd(RunLoop(env, r, k), RunLoop(WithoutInterrupts(env), b, k))
    decreases env.maxSteps - k
  {
    if k < env.maxSteps {
      var _, done := TurnAlike(env, r, b, k, k);
      LoopUnfolds(env, r, k);
      LoopUnfolds(WithoutInterrupts(env), b, k);
      var u := Turn(WithoutInterrupts(env), b, k);
      if u.Go? {
        UnheldLoopAlike(env, done, u.runner, k + 1);
      }
    }
  }

  // ----- further turns show -----

  /** The output says that the step limit was reached. */
  predicate HitLimit<S>(out: RunOutput<S>) {
    out.trace.Some? && out.trace.value.reason == "max_steps_exceeded"
  }

  /** Skills never expand to nothing. */
  ghost predicate SkillsCallSomething<S(!new)>(env: Env<S>) {
    forall name: string, input: Value, id: Option<string>, s: S ::
      var r := env.skill(name, input, id, s).1; r.Ok? ==> r.value != []
  }

  /** Under these every turn that goes on adds a message. */
  ghost predicate TurnsShow<S(!new)>(env: Env<S>) {
    KeepsMessages(env) && SkillsCallSomething(env)
  }

  /** Only the step limit itself reports the step limit. */
  lemma StopIsNotLimit<S(!new)>(env: Env<S>, r: Runner<S>, k: nat)
    ensures var t := Turn(env, r, k); t.Stop? ==> !HitLimit(t.output)
  {
  }

  lemma DoneAddsMessage<S(!new)>(env: Env<S>, guard: bool, call0: ProviderToolCall, cv: Conv<S>)
    requires KeepsMessages(env)
    ensures var r := ExecOne(env, guard, call0, cv); r.Done? ==> |r.conv.messages| > |cv.messages|
  {
    var p := PrepareCall(env.codec, call0, cv.nextId);
    var cv1 := Enter(cv, p);
    assert env.middlewares[0..] == env.middlewares;
    HandleChainTidy(env, 0, p.call, cv1.messages, cv1.state);
  }

  lemma TurnAddsMessage<S(!new)>(env: Env<S>, r: Runner<S>, k: nat)
    requires TurnsShow(env)
    ensures var t := Turn(env, r, k);
            && |t.runner.conv.messages| >= |r.conv.messages|
            && (t.Go? ==> |t.runner.conv.messages| > |r.conv.messages|)
  {
    TurnGrows(env, r, k);
    AskingIsElsewhere(env, r.conv);
    var a := AskProvider(env, r.conv);
    if a.Answer? {
      ActAddsMessage(env, r.(conv := a.conv), a.step, k);
    }
  }

  lemma ActAddsMessage<S(!new)>(env: Env<S>, r: Runner<S>, step: ProviderStep, k: nat)
    requires TurnsShow(env)
    ensures var t := Act(env, r, step, k); t.Go? ==> |t.runner.conv.messages| > |r.conv.messages|
  {
    match step {
      case SkillCall(name, input, callId) =>
        var (state, expanded) := env.skill(name, input, callId, r.conv.state);
        if expanded.Ok? {
          QueueAddsMessage(env, TodoCount(expanded.value) > 1, expanded.value, r.conv.(state := state));
        }
      case ToolCalls(calls0) =>
        ActGrowsFromAnnouncement(env, r, calls0, k);
      case _ =>
    }
  }

  lemma QueueAddsMessage<S(!new)>(env: Env<S>, guard: bool, queue: seq<ProviderToolCall>, cv: Conv<S>)
    requires KeepsMessages(env) && queue != []
    ensures var r := ExecQueue(env, guard, queue, cv); r.1.None? ==> |r.0.messages| > |cv.messages|
  {
    DoneAddsMessage(env, guard, queue[0], cv);
    var r := ExecOne(env, guard, queue[0], cv);
    if r.Done? {
      ExecQueueGrows(env, guard, queue[1..], r.conv);
    }
  }

  lemma ActGrowsFromAnnouncement<S(!new)>(env: Env<S>, r: Runner<S>, calls0: seq<ProviderToolCall>, k: nat)
    requires KeepsMessages(env)
    ensures |Act(env, r, ToolCalls(calls0), k).runner.conv.messages| > |r.conv.messages|
  {
    var (calls, nextId) := NormalizedCalls(env.codec, calls0, r.conv.nextId);
    ExecQueueGrows(env, TodoCount(calls) > 1, calls,
                   r.conv.(nextId := nextId, messages := r.conv.messages + [Announce(calls)]));
  }

  // ----- past a given length of the history -----

  /** Held with a history at least this long; or ended otherwise than at the limit, or with a longer one. */
  ghost predicate Beyond<S>(x: (Runner<S>, RunOutput<S>), length: nat) {
    && x.0.initialized
    && (if x.0.pending.Some? then |x.0.conv.messages| >= length
        else !HitLimit(x.1) || |x.0.conv.messages| > length)
  }

  lemma LoopAbove<S(!new)>(env: Env<S>, r: Runner<S>, j: nat, length: nat)
    requires KeepsMessages(env) && r.initialized && |r.conv.messages| > length
    ensures Beyond(RunLoop(env, r, j), length)
  {
    RunLoopGrows(env, r, j);
    LoopKeepsOpening(env, r, j);
  }

  /** A loop that has a turn left gets beyond the history it starts from. */
  lemma LoopBeyond<S(!new)>(env: Env<S>, r: Runner<S>, j: nat)
    requires TurnsShow(env) && r.initialized && r.pending.None? && j < env.maxSteps
    ensures Beyond(RunLoop(env, r, j), |r.conv.messages|)
  {
    var t := Turn(env, r, j);
    LoopUnfolds(env, r, j);
    StopIsNotLimit(env, r, j);
    TurnAddsMessage(env, r, j);
    TurnKeepsOpening(env, r, j);
    if t.Go? {
      LoopAbove(env, t.runner, j + 1, |r.conv.messages|);
    }
  }

  lemma SettleAddsMessage<S(!new)>(env: Env<S>, cv: Conv<S>, p: PendingInterrupt, decision: HitlDecision)
    ensures |Settle(env, cv, p, decision).messages| == |cv.messages| + 1
  {
  }

  lemma ApprovalStaysBeyond<S(!new)>(env: Env<S>, x: (Runner<S>, RunOutput<S>), length: nat)
    requires KeepsMessages(env) && Beyond(x, length)
    ensures Beyond(ApproveOnce(env, x), length)
  {
    if x.0.pending.Some? {
      var p := x.0.pending.value;
      var cv := Settle(env, x.0.conv, p, Approve);
      var b := RunBatch(env, x.0.(conv := cv, pending := None), p.remaining);
      SettleAddsMessage(env, x.0.conv, p, Approve);
      ExecQueueGrows(env, TodoCount(p.remaining) > 1, p.remaining, cv);
      ApprovalTakesUpBatch(env, x.0, x.1);
      if b.Go? {
        LoopAbove(env, b.runner, 0, length);
      }
    }
  }

  lemma ApprovalsStayBeyond<S(!new)>(env: Env<S>, x: (Runner<S>, RunOutput<S>), length: nat, n: nat)
    requires KeepsMessages(env) && Beyond(x, length)
    ensures Beyond(ApproveTimes(env, x, n), length)
  {
    forall y: (Runner<S>, RunOutput<S>) | Beyond(y, length) ensures Beyond(ApproveOnce(env, y), length) {
      ApprovalStaysBeyond(env, y, length);
    }
    var kept := (y: (Runner<S>, RunOutput<S>)) => Beyond(y, length);
    ApprovalsKeep(env, kept, x, n);
    assert kept(ApproveTimes(env, x, n));
  }

  // ----- falling behind -----

  /** Held, or not at the limit, or with a history of another length. */
  ghost predicate Unlike<S>(x: (Runner<S>, RunOutput<S>), length: nat) {
    x.0.pending.Some? || !HitLimit(x.1) || |x.0.conv.messages| != length
  }

  ghost function Iterate<X>(f: X -> X, x: X, n: nat): X
    decreases n
  {
    if n == 0 then x else Iterate(f, f(x), n - 1)
  }

  lemma {:induction false} IterateSum<X>(f: X -> X, x: X, m: nat, n: nat)
    ensures Iterate(f, x, m + n) == Iterate(f, Iterate(f, x, m), n)
    decreases m
  {
    if m > 0 {
      IterateSum(f, f(x), m - 1, n);
    }
  }

  lemma {:induction false} IterateFixed<X>(f: X -> X, x: X, n: nat)
    requires f(x) == x
    ensures Iterate(f, x, n) == x
    decreases n
  {
    if n > 0 {
      IterateFixed(f, x, n - 1);
    }
  }

  /** On the way from `x` to `rest` everything moves, or `rest` is reached already. */
  lemma ClaimOnTheWay<X(!new)>(f: X -> X, claim: X -> bool, x: X, m: nat, rest: X, n: nat)
    requires Iterate(f, x, m) == rest && forall y :: f(y) == y || claim(y)
    requires claim(Iterate(f, rest, if n >= m then n - m else 0))
    ensures claim(Iterate(f, x, n))
  {
    var y := Iterate(f, x, n);
    if n >= m {
      IterateSum(f, x, m, n - m);
    } else if f(y) == y {
      IterateSum(f, x, n, m - n);
      IterateFixed(f, y, m - n);
    }
  }

  lemma {:induction false} ApprovingIterates<S(!new)>(env: Env<S>,
                                                      f: ((Runner<S>, RunOutput<S>)) -> (Runner<S>, RunOutput<S>),
                                                      x: (Runner<S>, RunOutput<S>), n: nat)
    requires forall y: (Runner<S>, RunOutput<S>) :: f(y) == ApproveOnce(env, y)
    ensures ApproveTimes(env, x, n) == Iterate(f, x, n)
    decreases n
  {
    if n > 0 {
      ApprovingIterates(env, f, ApproveOnce(env, x), n - 1);
    }
  }

  /**
   * A run that gets beyond this length is unlike at every number of
   * approvals: held on the way, and beyond it from there on.
   */
  lemma AlwaysUnlike<S(!new)>(env: Env<S>, x: (Runner<S>, RunOutput<S>), m: nat, length: nat, n: nat)
    requires KeepsMessages(env) && Beyond(ApproveTimes(env, x, m), length)
    ensures Unlike(ApproveTimes(env, x, n), length)
  {
    var rest, i := ApproveTimes(env, x, m), if n >= m then n - m else 0;
    var f := (y: (Runner<S>, RunOutput<S>)) => ApproveOnce(env, y);
    var claim := (y: (Runner<S>, RunOutput<S>)) => Unlike(y, length);
    forall y: (Runner<S>, RunOutput<S>) ensures f(y) == y || claim(y) {
    }
    ApprovingIterates(env, f, x, m);
    ApprovingIterates(env, f, x, n);
    ApprovingIterates(env, f, rest, i);
    ApprovalsStayBeyond(env, rest, length, i);
    ClaimOnTheWay(f, claim, x, m, rest, n);
  }

  /** The length of the history at the end of the run without interrupts. */
  ghost function PlainLength<S>(env: Env<S>, b: Runner<S>, k: nat): nat {
    |RunLoop(WithoutInterrupts(env), b, k).0.conv.messages|
  }

  /** Something that is true of all that got beyond this length. */
  ghost predicate TrueBeyond<S(!new)>(goal: ((Runner<S>, RunOutput<S>)) -> bool, length: nat) {
    forall x: (Runner<S>, RunOutput<S>) :: Beyond(x, length) ==> goal(x)
  }

  lemma AtLimitBeyond<S(!new)>(env: Env<S>, goal: ((Runner<S>, RunOutput<S>)) -> bool, r: Runner<S>, b: Runner<S>,
                               j: nat)
    requires TurnsShow(env) && SameRunner(r, b) && r.initialized && j < env.maxSteps
    requires TrueBeyond(goal, PlainLength(env, b, env.maxSteps))
    ensures goal(ApproveTimes(env, RunLoop(env, r, j), 0))
  {
    LoopBeyond(env, r, j);
    NoApproval(env, RunLoop(env, r, j));
  }

  /** One turn in which the plain loop goes on: some approvals lead the other to a runner like it. */
  lemma BothGoOn<S(!new)>(env: Env<S>, r: Runner<S>, b: Runner<S>, j: nat, k: nat)
    returns (m: nat, done: Runner<S>, b1: Runner<S>, j1: nat, k1: nat)
    requires Transparent(env) && SameRunner(r, b) && r.initialized && j <= k < env.maxSteps
    requires !Ends(WithoutInterrupts(env), b, k)
    ensures done.initialized && SameRunner(done, b1) && j1 <= j + 1 && k1 == k + 1
    ensures var t := Turn(env, r, j); if t.Go? then done == t.runner else j1 == 0
    ensures ApproveTimes(env, RunLoop(env, r, j), m) == RunLoop(env, done, j1)
    ensures !Ends(WithoutInterrupts(env), b1, k1) && PlainLength(env, b, k) == PlainLength(env, b1, k1)
  {
    var u := Turn(WithoutInterrupts(env), b, k);
    LoopUnfolds(WithoutInterrupts(env), b, k);
    m, done, j1 := GoesOnAlike(env, r, b, j, k, u);
    b1, k1 := u.runner, k + 1;
  }

  lemma Joined<S(!new)>(env: Env<S>, goal: ((Runner<S>, RunOutput<S>)) -> bool, x: (Runner<S>, RunOutput<S>),
                        first: nat,
                        rest: (Runner<S>, RunOutput<S>), more: nat) returns (m: nat)
    requires ApproveTimes(env, x, first) == rest && goal(ApproveTimes(env, rest, more))
    ensures goal(ApproveTimes(env, x, m))
  {
    m := first + more;
    ApproveSum(env, x, first, more);
  }

  /** A loop with more turns left than the plain one, which reaches the limit, gets beyond the end of that one. */
  lemma {:induction false} BehindGetsBeyond<S(!new)>(env: Env<S>, goal: ((Runner<S>, RunOutput<S>)) -> bool,
                                                     r: Runner<S>,
                                                     b: Runner<S>, j: nat, k: nat, length: nat) returns (m: nat)
    requires Transparent(env) && TurnsShow(env) && SameRunner(r, b) && r.initialized && j < k <= env.maxSteps
    requires !Ends(WithoutInterrupts(env), b, k) && length == PlainLength(env, b, k) && TrueBeyond(goal, length)
    ensures goal(ApproveTimes(env, RunLoop(env, r, j), m))
    decreases env.maxSteps - k
  {
    if k == env.maxSteps {
      m := 0;
      AtLimitBeyond(env, goal, r, b, j);
    } else {
      var first, done, b1, j1, k1 := BothGoOn(env, r, b, j, k);
      var more := BehindGetsBeyond(env, goal, done, b1, j1, k1, length);
      m := Joined(env, goal, RunLoop(env, r, j), first, RunLoop(env, done, j1), more);
    }
  }

  /**
   * A loop that holds a call, where the plain one reaches the
   * limit, falls behind and gets beyond the end of that one.
   */
  lemma {:induction false} HeldGetsBeyond<S(!new)>(env: Env<S>, goal: ((Runner<S>, RunOutput<S>)) -> bool, r: Runner<S>,
                                                   b: Runner<S>, k: nat, length: nat) returns (m: nat)
    requires Transparent(env) && TurnsShow(env) && SameRunner(r, b) && r.initialized && k < env.maxSteps
    requires !Ends(WithoutInterrupts(env), b, k) && length == PlainLength(env, b, k) && TrueBeyond(goal, length)
    requires RunLoop(env, r, k).0.pending.Some?
    ensures goal(ApproveTimes(env, RunLoop(env, r, k), m))
    decreases env.maxSteps - k
  {
    var first, done, b1, j1, k1 := BothGoOn(env, r, b, k, k);
    var more;
    if Turn(env, r, k).Go? {
      HeldLater(env, r, k, k1);
      more := HeldGetsBeyond(env, goal, done, b1, k1, length);
      m := more;
    } else {
      more := BehindGetsBeyond(env, goal, done, b1, j1, k1, length);
      m := Joined(env, goal, RunLoop(env, r, k), first, RunLoop(env, done, j1), more);
    }
  }

  lemma HeldLater<S(!new)>(env: Env<S>, r: Runner<S>, k: nat, k1: nat)
    requires k1 == k + 1 && k < env.maxSteps && Turn(env, r, k).Go? && Turn(env, r, k).runner.pending.None?
    requires RunLoop(env, r, k).0.pending.Some?
    ensures k1 < env.maxSteps && RunLoop(env, r, k) == RunLoop(env, Turn(env, r, k).runner, k1)
  {
    LoopUnfolds(env, r, k);
  }

  lemma {:induction false} PlainHitsLimit<S(!new)>(env: Env<S>, b: Runner<S>, k: nat)
    requires !Ends(env, b, k)
    ensures HitLimit(RunLoop(env, b, k).1)
    decreases env.maxSteps - k
  {
    if k < env.maxSteps {
      LoopUnfolds(env, b, k);
      PlainHitsLimit(env, Turn(env, b, k).runner, k + 1);
    }
  }

  // ----- whole runs -----

  /** So many approvals bring the run to the end of the run without interrupts. */
  ghost predicate EndsAlike<S>(env: Env<S>, messages: seq<Message>, state: S, n: nat) {
    EndOf(ApproveTimes(env, Run(env, Fresh(messages, state)), n))
    == EndOf(Run(WithoutInterrupts(env), Fresh(messages, state)))
  }

  /** No call is held before the first approval. */
  ghost predicate HoldsNothing<S>(env: Env<S>, messages: seq<Message>, state: S) {
    Run(env, Fresh(messages, state)).0.pending.None?
  }

  lemma TransparentUnlessHeld<S(!new)>(env: Env<S>, messages: seq<Message>, state: S) returns (n: nat)
    requires Transparent(env) && (EndsPlainly(env, messages, state) || HoldsNothing(env, messages, state))
    ensures EndsAlike(env, messages, state, n)
  {
    if EndsPlainly(env, messages, state) {
      n := ApprovedRunIsTransparent(env, messages, state);
    } else {
      n := 0;
      var start := Initialize(env, Fresh(messages, state));
      UnheldLoopAlike(env, start.runner, start.runner, 0);
    }
  }

  lemma UnlikeAtLimit<S(!new)>(env: Env<S>, messages: seq<Message>, state: S, n: nat)
    requires Transparent(env) && TurnsShow(env) && !EndsPlainly(env, messages, state)
             && !HoldsNothing(env, messages, state)
    ensures !EndsAlike(env, messages, state, n)
  {
    var r := Initialize(env, Fresh(messages, state)).runner;
    var length := PlainLength(env, r, 0);
    var goal := (y: (Runner<S>, RunOutput<S>)) => Beyond(y, length);
    var m := HeldGetsBeyond(env, goal, r, r, 0, length);
    var x := RunLoop(env, r, 0);
    assert goal(ApproveTimes(env, x, m));
    AlwaysUnlike(env, x, m, length, n);
    PlainHitsLimit(WithoutInterrupts(env), r, 0);
    PlainLoopHoldsNothing(env, r, 0);
    EndsTellUnlike(ApproveTimes(env, x, n), RunLoop(WithoutInterrupts(env), r, 0), length);
  }

  lemma EndsTellUnlike<S>(x: (Runner<S>, RunOutput<S>), y: (Runner<S>, RunOutput<S>), length: nat)
    requires Unlike(x, length) && y.0.pending.None? && HitLimit(y.1) && |y.0.conv.messages| == length
    ensures EndOf(x) != EndOf(y)
  {
  }

  /**
   * Exactly which runs are transparent, where every turn that goes on adds a message: some number of
   * approvals brings a run to the end of the run without interrupts if and only if that one ends
   * before the step limit, or nothing is held on the way to the limit.
   */
  lemma ApprovedRunIsTransparentIff<S(!new)>(env: Env<S>, messages: seq<Message>, state: S)
    requires Transparent(env) && TurnsShow(env)
    ensures (exists n: nat :: EndsAlike(env, messages, state, n))
            <==> EndsPlainly(env, messages, state) || HoldsNothing(env, messages, state)
  {
    if EndsPlainly(env, messages, state) || HoldsNothing(env, messages, state) {
      var n := TransparentUnlessHeld(env, messages, state);
    } else {
      forall n: nat ensures !EndsAlike(env, messages, state, n) {
        UnlikeAtLimit(env, messages, state, n);
      }
    }
  }
}
