/** The guard against parallel `write_todos`, what a pause does to it, and exactly when all of them are refused. */
module TodoGuard {
  import opened Wrappers
  import opened Json
  import opened Text
  import opened Types
  import opened ToolCompat
  import opened RunnerSpec
  import opened HitlTransparency

  // ----- one refusal -----

  /** Under the guard a well-formed `write_todos` is refused: nothing is offered, dispatched or changed. */
  lemma GuardRefusesTodos<S(!new)>(env: Env<S>, call0: ProviderToolCall, cv: Conv<S>)
    requires call0.toolName == "write_todos" && !Blank(call0.toolName)
    ensures var r := ExecOne(env, true, call0, cv);
            && r.Done? && r.conv.state == cv.state && r.conv.log == cv.log
            && r.conv.results == cv.results + [r.conv.results[|cv.results|]]
            && r.conv.results[|cv.results|].error.Some?
  {
  }

  // ----- what can be read off a batch before it runs -----

  predicate IsTodo(call: ProviderToolCall) {
    call.toolName == "write_todos"
  }

  /** The arguments of the call are accepted; ids play no part in that. */
  predicate Executable(codec: Codec, call: ProviderToolCall) {
    PrepareCall(codec, call, 0).error.None?
  }

  /**
   * The policy answers alike in every state: it sees the command,
   * the root and the mode, which do not change in a run.
   */
  ghost predicate PolicyIgnoresState<S(!new)>(env: Env<S>) {
    env.approval.Some? ==>
      forall command: string, s: S, t: S :: env.approval.value(command, s) == env.approval.value(command, t)
  }

  /** The policy allows the call and its tool is one to interrupt on, or the policy asks for a reviewer. */
  predicate Reviewable<S>(env: Env<S>, call: ProviderToolCall, s: S) {
    var verdict := Verdict(env, call.toolName, call.arguments, s);
    verdict.RequireApproval? || (verdict.Allow? && Interrupts(env, call.toolName))
  }

  /** A call other than `write_todos` that will be held for review. */
  ghost predicate PausesOn<S(!new)>(env: Env<S>, call: ProviderToolCall) {
    var p := PrepareCall(env.codec, call, 0);
    !IsTodo(call) && p.error.None? && exists s :: Reviewable(env, p.call, s)
  }

  /** Exactly one `write_todos`, and its arguments are accepted. */
  ghost predicate LoneTodo(codec: Codec, calls: seq<ProviderToolCall>) {
    TodoCount(calls) == 1 && exists c :: c in calls && IsTodo(c) && Executable(codec, c)
  }

  /** Some call of the batch pauses and has exactly one `write_todos` behind it, whose arguments are accepted. */
  ghost predicate PauseBeforeLoneTodo<S(!new)>(env: Env<S>, calls: seq<ProviderToolCall>) {
    exists q: nat :: q < |calls| && PausesAt(env, calls, q)
  }

  /** The call at `q` pauses and has exactly one `write_todos` behind it, whose arguments are accepted. */
  ghost predicate PausesAt<S(!new)>(env: Env<S>, calls: seq<ProviderToolCall>, q: nat)
    requires q < |calls|
  {
    PausesOn(env, calls[q]) && LoneTodo(env.codec, calls[q + 1..])
  }

  // ----- counting -----

  function TodoPositions(calls: seq<ProviderToolCall>): set<nat> {
    set i: nat | i < |calls| && calls[i].toolName == "write_todos"
  }

  /** The guard counts the calls of `write_todos`, wherever they stand in the batch. */
  lemma {:induction false} GuardCountsTodos(calls: seq<ProviderToolCall>)
    ensures TodoCount(calls) == |TodoPositions(calls)|
  {
    if calls != [] {
      var n := |calls| - 1;
      GuardCountsTodos(calls[..n]);
      CountSnoc(calls[..n], calls[n]);
      PositionsSnoc(calls);
      assert calls == calls[..n] + [calls[n]];
    }
  }

  lemma PositionsSnoc(calls: seq<ProviderToolCall>)
    requires calls != []
    ensures var n := |calls| - 1;
            |TodoPositions(calls)| == |TodoPositions(calls[..n])| + if calls[n].toolName == "write_todos" then 1 else 0
  {
    var n := |calls| - 1;
    assert TodoPositions(calls) == TodoPositions(calls[..n]) + if calls[n].toolName == "write_todos" then {n} else {};
  }

  lemma {:induction false} CountSnoc(calls: seq<ProviderToolCall>, c: ProviderToolCall)
    ensures TodoCount(calls + [c]) == TodoCount(calls) + if c.toolName == "write_todos" then 1 else 0
  {
    if calls == [] {
      assert calls + [c] == [c] && [c][1..] == [];
    } else {
      assert (calls + [c])[1..] == calls[1..] + [c];
      CountSnoc(calls[1..], c);
    }
  }

  // ----- a reviewer of `write_todos` -----

  /** The reviewer rejects every `write_todos`. */
  ghost predicate RejectsTodos(choose: PendingInterrupt -> HitlDecision) {
    forall p: PendingInterrupt :: IsTodo(p.call) ==> choose(p).Reject?
  }

  /** The reviewer rejects no `write_todos`. */
  ghost predicate RejectsNoTodo(choose: PendingInterrupt -> HitlDecision) {
    forall p: PendingInterrupt :: IsTodo(p.call) ==> !choose(p).Reject?
  }

  /** If `write_todos` itself is held for review, the reviewer refuses it. */
  ghost predicate ReviewRefusesTodos<S>(env: Env<S>, choose: PendingInterrupt -> HitlDecision) {
    Interrupts(env, "write_todos") && RejectsTodos(choose)
  }

  /** If `write_todos` itself is held for review, the reviewer lets it run. */
  ghost predicate ReviewLetsTodosRun<S>(env: Env<S>, choose: PendingInterrupt -> HitlDecision) {
    Interrupts(env, "write_todos") ==> RejectsNoTodo(choose)
  }

  // ----- outcomes -----

  /** The tool `write_todos` was offered to the middlewares or run. */
  predicate TodoEvent<S>(e: Event<S>) {
    (e.Offered? || e.Dispatched?) && e.tool == "write_todos"
  }

  /** Nothing happened to a `write_todos` in between. */
  ghost predicate NoTodoEvents<S>(before: Conv<S>, after: Conv<S>) {
    forall k :: |before.log| <= k < |after.log| ==> !TodoEvent(after.log[k])
  }

  /** Every `write_todos` of the batch got an error result, and none was offered or run. */
  ghost predicate TodosRefused<S>(calls: seq<ProviderToolCall>, before: Conv<S>, after: Conv<S>) {
    && |after.results| == |before.results| + |calls|
    && (forall i :: 0 <= i < |calls| && IsTodo(calls[i]) ==>
          var r := after.results[|before.results| + i]; r.toolName == "write_todos" && r.error.Some?)
    && NoTodoEvents(before, after)
  }

  /** Something that only `write_todos` can change, such as the list of todos. */
  ghost predicate OnlyTodosTouch<S(!new), T>(env: Env<S>, part: S -> T) {
    && (forall tool: string, args: Value, s: S :: tool != "write_todos" ==> part(env.tool(tool, args, s).0) == part(s))
    && (forall tool: string, id: string, output: Value, s: S :: part(env.offload(tool, id, output, s).0) == part(s))
    && (forall k: nat, call: ProviderToolCall, ms: seq<Message>, s: S ::
          k < |env.middlewares| && call.toolName != "write_todos" ==>
            part(env.middlewares[k].handleToolCall(call, ms, s).1) == part(s))
  }

  // ----- the review of a batch, call by call -----

  /** The first call of a queue, reviewed if need be, and the guard for the calls behind it. */
  ghost function FirstDone<S>(env: Env<S>, choose: PendingInterrupt -> HitlDecision, guard: bool,
                              queue: seq<ProviderToolCall>, cv: Conv<S>): (Conv<S>, bool)
    requires queue != []
  {
    match ExecOne(env, guard, queue[0], cv)
    case Done(cv1) => (cv1, guard)
    case Held(cv1, call) =>
      var p := PendingInterrupt(InterruptFor(call), call, queue[1..]);
      (Settle(env, cv1.(log := cv1.log + [Paused(call.callId.GetOr(""))]), p, choose(p)), TodoCount(queue[1..]) > 1)
  }

  ghost function ReviewFrom<S>(env: Env<S>, choose: PendingInterrupt -> HitlDecision, guard: bool,
                               queue: seq<ProviderToolCall>, cv: Conv<S>): Conv<S>
    decreases |queue|
  {
    if queue == [] then cv
    else
      var (cv1, guard1) := FirstDone(env, choose, guard, queue, cv);
      ReviewFrom(env, choose, guard1, queue[1..], cv1)
  }

  /** Executing a queue and reviewing what it holds is reviewing it call by call. */
  lemma {:induction false} ReviewByCalls<S(!new)>(env: Env<S>, choose: PendingInterrupt -> HitlDecision, guard: bool,
                                                  queue: seq<ProviderToolCall>, cv: Conv<S>)
    ensures var (cv1, p) := ExecQueue(env, guard, queue, cv);
            ReviewFrom(env, choose, guard, queue, cv)
            == if p.None? then cv1
               else ReviewAll(env, choose, p.value.remaining, Settle(env, cv1, p.value, choose(p.value)))
    decreases |queue|
  {
    if queue != [] {
      var (next, guard1) := FirstDone(env, choose, guard, queue, cv);
      ReviewByCalls(env, choose, guard1, queue[1..], next);
    }
  }

  lemma ReviewAllByCalls<S(!new)>(env: Env<S>, choose: PendingInterrupt -> HitlDecision, calls: seq<ProviderToolCall>,
                                  cv: Conv<S>)
    ensures ReviewAll(env, choose, calls, cv) == ReviewFrom(env, choose, TodoCount(calls) > 1, calls, cv)
  {
    ReviewByCalls(env, choose, TodoCount(calls) > 1, calls, cv);
  }

  // ----- one call of the review -----

  lemma PreparationIgnoresCounter(codec: Codec, call: ProviderToolCall, m: nat, n: nat)
    ensures var p, q := PrepareCall(codec, call, m), PrepareCall(codec, call, n);
            p.error == q.error && p.call.toolName == q.call.toolName && p.call.arguments == q.call.arguments
    ensures IsTodo(call) <==> IsTodo(PrepareCall(codec, call, m).call)
  {
    VisibleIsNotBlank("write_todos");
  }

  /** Which calls pause can be seen in any state and under any id counter. */
  lemma PausesInEveryState<S(!new)>(env: Env<S>, call: ProviderToolCall, n: nat, s: S)
    requires PolicyIgnoresState(env)
    ensures var p := PrepareCall(env.codec, call, n);
            PausesOn(env, call) <==> !IsTodo(call) && p.error.None? && Reviewable(env, p.call, s)
  {
    PreparationIgnoresCounter(env.codec, call, 0, n);
    var c, d := PrepareCall(env.codec, call, 0).call, PrepareCall(env.codec, call, n).call;
    forall t: S ensures Reviewable(env, c, t) <==> Reviewable(env, d, s) {
      assert Verdict(env, c.toolName, c.arguments, t) == Verdict(env, d.toolName, d.arguments, s);
    }
    assert Reviewable(env, c, s) <==> Reviewable(env, d, s);
  }

  /** What became of the first call: one more result, and what the log has to say about `write_todos`. */
  ghost predicate FirstOutcome<S(!new)>(env: Env<S>, choose: PendingInterrupt -> HitlDecision, guard: bool,
                                        queue: seq<ProviderToolCall>, before: Conv<S>, after: Conv<S>, guard1: bool)
    requires queue != []
  {
    && before.log <= after.log && before.results <= after.results && |after.results| == |before.results| + 1
    && guard1 == (if PausesOn(env, queue[0]) then TodoCount(queue[1..]) > 1 else guard)
    && (IsTodo(queue[0]) && (guard || !Executable(env.codec, queue[0]) || ReviewRefusesTodos(env, choose)) ==>
          && NoTodoEvents(before, after) && after.state == before.state
          && after.results[|before.results|].error.Some? && after.results[|before.results|].toolName == "write_todos")
    && (IsTodo(queue[0]) && !guard && Executable(env.codec, queue[0]) && ReviewLetsTodosRun(env, choose) ==>
          !NoTodoEvents(before, after))
    && (!IsTodo(queue[0]) ==> NoTodoEvents(before, after))
  }

  /** Serving an allowed call logs its offer, its dispatch or both, and posts one result. */
  lemma ServedOutcome<S(!new)>(env: Env<S>, cv: Conv<S>, call: ProviderToolCall)
    requires PolicyIgnoresState(env) && Verdict(env, call.toolName, call.arguments, cv.state).Allow?
    ensures var r := OfferThenDispatch(env, cv, call);
            && r.Done? && cv.log < r.conv.log && cv.results <= r.conv.results && |r.conv.results| == |cv.results| + 1
            && (forall k :: |cv.log| <= k < |r.conv.log| ==>
                  (r.conv.log[k].Offered? || r.conv.log[k].Dispatched?) && r.conv.log[k].tool == call.toolName)
  {
    var cv1 := OfferAll(env, cv, call).0;
    assert Verdict(env, call.toolName, call.arguments, cv1.state)
           == Verdict(env, call.toolName, call.arguments, cv.state);
  }

  lemma SettledOutcome<S(!new)>(env: Env<S>, cv: Conv<S>, p: PendingInterrupt, decision: HitlDecision)
    ensures var after := Settle(env, cv, p, decision);
            && cv.log <= after.log && cv.results <= after.results && |after.results| == |cv.results| + 1
            && (forall k :: |cv.log| <= k < |after.log| ==>
                  after.log[k].Decided? || (after.log[k].Dispatched? && after.log[k].tool == p.call.toolName))
            && (decision.Reject? ==>
                  && after.state == cv.state && after.log == cv.log + [Decided(p.interrupt.interruptId, decision)]
                  && after.results[|cv.results|].error.Some? && after.results[|cv.results|].toolName == p.call.toolName)
            && (!decision.Reject? && IsTodo(p.call) ==> TodoEvent(after.log[|after.log| - 1]) && |after.log| > |cv.log|)
  {
  }

  /** A call that is refused. */
  lemma RefusedOutcome<S(!new)>(env: Env<S>, choose: PendingInterrupt -> HitlDecision, guard: bool,
                                queue: seq<ProviderToolCall>, cv: Conv<S>)
    requires PolicyIgnoresState(env) && queue != []
    requires var p := PrepareCall(env.codec, queue[0], cv.nextId);
             || p.error.Some? || (guard && IsTodo(queue[0]))
             || Verdict(env, p.call.toolName, p.call.arguments, cv.state).Deny?
    ensures var r := ExecOne(env, guard, queue[0], cv);
            r.Done? && FirstOutcome(env, choose, guard, queue, cv, r.conv, guard)
  {
    var p := PrepareCall(env.codec, queue[0], cv.nextId);
    PreparationIgnoresCounter(env.codec, queue[0], cv.nextId, 0);
    PausesInEveryState(env, queue[0], cv.nextId, cv.state);
    var after := ExecOne(env, guard, queue[0], cv).conv;
    assert after.log == cv.log && after.state == cv.state;
    assert after.results[|cv.results|].error.Some? && after.results[|cv.results|].toolName == p.call.toolName;
  }

  /** A call that is served at once. */
  lemma AllowedOutcome<S(!new)>(env: Env<S>, choose: PendingInterrupt -> HitlDecision, guard: bool,
                                queue: seq<ProviderToolCall>, cv: Conv<S>)
    requires PolicyIgnoresState(env) && queue != [] && !(guard && IsTodo(queue[0]))
    requires var p := PrepareCall(env.codec, queue[0], cv.nextId);
             && p.error.None? && !Interrupts(env, p.call.toolName)
             && Verdict(env, p.call.toolName, p.call.arguments, cv.state).Allow?
    ensures var r := ExecOne(env, guard, queue[0], cv);
            r.Done? && FirstOutcome(env, choose, guard, queue, cv, r.conv, guard)
  {
    var p := PrepareCall(env.codec, queue[0], cv.nextId);
    var cv1 := Enter(cv, p);
    PreparationIgnoresCounter(env.codec, queue[0], cv.nextId, 0);
    PausesInEveryState(env, queue[0], cv.nextId, cv.state);
    ServedOutcome(env, cv1, p.call);
    var after := ExecOne(env, guard, queue[0], cv).conv;
    assert after == OfferThenDispatch(env, cv1, p.call).conv;
    if IsTodo(queue[0]) {
      assert TodoEvent(after.log[|cv.log|]);
    }
  }

  /** A call that is held is settled as it was prepared, and the guard is recounted. */
  lemma HeldShape<S(!new)>(env: Env<S>, choose: PendingInterrupt -> HitlDecision, guard: bool,
                           queue: seq<ProviderToolCall>, cv: Conv<S>)
    returns (cv2: Conv<S>, held: PendingInterrupt, after: Conv<S>)
    requires queue != [] && !(guard && IsTodo(queue[0]))
    requires var p := PrepareCall(env.codec, queue[0], cv.nextId); p.error.None? && Reviewable(env, p.call, cv.state)
    ensures cv2.results == cv.results && cv2.state == cv.state
    ensures cv2.log == cv.log + [Paused(held.call.callId.GetOr(""))]
    ensures held.call == PrepareCall(env.codec, queue[0], cv.nextId).call
            && after == Settle(env, cv2, held, choose(held))
    ensures FirstDone(env, choose, guard, queue, cv) == (after, TodoCount(queue[1..]) > 1)
  {
    var p := PrepareCall(env.codec, queue[0], cv.nextId);
    var cv1 := Enter(cv, p);
    PreparationIgnoresCounter(env.codec, queue[0], cv.nextId, 0);
    assert ExecOne(env, guard, queue[0], cv) == Held(cv1, p.call);
    cv2 := cv1.(log := cv1.log + [Paused(p.call.callId.GetOr(""))]);
    held := PendingInterrupt(InterruptFor(p.call), p.call, queue[1..]);
    after := Settle(env, cv2, held, choose(held));
  }

  /** A `write_todos` that is held is refused or run as its reviewer decides. */
  lemma {:induction false} HeldTodoSettled<S(!new)>(env: Env<S>, cv: Conv<S>, cv2: Conv<S>, held: PendingInterrupt,
                                                    decision: HitlDecision)
    requires IsTodo(held.call) && cv2.results == cv.results && cv2.state == cv.state
    requires cv2.log == cv.log + [Paused(held.call.callId.GetOr(""))]
    ensures var after := Settle(env, cv2, held, decision);
            && cv.log <= after.log && cv.results <= after.results && |after.results| == |cv.results| + 1
            && (decision.Reject? ==>
                  && NoTodoEvents(cv, after) && after.state == cv.state
                  && after.results[|cv.results|].error.Some? && after.results[|cv.results|].toolName == "write_todos")
            && (!decision.Reject? ==> !NoTodoEvents(cv, after))
  {
    var after := Settle(env, cv2, held, decision);
    SettledOutcome(env, cv2, held, decision);
    if !decision.Reject? {
      assert TodoEvent(after.log[|after.log| - 1]);
    }
  }

  lemma {:induction false} HeldTodoOutcome<S(!new)>(env: Env<S>, choose: PendingInterrupt -> HitlDecision,
                                                    queue: seq<ProviderToolCall>, cv: Conv<S>, cv2: Conv<S>,
                                                    held: PendingInterrupt)
    requires queue != [] && IsTodo(queue[0]) && Executable(env.codec, queue[0]) && TodoCount(queue) <= 1
    requires Interrupts(env, "write_todos")
    requires IsTodo(held.call) && cv2.results == cv.results && cv2.state == cv.state
    requires cv2.log == cv.log + [Paused(held.call.callId.GetOr(""))]
    ensures FirstOutcome(env, choose, false, queue, cv, Settle(env, cv2, held, choose(held)), TodoCount(queue[1..]) > 1)
  {
    assert TodoCount(queue[1..]) == 0;
    HeldTodoSettled(env, cv, cv2, held, choose(held));
  }

  /** A call that is held and settled; if it is not a `write_todos`, the guard is recounted. */
  lemma {:induction false} HeldOutcome<S(!new)>(env: Env<S>, choose: PendingInterrupt -> HitlDecision, guard: bool,
                                                queue: seq<ProviderToolCall>, cv: Conv<S>)
    requires PolicyIgnoresState(env) && queue != [] && !(guard && IsTodo(queue[0]))
    requires !guard ==> TodoCount(queue) <= 1
    requires var p := PrepareCall(env.codec, queue[0], cv.nextId); p.error.None? && Reviewable(env, p.call, cv.state)
    ensures var (after, guard1) := FirstDone(env, choose, guard, queue, cv);
            FirstOutcome(env, choose, guard, queue, cv, after, guard1)
  {
    var cv2, held, after := HeldShape(env, choose, guard, queue, cv);
    PreparationIgnoresCounter(env.codec, queue[0], cv.nextId, 0);
    if IsTodo(queue[0]) {
      HeldTodoOutcome(env, choose, queue, cv, cv2, held);
    } else {
      PausesInEveryState(env, queue[0], cv.nextId, cv.state);
      SettledOutcome(env, cv2, held, choose(held));
    }
  }

  lemma FirstDoneOutcome<S(!new)>(env: Env<S>, choose: PendingInterrupt -> HitlDecision, guard: bool,
                                  queue: seq<ProviderToolCall>, cv: Conv<S>)
    requires PolicyIgnoresState(env) && queue != [] && (!guard ==> TodoCount(queue) <= 1)
    ensures var (after, guard1) := FirstDone(env, choose, guard, queue, cv);
            FirstOutcome(env, choose, guard, queue, cv, after, guard1) && (!guard1 ==> TodoCount(queue[1..]) <= 1)
  {
    var p := PrepareCall(env.codec, queue[0], cv.nextId);
    var verdict := Verdict(env, p.call.toolName, p.call.arguments, cv.state);
    if p.error.Some? || (guard && IsTodo(queue[0])) || verdict.Deny? {
      RefusedOutcome(env, choose, guard, queue, cv);
    } else if Reviewable(env, p.call, cv.state) {
      HeldOutcome(env, choose, guard, queue, cv);
    } else {
      AllowedOutcome(env, choose, guard, queue, cv);
    }
  }

  // ----- whole batches -----

  /** The guard, followed through the batch: an accepted `write_todos` meets it when it is down. */
  ghost predicate Passes<S(!new)>(env: Env<S>, guard: bool, queue: seq<ProviderToolCall>)
    decreases |queue|
  {
    && queue != []
    && (|| (IsTodo(queue[0]) && !guard && Executable(env.codec, queue[0]))
        || Passes(env, if PausesOn(env, queue[0]) then TodoCount(queue[1..]) > 1 else guard, queue[1..]))
  }

  lemma RefusedBehind<S(!new)>(env: Env<S>, choose: PendingInterrupt -> HitlDecision, guard: bool, guard1: bool,
                               queue: seq<ProviderToolCall>, before: Conv<S>, middle: Conv<S>, after: Conv<S>)
    requires queue != [] && FirstOutcome(env, choose, guard, queue, before, middle, guard1)
    requires IsTodo(queue[0]) && !guard && Executable(env.codec, queue[0]) ==> ReviewRefusesTodos(env, choose)
    requires TodosRefused(queue[1..], middle, after) && middle.log <= after.log && middle.results <= after.results
    ensures TodosRefused(queue, before, after)
  {
    forall i | 0 <= i < |queue| && IsTodo(queue[i])
      ensures var r := after.results[|before.results| + i]; r.toolName == "write_todos" && r.error.Some?
    {
      if i == 0 {
        assert after.results[|before.results|] == middle.results[|before.results|];
      } else {
        assert queue[1..][i - 1] == queue[i];
      }
    }
    assert NoTodoEvents(before, middle);
    forall k | |before.log| <= k < |after.log| ensures !TodoEvent(after.log[k]) {
      if k < |middle.log| {
        assert after.log[k] == middle.log[k];
      }
    }
  }

  lemma EventsStay<S(!new)>(before: Conv<S>, middle: Conv<S>, after: Conv<S>)
    requires before.log <= middle.log <= after.log
    requires !NoTodoEvents(before, middle) || !NoTodoEvents(middle, after)
    ensures !NoTodoEvents(before, after)
  {
    if !NoTodoEvents(before, middle) {
      var k :| |before.log| <= k < |middle.log| && TodoEvent(middle.log[k]);
      assert after.log[k] == middle.log[k];
    }
  }

  /** A batch is refused or lets an accepted `write_todos` through, as the guard says that is followed through it. */
  lemma {:induction false} ReviewOutcome<S(!new)>(env: Env<S>, choose: PendingInterrupt -> HitlDecision, guard: bool,
                                                  queue: seq<ProviderToolCall>, cv: Conv<S>)
    requires PolicyIgnoresState(env) && (!guard ==> TodoCount(queue) <= 1)
    ensures var after := ReviewFrom(env, choose, guard, queue, cv);
            && cv.log <= after.log && cv.results <= after.results
            && (Passes(env, guard, queue) && ReviewLetsTodosRun(env, choose) ==> !NoTodoEvents(cv, after))
            && (!Passes(env, guard, queue) || ReviewRefusesTodos(env, choose) ==> TodosRefused(queue, cv, after))
    decreases |queue|
  {
    if queue != [] {
      var (middle, guard1) := FirstDone(env, choose, guard, queue, cv);
      FirstDoneOutcome(env, choose, guard, queue, cv);
      ReviewOutcome(env, choose, guard1, queue[1..], middle);
      var after := ReviewFrom(env, choose, guard1, queue[1..], middle);
      if Passes(env, guard, queue) && ReviewLetsTodosRun(env, choose) {
        EventsStay(cv, middle, after);
      }
      if !Passes(env, guard, queue) || ReviewRefusesTodos(env, choose) {
        RefusedBehind(env, choose, guard, guard1, queue, cv, middle, after);
      }
    }
  }

  // ----- the static condition -----

  lemma {:induction false} NoTodos(calls: seq<ProviderToolCall>)
    ensures TodoCount(calls) == 0 <==> forall c :: c in calls ==> !IsTodo(c)
  {
    if calls != [] {
      NoTodos(calls[1..]);
      assert calls == [calls[0]] + calls[1..] && calls[0] in calls;
      assert forall c :: c in calls[1..] ==> c in calls;
    }
  }

  /** With the guard down and at most one `write_todos` left, that one gets through if its arguments are accepted. */
  lemma {:induction false} PassesUnguarded<S(!new)>(env: Env<S>, queue: seq<ProviderToolCall>)
    requires TodoCount(queue) <= 1
    ensures Passes(env, false, queue) <==> LoneTodo(env.codec, queue)
    decreases |queue|
  {
    if queue != [] {
      PassesUnguarded(env, queue[1..]);
      NoTodos(queue[1..]);
      assert queue == [queue[0]] + queue[1..];
    }
  }

  lemma PausesLater<S(!new)>(env: Env<S>, queue: seq<ProviderToolCall>, q: nat)
    requires q + 1 < |queue|
    ensures PausesAt(env, queue, q + 1) <==> PausesAt(env, queue[1..], q)
  {
    assert queue[1..][q] == queue[q + 1] && queue[1..][q + 1..] == queue[q + 1 + 1..];
  }

  lemma {:induction false} PauseBehind<S(!new)>(env: Env<S>, queue: seq<ProviderToolCall>)
    requires queue != []
    ensures PauseBeforeLoneTodo(env, queue) <==> PausesAt(env, queue, 0) || PauseBeforeLoneTodo(env, queue[1..])
  {
    if PauseBeforeLoneTodo(env, queue) {
      var q: nat :| q < |queue| && PausesAt(env, queue, q);
      if q > 0 {
        PausesLater(env, queue, q - 1);
        assert PausesAt(env, queue[1..], q - 1);
      }
    }
    if PauseBeforeLoneTodo(env, queue[1..]) {
      var q: nat :| q < |queue[1..]| && PausesAt(env, queue[1..], q);
      PausesLater(env, queue, q);
      assert PausesAt(env, queue, q + 1);
    }
  }

  lemma LoneTodoInFront(codec: Codec, queue: seq<ProviderToolCall>)
    requires queue != [] && TodoCount(queue) <= 1 && LoneTodo(codec, queue[1..])
    ensures LoneTodo(codec, queue)
  {
    var c :| c in queue[1..] && IsTodo(c) && Executable(codec, c);
    assert c in queue;
  }

  /** Where at most one `write_todos` is left, a lone one behind a pause is the one there is. */
  lemma {:induction false} LoneTodoIsLast<S(!new)>(env: Env<S>, queue: seq<ProviderToolCall>)
    requires TodoCount(queue) <= 1 && PauseBeforeLoneTodo(env, queue)
    ensures LoneTodo(env.codec, queue)
    decreases |queue|
  {
    PauseBehind(env, queue);
    if !LoneTodo(env.codec, queue[1..]) {
      LoneTodoIsLast(env, queue[1..]);
    }
    LoneTodoInFront(env.codec, queue);
  }

  /** With the guard up, an accepted `write_todos` gets through exactly behind a pause that leaves it alone. */
  lemma {:induction false} PassesGuarded<S(!new)>(env: Env<S>, queue: seq<ProviderToolCall>)
    ensures Passes(env, true, queue) <==> PauseBeforeLoneTodo(env, queue)
    decreases |queue|
  {
    if queue != [] {
      var rest := queue[1..];
      PassesGuarded(env, rest);
      PauseBehind(env, queue);
      if PausesOn(env, queue[0]) && TodoCount(rest) <= 1 {
        PassesUnguarded(env, rest);
        if PauseBeforeLoneTodo(env, rest) {
          LoneTodoIsLast(env, rest);
        }
      }
    }
  }

  // ----- the promise -----

  /**
   * Several `write_todos` in one message: all of them are refused, each with an error result and none
   * offered or run, if and only if no call that pauses has exactly one `write_todos` behind it, with
   * accepted arguments, or that one is itself reviewed and rejected.
   */
  lemma ParallelTodosAllRefusedIff<S(!new)>(env: Env<S>, choose: PendingInterrupt -> HitlDecision,
                                            calls: seq<ProviderToolCall>, cv: Conv<S>)
    requires PolicyIgnoresState(env) && TodoCount(calls) >= 2
    requires ReviewRefusesTodos(env, choose) || ReviewLetsTodosRun(env, choose)
    ensures TodosRefused(calls, cv, ReviewAll(env, choose, calls, cv))
            <==> !PauseBeforeLoneTodo(env, calls) || ReviewRefusesTodos(env, choose)
  {
    ReviewAllByCalls(env, choose, calls, cv);
    ReviewOutcome(env, choose, true, calls, cv);
    PassesGuarded(env, calls);
    assert ReviewRefusesTodos(env, choose) || !PauseBeforeLoneTodo(env, calls) || ReviewLetsTodosRun(env, choose);
  }

  /** Whatever a reviewer may decide, call by call, all are refused. */
  ghost predicate AlwaysRefused<S(!new)>(env: Env<S>, calls: seq<ProviderToolCall>, cv: Conv<S>) {
    forall choose: PendingInterrupt -> HitlDecision :: TodosRefused(calls, cv, ReviewAll(env, choose, calls, cv))
  }

  lemma RefusedByEvery<S(!new)>(env: Env<S>, choose: PendingInterrupt -> HitlDecision, calls: seq<ProviderToolCall>,
                                cv: Conv<S>)
    requires PolicyIgnoresState(env) && TodoCount(calls) >= 2 && !PauseBeforeLoneTodo(env, calls)
    ensures TodosRefused(calls, cv, ReviewAll(env, choose, calls, cv))
  {
    ReviewAllByCalls(env, choose, calls, cv);
    ReviewOutcome(env, choose, true, calls, cv);
    PassesGuarded(env, calls);
  }

  /** The promise holds under every reviewer exactly where no pause leaves an accepted `write_todos` alone. */
  lemma AlwaysRefusedIff<S(!new)>(env: Env<S>, calls: seq<ProviderToolCall>, cv: Conv<S>)
    requires PolicyIgnoresState(env) && TodoCount(calls) >= 2
    ensures AlwaysRefused(env, calls, cv) <==> !PauseBeforeLoneTodo(env, calls)
  {
    if PauseBeforeLoneTodo(env, calls) {
      ApprovalLetsATodoThrough(env, calls, cv);
    } else {
      forall choose: PendingInterrupt -> HitlDecision ensures TodosRefused(calls, cv,
                                                                           ReviewAll(env, choose, calls, cv)) {
        RefusedByEvery(env, choose, calls, cv);
      }
    }
  }

  lemma ApprovalLetsATodoThrough<S(!new)>(env: Env<S>, calls: seq<ProviderToolCall>, cv: Conv<S>)
    requires PolicyIgnoresState(env) && TodoCount(calls) >= 2 && PauseBeforeLoneTodo(env, calls)
    ensures !AlwaysRefused(env, calls, cv)
  {
    var approve: PendingInterrupt -> HitlDecision := p => Approve;
    ApproveRejectsNothing(approve);
    ParallelTodosAllRefusedIff(env, approve, calls, cv);
    OneIsEnough(env, approve, calls, cv);
  }

  lemma OneIsEnough<S(!new)>(env: Env<S>, choose: PendingInterrupt -> HitlDecision, calls: seq<ProviderToolCall>,
                             cv: Conv<S>)
    requires !TodosRefused(calls, cv, ReviewAll(env, choose, calls, cv))
    ensures !AlwaysRefused(env, calls, cv)
  {
  }

  lemma ApproveRejectsNothing(approve: PendingInterrupt -> HitlDecision)
    requires forall p :: approve(p) == Approve
    ensures RejectsNoTodo(approve) && !RejectsTodos(approve)
  {
    var todo := ProviderToolCall("write_todos", Null, None);
    assert IsTodo(PendingInterrupt(InterruptFor(todo), todo, []).call);
    assert !approve(PendingInterrupt(InterruptFor(todo), todo, [])).Reject?;
  }

  lemma {:induction false} HandlersLeave<S(!new), T>(env: Env<S>, part: S -> T, k: nat, call: ProviderToolCall,
                                                     ms: seq<Message>, state: S)
    requires OnlyTodosTouch(env, part) && k <= |env.middlewares| && call.toolName != "write_todos"
    ensures part(HandleChain(env.middlewares[k..], call, ms, state).1) == part(state)
    decreases |env.middlewares| - k
  {
    if k < |env.middlewares| {
      assert env.middlewares[k..][0] == env.middlewares[k] && env.middlewares[k..][1..] == env.middlewares[k + 1..];
      var r := env.middlewares[k].handleToolCall(call, ms, state);
      assert part(r.1) == part(state);
      HandlersLeave(env, part, k + 1, call, r.0, r.1);
    }
  }

  lemma DispatchLeaves<S(!new), T>(env: Env<S>, part: S -> T, cv: Conv<S>, call: ProviderToolCall, args: Value,
                                   edited: Option<Option<Value>>)
    requires OnlyTodosTouch(env, part) && call.toolName != "write_todos"
    ensures part(Dispatch(env, cv, call, args, edited).state) == part(cv.state)
  {
  }

  lemma ServiceLeaves<S(!new), T>(env: Env<S>, part: S -> T, cv: Conv<S>, call: ProviderToolCall)
    requires OnlyTodosTouch(env, part) && call.toolName != "write_todos"
    ensures part(OfferThenDispatch(env, cv, call).conv.state) == part(cv.state)
  {
    assert env.middlewares[0..] == env.middlewares;
    HandlersLeave(env, part, 0, call, cv.messages, cv.state);
    var (cv1, handled) := OfferAll(env, cv, call);
    DispatchLeaves(env, part, cv1, call, call.arguments, None);
  }

  lemma SettlingLeaves<S(!new), T>(env: Env<S>, part: S -> T, cv: Conv<S>, p: PendingInterrupt, decision: HitlDecision)
    requires OnlyTodosTouch(env, part) && p.call.toolName != "write_todos"
    ensures part(Settle(env, cv, p, decision).state) == part(cv.state)
  {
    var cv1 := cv.(log := cv.log + [Decided(p.interrupt.interruptId, decision)]);
    DispatchLeaves(env, part, cv1, p.call, p.call.arguments, None);
    if decision.Edit? {
      DispatchLeaves(env, part, cv1, p.call, decision.args, Some(Some(p.interrupt.proposedArgs)));
    }
  }

  lemma FirstDoneLeaves<S(!new), T>(env: Env<S>, part: S -> T, choose: PendingInterrupt -> HitlDecision, guard: bool,
                                    queue: seq<ProviderToolCall>, cv: Conv<S>)
    requires PolicyIgnoresState(env) && OnlyTodosTouch(env, part) && queue != [] && (!guard ==> TodoCount(queue) <= 1)
    requires IsTodo(queue[0]) && !guard && Executable(env.codec, queue[0]) ==> ReviewRefusesTodos(env, choose)
    ensures part(FirstDone(env, choose, guard, queue, cv).0.state) == part(cv.state)
  {
    if IsTodo(queue[0]) {
      FirstDoneOutcome(env, choose, guard, queue, cv);
    } else {
      var p := PrepareCall(env.codec, queue[0], cv.nextId);
      var cv1 := Enter(cv, p);
      PreparationIgnoresCounter(env.codec, queue[0], cv.nextId, 0);
      ServiceLeaves(env, part, cv1, p.call);
      if ExecOne(env, guard, queue[0], cv).Held? {
        var cv2 := ExecOne(env, guard, queue[0], cv).conv;
        var held := PendingInterrupt(InterruptFor(p.call), p.call, queue[1..]);
        HeldLeaves(env, part, guard, queue[0], cv);
        SettlingLeaves(env, part, cv2.(log := cv2.log + [Paused(p.call.callId.GetOr(""))]), held, choose(held));
      }
    }
  }

  /** A call is held as it was prepared, before anything else has changed or after the middlewares let it pass. */
  lemma HeldLeaves<S(!new), T>(env: Env<S>, part: S -> T, guard: bool, call0: ProviderToolCall, cv: Conv<S>)
    requires OnlyTodosTouch(env, part) && !IsTodo(call0) && ExecOne(env, guard, call0, cv).Held?
    ensures var r := ExecOne(env, guard, call0, cv);
            r.call == PrepareCall(env.codec, call0, cv.nextId).call && part(r.conv.state) == part(cv.state)
  {
    var p := PrepareCall(env.codec, call0, cv.nextId);
    PreparationIgnoresCounter(env.codec, call0, cv.nextId, 0);
    ServiceLeaves(env, part, Enter(cv, p), p.call);
  }

  lemma {:induction false} ReviewLeaves<S(!new), T>(env: Env<S>, part: S -> T, choose: PendingInterrupt -> HitlDecision,
                                                    guard: bool, queue: seq<ProviderToolCall>, cv: Conv<S>)
    requires PolicyIgnoresState(env) && OnlyTodosTouch(env, part) && (!guard ==> TodoCount(queue) <= 1)
    requires !Passes(env, guard, queue) || ReviewRefusesTodos(env, choose)
    ensures part(ReviewFrom(env, choose, guard, queue, cv).state) == part(cv.state)
    decreases |queue|
  {
    if queue != [] {
      var (middle, guard1) := FirstDone(env, choose, guard, queue, cv);
      FirstDoneOutcome(env, choose, guard, queue, cv);
      FirstDoneLeaves(env, part, choose, guard, queue, cv);
      ReviewLeaves(env, part, choose, guard1, queue[1..], middle);
    }
  }

  /** In a batch that is refused, nothing changes that only `write_todos` can change: the todos stay as they were. */
  lemma RefusedTodosChangeNothing<S(!new), T>(env: Env<S>, part: S -> T, choose: PendingInterrupt -> HitlDecision,
                                              calls: seq<ProviderToolCall>, cv: Conv<S>)
    requires PolicyIgnoresState(env) && TodoCount(calls) >= 2 && OnlyTodosTouch(env, part)
    requires !PauseBeforeLoneTodo(env, calls) || ReviewRefusesTodos(env, choose)
    ensures part(ReviewAll(env, choose, calls, cv).state) == part(cv.state)
  {
    ReviewAllByCalls(env, choose, calls, cv);
    PassesGuarded(env, calls);
    ReviewLeaves(env, part, choose, true, calls, cv);
  }

  // ----- a batch that shows it -----

  const FIRST := ProviderToolCall("write_todos", Obj([]), Some("a"))
  const REVIEWED := ProviderToolCall("write_file", Obj([]), Some("b"))
  const SECOND := ProviderToolCall("write_todos", Obj([]), Some("c"))

  /** A batch of two `write_todos` with a call to review between them. */
  const SPLIT_TODOS := [FIRST, REVIEWED, SECOND]

  /** Calls with a name, a usable id and object arguments are executed as they stand. */
  lemma SplitTodosPrepared(codec: Codec, call: ProviderToolCall, nextId: nat)
    requires call in SPLIT_TODOS
    ensures PrepareCall(codec, call, nextId) == Prepared(call, nextId, None)
  {
    VisibleIsNotBlank("write_todos");
    VisibleIsNotBlank("write_file");
    VisibleIsNotBlank(call.callId.value);
  }

  /** Without middlewares and policy, a call that is neither guarded nor interrupted goes straight to its tool. */
  lemma PlainCall<S(!new)>(env: Env<S>, guard: bool, call: ProviderToolCall, cv: Conv<S>)
    requires env.middlewares == [] && env.approval.None? && call in SPLIT_TODOS
    ensures var r := ExecOne(env, guard, call, cv);
            if guard && call.toolName == "write_todos" then r.Done? && r.conv.log == cv.log
            else if Interrupts(env, call.toolName) then r.Held? && r.call == call && r.conv.log == cv.log
            else
              && r.Done?
              && exists s ::
                   r.conv.log == cv.log + [Dispatched(|cv.calls|, call.callId.value, call.toolName, Obj([]), s)]
  {
    SplitTodosPrepared(env.codec, call, cv.nextId);
    var cv1 := Enter(cv, Prepared(call, cv.nextId, None));
    assert cv1.log + [] == cv1.log;
  }

  lemma SplitTodosShape()
    ensures SPLIT_TODOS[1..] == [REVIEWED, SECOND] && [REVIEWED, SECOND][1..] == [SECOND] && [SECOND][1..] == []
    ensures TodoCount([SECOND]) == 1 && TodoCount(SPLIT_TODOS) == 2
  {
    assert TodoCount([SECOND]) == 1;
    assert TodoCount([REVIEWED, SECOND]) == 1;
  }

  lemma SplitTodosPause<S(!new)>(env: Env<S>, cv: Conv<S>) returns (cv1: Conv<S>, p: PendingInterrupt)
    requires env.middlewares == [] && env.approval.None? && Interrupts(env, "write_file")
    ensures ExecuteCalls(env, SPLIT_TODOS, cv) == (cv1, Some(p)) && p.remaining == [SECOND]
  {
    SplitTodosShape();
    PlainCall(env, true, FIRST, cv);
    var refused := ExecOne(env, true, FIRST, cv).conv;
    PlainCall(env, true, REVIEWED, refused);
    var held := ExecOne(env, true, REVIEWED, refused);
    cv1 := held.conv.(log := held.conv.log + [Paused("b")]);
    p := PendingInterrupt(InterruptFor(REVIEWED), REVIEWED, [SECOND]);
    assert ExecQueue(env, true, [REVIEWED, SECOND], refused) == (cv1, Some(p));
  }

  /** The last thing logged is the dispatch of this call. */
  ghost predicate EndsWithDispatch<S(!new)>(log: seq<Event<S>>, call: ProviderToolCall) {
    && log != [] && log[|log| - 1].Dispatched?
    && log[|log| - 1].tool == call.toolName && Some(log[|log| - 1].callId) == call.callId
  }

  lemma LoneTodoRuns<S(!new)>(env: Env<S>, cv: Conv<S>)
    requires env.middlewares == [] && env.approval.None? && !Interrupts(env, "write_todos")
    ensures var (cv1, p) := ExecuteCalls(env, [SECOND], cv);
            p.None? && EndsWithDispatch(cv1.log, SECOND)
  {
    SplitTodosShape();
    PlainCall(env, false, SECOND, cv);
    var r := ExecOne(env, false, SECOND, cv);
    assert ExecQueue(env, false, [], r.conv) == (r.conv, None);
  }

  /** Approving a batch that pauses once. */
  lemma OnePause<S(!new)>(env: Env<S>, calls: seq<ProviderToolCall>, cv: Conv<S>, cv1: Conv<S>, p: PendingInterrupt,
                          cv2: Conv<S>)
    requires ExecuteCalls(env, calls, cv) == (cv1, Some(p)) && cv2 == Settle(env, cv1, p, Approve)
    requires ExecuteCalls(env, p.remaining, cv2).1.None?
    ensures ApproveAll(env, calls, cv) == ExecuteCalls(env, p.remaining, cv2).0
  {
    var choose := (q: PendingInterrupt) => Approve;
    assert ReviewAll(env, choose, p.remaining, cv2) == ExecuteCalls(env, p.remaining, cv2).0;
  }

  /** With that batch the pause lets the second `write_todos` through. */
  lemma PauseLetsATodoThrough<S(!new)>(env: Env<S>, cv: Conv<S>)
    requires env.middlewares == [] && env.approval.None?
    requires Interrupts(env, "write_file") && !Interrupts(env, "write_todos")
    ensures EndsWithDispatch(ApproveAll(env, SPLIT_TODOS, cv).log, SECOND)
  {
    var cv1, p := SplitTodosPause(env, cv);
    var cv2 := Settle(env, cv1, p, Approve);
    var after := ExecuteCalls(env, p.remaining, cv2).0;
    LoneTodoRuns(env, cv2);
    OnePause(env, SPLIT_TODOS, cv, cv1, p, cv2);
    assert ApproveAll(env, SPLIT_TODOS, cv) == after && EndsWithDispatch(after.log, SECOND);
  }

  lemma TodoCountOnTop(call: ProviderToolCall, rest: seq<ProviderToolCall>)
    ensures ([call] + rest)[1..] == rest
    ensures TodoCount([call] + rest) == (if IsTodo(call) then 1 else 0) + TodoCount(rest)
  {
    assert ([call] + rest)[1..] == rest;
  }

  /** Two `write_todos` around another call: the second one is left alone exactly when that call pauses. */
  lemma {:induction false} SplitByPause<S(!new)>(env: Env<S>, middle: ProviderToolCall)
    requires !IsTodo(middle)
    ensures TodoCount([FIRST, middle, SECOND]) == 2
    ensures PauseBeforeLoneTodo(env, [FIRST, middle, SECOND]) <==> PausesOn(env, middle)
  {
    var calls := [FIRST, middle, SECOND];
    TodoCountOnTop(SECOND, []);
    TodoCountOnTop(middle, [SECOND]);
    TodoCountOnTop(FIRST, [middle, SECOND]);
    assert [SECOND] + [] == [SECOND] && [middle] + [SECOND] == [middle, SECOND] && [FIRST] + [middle, SECOND] == calls;
    assert calls[1 + 1..] == [SECOND];
    assert LoneTodo(env.codec, calls[1 + 1..]) by {
      assert SECOND in [SECOND] && IsTodo(SECOND) && Executable(env.codec, SECOND);
    }
    assert PausesAt(env, calls, 1) <==> PausesOn(env, middle);
    assert !PausesAt(env, calls, 0) && !PausesAt(env, calls, 2);
  }

  const EXECUTE := ProviderToolCall("execute", Obj([Field("command", Str("ls"))]), Some("b"))

  /** The tools that the command line and the ACP server interrupt on. */
  const REVIEWED_TOOLS := map["write_file" := true, "edit_file" := true, "delete_file" := true, "execute" := true]

  /**
   * With those tools interrupted, an `execute` between two `write_todos` lets the second one through,
   * whatever the reviewer decides, unless the policy denies its command: a policy that asks does so
   * just as one that allows.
   */
  lemma {:induction false} ReviewedExecuteLetsATodoThrough<S(!new)>(env: Env<S>,
                                                                    choose: PendingInterrupt -> HitlDecision,
                                                                      cv: Conv<S>)
    requires env.interruptOn == REVIEWED_TOOLS && env.approval.Some? && PolicyIgnoresState(env)
    ensures TodosRefused([FIRST, EXECUTE, SECOND], cv, ReviewAll(env, choose, [FIRST, EXECUTE, SECOND], cv))
            <==> env.approval.value("ls", cv.state).Deny?
  {
    VisibleIsNotBlank("execute");
    VisibleIsNotBlank("b");
    assert PrepareCall(env.codec, EXECUTE, 0) == Prepared(EXECUTE, 0, None);
    assert CommandOf(EXECUTE.arguments) == "ls";
    PausesInEveryState(env, EXECUTE, 0, cv.state);
    SplitByPause(env, EXECUTE);
    ParallelTodosAllRefusedIff(env, choose, [FIRST, EXECUTE, SECOND], cv);
  }

  /** Without the pause both are refused and only the middle call runs. */
  lemma UnpausedBatchRefusesBothTodos<S(!new)>(env: Env<S>, cv: Conv<S>)
    requires env.middlewares == [] && env.approval.None? && env.interruptOn == map[]
    ensures var (after, p) := ExecuteCalls(env, SPLIT_TODOS, cv);
            && p.None? && TodosRefused(SPLIT_TODOS, cv, after)
            && |after.log| == |cv.log| + 1
            && after.log[|cv.log|].Dispatched? && after.log[|cv.log|].tool == "write_file"
  {
    SplitTodosShape();
    PlainCall(env, true, FIRST, cv);
    var cv1 := ExecOne(env, true, FIRST, cv).conv;
    PlainCall(env, true, REVIEWED, cv1);
    var cv2 := ExecOne(env, true, REVIEWED, cv1).conv;
    PlainCall(env, true, SECOND, cv2);
    var cv3 := ExecOne(env, true, SECOND, cv2).conv;
    assert ExecQueue(env, true, [SECOND], cv2) == (cv3, None);
    assert ExecQueue(env, true, [REVIEWED, SECOND], cv1) == (cv3, None);
    BothRefused(env, cv);
  }

  lemma BothRefused<S(!new)>(env: Env<S>, cv: Conv<S>)
    requires env.approval.None? && env.interruptOn == map[] && ExecuteCalls(env, SPLIT_TODOS, cv).1.None?
    ensures TodosRefused(SPLIT_TODOS, cv, ExecuteCalls(env, SPLIT_TODOS, cv).0)
  {
    var choose: PendingInterrupt -> HitlDecision := p => Approve;
    SplitByPause(env, REVIEWED);
    ParallelTodosAllRefusedIff(env, choose, SPLIT_TODOS, cv);
  }
}
