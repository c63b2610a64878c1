/** What the provider is sent: the middlewares' view of the history, at every turn of every run. */
module ProviderRequests {
  import opened Wrappers
  import opened Json
  import opened Types
  import opened ToolCompat
  import opened RunnerSpec
  import opened HookTrails
  import opened RunnerTheorems
  import opened ConversationInvariants

  // ----- one turn -----

  /** One request, how the hooks came to it, the state it is sent in, the state it leaves and the reply. */
  datatype Exchange<S> = Exchange(stages: seq<Stage<S>>, request: Request, before: S, after: S, reply: Reply)

  /**
   * From this history and state the hooks lead to the messages of the request and
   * to `ready`, and the provider is asked with these and with the results so far.
   */
  ghost predicate Sends<S>(env: Env<S>, cv: Conv<S>, state: S, x: Exchange<S>, ready: S) {
    && Shown(env.middlewares, StepHook, x.stages, Stage(cv.messages, state), Stage(x.request.messages, ready))
    && x.request.lastToolResults == cv.results
    && env.provider(x.request, x.before).0 == x.after && env.provider(x.request, x.before).1 == x.reply
  }

  predicate TooLong(reply: Reply) {
    reply.Replied? && reply.step.StepError? && reply.step.code == "context_overflow"
  }

  /** A failing hook ends the turn in this state. */
  ghost predicate GivesUp<S(!new)>(env: Env<S>, cv: Conv<S>, from: S, failed: S, state: S, asked: Asked<S>) {
    && asked.Abort? && asked.conv == cv.(state := state) && asked.error.code == "middleware_error"
    && asked.reason == "middleware_before_provider_step_error"
    && exists stages ::
         HookFails(env.middlewares, StepHook, stages, Stage(cv.messages, from), failed, asked.error.message)
  }

  /** What the provider replied, as the hooks patch it, is what the runner goes on with. */
  ghost predicate Heeds<S>(env: Env<S>, cv: Conv<S>, x: Exchange<S>, asked: Asked<S>) {
    && asked.conv == cv.(state := x.after, nextId := asked.conv.nextId)
    && match x.reply
       case Failed(message) =>
         && asked.Abort? && asked.error == RuntimeError("provider_error", message)
         && asked.reason == "provider_error" && asked.conv.nextId == cv.nextId
       case TimedOut =>
         && asked.Abort? && asked.error.code == "provider_timeout"
         && asked.reason == "provider_timeout" && asked.conv.nextId == cv.nextId
       case Replied(step) =>
         exists patches ::
           if asked.Answer? then
             PatchedTo(env.middlewares, patches, Patch(step, cv.nextId), Patch(asked.step, asked.conv.nextId))
           else
             && asked.error.code == "middleware_error" && asked.reason == "middleware_patch_provider_step_error"
             && PatchFails(env.middlewares, patches, Patch(step, cv.nextId), asked.conv.nextId, asked.error.message)
  }

  /**
   * The provider is asked once, with the view of the history that the hooks leave, and a second time, after a context
   * overflow, with the view they leave when summarization is forced; the mark of that is gone when it is asked.
   */
  ghost predicate TurnAsks<S(!new)>(env: Env<S>, cv: Conv<S>, sent: seq<Exchange<S>>, asked: Asked<S>) {
    && |sent| <= 2
    && (|sent| == 0 ==> GivesUp(env, cv, cv.state, asked.conv.state, asked.conv.state, asked))
    && (|sent| >= 1 ==> Sends(env, cv, cv.state, sent[0], sent[0].before))
    && (|sent| == 2 ==>
          && TooLong(sent[0].reply)
          && exists ready ::
               sent[1].before == env.clearForce(ready)
               && Sends(env, cv, env.setForce(sent[0].after), sent[1], ready))
    && (|sent| == 1 && TooLong(sent[0].reply) ==>
          exists failed ::
            asked.conv.state == env.clearForce(failed)
            && GivesUp(env, cv, env.setForce(sent[0].after), failed, asked.conv.state, asked))
    && (|sent| == 2 || (|sent| == 1 && !TooLong(sent[0].reply)) ==> Heeds(env, cv, sent[|sent| - 1], asked))
  }

  lemma PatchedIsHeeded<S>(env: Env<S>, cv: Conv<S>, x: Exchange<S>)
    ensures Heeds(env, cv, x, PatchAnswer(env, ReadReply(cv.(state := x.after), x.reply)))
  {
    if x.reply.Replied? {
      var patches := PatchChainIsTrail(env.middlewares, Patch(x.reply.step, cv.nextId));
      var asked := PatchAnswer(env, ReadReply(cv.(state := x.after), x.reply));
      assert if asked.Answer? then
          PatchedTo(env.middlewares, patches, Patch(x.reply.step, cv.nextId), Patch(asked.step, asked.conv.nextId))
        else
          asked.error.code == "middleware_error" && asked.reason == "middleware_patch_provider_step_error"
          && PatchFails(env.middlewares, patches, Patch(x.reply.step, cv.nextId), asked.conv.nextId,
                        asked.error.message);
    }
  }

  /** The first request, if the hooks let it come to that. */
  lemma FirstIsSent<S(!new)>(env: Env<S>, cv: Conv<S>) returns (sent: seq<Exchange<S>>)
    ensures var first := AskOnce(env, cv);
            && |sent| <= 1
            && (sent == [] ==> GivesUp(env, cv, cv.state, first.conv.state, first.conv.state, first))
            && (sent != [] ==>
                  && Sends(env, cv, cv.state, sent[0], sent[0].before)
                  && first == ReadReply(cv.(state := sent[0].after), sent[0].reply))
  {
    var stages := StepIsTrail(env.middlewares, Stage(cv.messages, cv.state));
    var (s1, view) := BeforeStepChain(env.middlewares, cv.messages, cv.state);
    if view.Err? {
      sent := [];
    } else {
      var request := Request(view.value, cv.results);
      var (s2, reply) := env.provider(request, s1);
      sent := [Exchange(stages, request, s1, s2, reply)];
    }
  }

  lemma SecondIsSent<S(!new)>(env: Env<S>, cv: Conv<S>) returns (sent: seq<Exchange<S>>, ready: S)
    ensures var second := AskForced(env, cv);
            && |sent| <= 1
            && (sent == [] ==>
                  && second.conv.state == env.clearForce(ready)
                  && GivesUp(env, cv, env.setForce(cv.state), ready, second.conv.state, second))
            && (sent != [] ==>
                  && Sends(env, cv, env.setForce(cv.state), sent[0], ready) && sent[0].before == env.clearForce(ready)
                  && second == ReadReply(cv.(state := sent[0].after), sent[0].reply))
  {
    var stages := StepIsTrail(env.middlewares, Stage(cv.messages, env.setForce(cv.state)));
    var (s1, view) := BeforeStepChain(env.middlewares, cv.messages, env.setForce(cv.state));
    ready := s1;
    if view.Err? {
      sent := [];
    } else {
      var request := Request(view.value, cv.results);
      var (s2, reply) := env.provider(request, env.clearForce(s1));
      sent := [Exchange(stages, request, env.clearForce(s1), s2, reply)];
    }
  }

  /** Whatever the surroundings are, a turn asks as it should. */
  lemma AskingAsks<S(!new)>(env: Env<S>, cv: Conv<S>) returns (sent: seq<Exchange<S>>)
    ensures TurnAsks(env, cv, sent, AskProvider(env, cv))
  {
    var first := AskOnce(env, cv);
    sent := FirstIsSent(env, cv);
    if sent != [] {
      if TooLong(sent[0].reply) {
        var cv1 := cv.(state := sent[0].after);
        var more, ready := SecondIsSent(env, cv1);
        if more == [] {
          assert GivesUp(env, cv, env.setForce(sent[0].after), ready, AskForced(env, cv1).conv.state,
                         AskForced(env, cv1));
        } else {
          PatchedIsHeeded(env, cv, more[0]);
          assert Sends(env, cv, env.setForce(sent[0].after), more[0], ready);
          assert AskProvider(env, cv) == PatchAnswer(env, ReadReply(cv.(state := more[0].after), more[0].reply));
        }
        sent := sent + more;
      } else {
        PatchedIsHeeded(env, cv, sent[0]);
      }
    }
  }

  // ----- every turn of every run -----

  /** All requests of several turns, in order. */
  function AllRequests<S>(sent: seq<seq<Exchange<S>>>): seq<Request> {
    if sent == [] then [] else AllRequests(sent[..|sent| - 1]) + RequestsOf(sent[|sent| - 1])
  }

  function RequestsOf<S>(sent: seq<Exchange<S>>): seq<Request> {
    seq(|sent|, i requires 0 <= i < |sent| => sent[i].request)
  }

  /** Each of these turns asks as it should. */
  ghost predicate AllAsk<S(!new)>(env: Env<S>, turns: seq<Runner<S>>, sent: seq<seq<Exchange<S>>>) {
    |sent| == |turns| && forall i :: 0 <= i < |turns| ==>
      TurnAsks(env, turns[i].conv, sent[i], AskProvider(env, turns[i].conv))
  }

  lemma OneMoreTurn<S(!new)>(env: Env<S>, turns: seq<Runner<S>>, sent: seq<seq<Exchange<S>>>, r: Runner<S>,
                             now: seq<Exchange<S>>)
    requires AllAsk(env, turns, sent) && TurnAsks(env, r.conv, now, AskProvider(env, r.conv))
    ensures AllAsk(env, turns + [r], sent + [now])
    ensures AllRequests(sent + [now]) == AllRequests(sent) + RequestsOf(now)
  {
    assert (sent + [now])[..|sent|] == sent;
  }

  /** Whatever the surroundings are, every turn asks with the view the hooks make of the history at that turn. */
  lemma {:induction false} EveryTurnAsksTheView<S(!new)>(env: Env<S>, turns: seq<Runner<S>>)
    returns (sent: seq<seq<Exchange<S>>>)
    ensures AllAsk(env, turns, sent)
  {
    sent := [];
    if turns != [] {
      var n := |turns| - 1;
      var init := EveryTurnAsksTheView(env, turns[..n]);
      var now := AskingAsks(env, turns[n].conv);
      OneMoreTurn(env, turns[..n], init, turns[n], now);
      assert turns == turns[..n] + [turns[n]];
      sent := init + [now];
    }
  }

  /** A middleware leaves the record alone. */
  ghost predicate LeavesRecord<S(!new)>(m: Middleware<S>, record: S -> seq<Request>) {
    && (forall ms, s :: record(m.beforeRun(ms, s).0) == record(s))
    && (forall ms, s :: record(m.beforeProviderStep(ms, s).0) == record(s))
    && (forall call, ms, s :: record(m.handleToolCall(call, ms, s).1) == record(s))
  }

  /** The surroundings keep a record of the requests: the provider adds those it gets, and nothing else changes it. */
  ghost predicate Records<S(!new)>(env: Env<S>, record: S -> seq<Request>) {
    && (forall req, s :: record(env.provider(req, s).0) == record(s) + [req])
    && (forall name, input, id, s :: record(env.skill(name, input, id, s).0) == record(s))
    && (forall tool, args, s :: record(env.tool(tool, args, s).0) == record(s))
    && (forall tool, id, output, s :: record(env.offload(tool, id, output, s).0) == record(s))
    && (forall s :: record(env.setForce(s)) == record(s) && record(env.clearForce(s)) == record(s))
    && (forall k: nat :: k < |env.middlewares| ==> LeavesRecord(env.middlewares[k], record))
  }

  /** The record so far. */
  ghost function RecordIs<S>(record: S -> seq<Request>, requests: seq<Request>): Claim<S> {
    (ms, s) => record(s) == requests
  }

  lemma RecordSurvivesActs<S(!new)>(env: Env<S>, record: S -> seq<Request>, requests: seq<Request>)
    requires Records(env, record)
    ensures SurvivesActs(env, RecordIs(record, requests))
  {
    var p := RecordIs(record, requests);
    forall k: nat | k < |env.middlewares| ensures SurvivesOffer(env.middlewares[k], p) {
      assert LeavesRecord(env.middlewares[k], record);
    }
  }

  lemma {:induction false} StagesLeaveRecord<S(!new)>(env: Env<S>, record: S -> seq<Request>, stages: seq<Stage<S>>,
                                                      i: nat)
    requires Records(env, record) && Trail(env.middlewares, StepHook, stages) && i < |stages|
    ensures record(stages[i].state) == record(stages[0].state)
  {
    if i > 0 {
      StagesLeaveRecord(env, record, stages, i - 1);
      assert LeavesRecord(env.middlewares[i - 1], record);
    }
  }

  /** A turn that asks as it should puts its requests on record. */
  lemma TurnIsRecorded<S(!new)>(env: Env<S>, record: S -> seq<Request>, cv: Conv<S>, sent: seq<Exchange<S>>,
                                asked: Asked<S>)
    requires Records(env, record) && TurnAsks(env, cv, sent, asked)
    ensures record(asked.conv.state) == record(cv.state) + RequestsOf(sent)
  {
    if |sent| == 0 {
      FailingIsNotRecorded(env, record, cv, cv.state, asked.conv.state, asked.conv.state, asked);
    } else {
      SendingIsRecorded(env, record, cv, cv.state, sent[0], sent[0].before);
      if |sent| == 2 {
        var ready :| sent[1].before == env.clearForce(ready)
                     && Sends(env, cv, env.setForce(sent[0].after), sent[1], ready);
        SendingIsRecorded(env, record, cv, env.setForce(sent[0].after), sent[1], ready);
      } else if TooLong(sent[0].reply) {
        var failed :| asked.conv.state == env.clearForce(failed)
                      && GivesUp(env, cv, env.setForce(sent[0].after), failed, asked.conv.state, asked);
        FailingIsNotRecorded(env, record, cv, env.setForce(sent[0].after), failed, asked.conv.state, asked);
      }
    }
  }

  lemma SendingIsRecorded<S(!new)>(env: Env<S>, record: S -> seq<Request>, cv: Conv<S>, from: S, x: Exchange<S>,
                                   ready: S)
    requires Records(env, record) && Sends(env, cv, from, x, ready)
    ensures record(ready) == record(from) && record(x.after) == record(x.before) + [x.request]
  {
    StagesLeaveRecord(env, record, x.stages, |env.middlewares|);
  }

  lemma FailingIsNotRecorded<S(!new)>(env: Env<S>, record: S -> seq<Request>, cv: Conv<S>, from: S, failed: S,
                                      state: S, asked: Asked<S>)
    requires Records(env, record) && GivesUp(env, cv, from, failed, state, asked)
    ensures record(failed) == record(from)
  {
    var stages :| HookFails(env.middlewares, StepHook, stages, Stage(cv.messages, from), failed, asked.error.message);
    StagesLeaveRecord(env, record, stages, |stages| - 1);
    assert LeavesRecord(env.middlewares[|stages| - 1], record);
  }

  /** The turns so far ask as they should, and the record has just their requests. */
  ghost predicate OnRecord<S(!new)>(env: Env<S>, record: S -> seq<Request>, first: seq<Request>,
                                    turns: seq<Runner<S>>, sent: seq<seq<Exchange<S>>>, r: Runner<S>)
  {
    AllAsk(env, turns, sent) && record(r.conv.state) == first + AllRequests(sent)
  }

  /** Acting on the answer asks nothing more. */
  lemma ActingIsNotRecorded<S(!new)>(env: Env<S>, record: S -> seq<Request>, r: Runner<S>, k: nat)
    requires Records(env, record)
    ensures record(Turn(env, r, k).runner.conv.state) == record(AskProvider(env, r.conv).conv.state)
  {
    var asked := AskProvider(env, r.conv);
    if asked.Answer? {
      var requests := record(asked.conv.state);
      RecordSurvivesActs(env, record, requests);
      ActKeeps(env, RecordIs(record, requests), r.(conv := asked.conv), asked.step, k);
    }
  }

  lemma RecordedTurn<S(!new)>(env: Env<S>, record: S -> seq<Request>, r: Runner<S>, k: nat)
    returns (now: seq<Exchange<S>>)
    requires Records(env, record)
    ensures TurnAsks(env, r.conv, now, AskProvider(env, r.conv))
    ensures record(Turn(env, r, k).runner.conv.state) == record(r.conv.state) + RequestsOf(now)
  {
    now := AskingAsks(env, r.conv);
    TurnIsRecorded(env, record, r.conv, now, AskProvider(env, r.conv));
    ActingIsNotRecorded(env, record, r, k);
  }

  lemma TurnOnRecord<S(!new)>(env: Env<S>, record: S -> seq<Request>, first: seq<Request>, turns: seq<Runner<S>>,
                              sent: seq<seq<Exchange<S>>>, r: Runner<S>, k: nat)
    returns (sent1: seq<seq<Exchange<S>>>)
    requires Records(env, record) && OnRecord(env, record, first, turns, sent, r)
    ensures OnRecord(env, record, first, turns + [r], sent1, Turn(env, r, k).runner)
  {
    var now := RecordedTurn(env, record, r, k);
    sent1 := sent + [now];
    OneMoreTurn(env, turns, sent, r, now);
    RunnerTheorems.Regroup(first, AllRequests(sent), RequestsOf(now));
  }

  lemma {:induction false} LoopOnRecord<S(!new)>(env: Env<S>, record: S -> seq<Request>, first: seq<Request>,
                                                 turns: seq<Runner<S>>, sent: seq<seq<Exchange<S>>>, r: Runner<S>,
                                                 k: nat) returns (sent1: seq<seq<Exchange<S>>>)
    requires Records(env, record) && OnRecord(env, record, first, turns, sent, r)
    ensures OnRecord(env, record, first, turns + Turns(env, r, k), sent1, RunLoop(env, r, k).0)
    decreases env.maxSteps - k
  {
    sent1 := sent;
    assert turns + [] == turns;
    if k < env.maxSteps {
      var t, k1 := LoopStep(env, r, k);
      TurnsUnfold(env, r, k, k1);
      sent1 := TurnOnRecord(env, record, first, turns, sent, r, k);
      if t.Go? {
        sent1 := LoopOnRecord(env, record, first, turns + [r], sent1, t.runner, k1);
        RunnerTheorems.Regroup(turns, [r], Turns(env, t.runner, k1));
      }
    }
  }

  lemma {:induction false} StartLeavesRecord<S(!new)>(env: Env<S>, record: S -> seq<Request>, k: nat,
                                                      ms: seq<Message>, s: S)
    requires Records(env, record) && k <= |env.middlewares|
    ensures record(BeforeRunChain(env.middlewares[k..], ms, s).0) == record(s)
    decreases |env.middlewares| - k
  {
    if k < |env.middlewares| {
      var m := env.middlewares[k];
      assert LeavesRecord(m, record);
      assert env.middlewares[k..][0] == m && env.middlewares[k..][1..] == env.middlewares[k + 1..];
      var (s1, r) := m.beforeRun(ms, s);
      if r.Ok? {
        StartLeavesRecord(env, record, k + 1, r.value, s1);
      }
    }
  }

  lemma RunOnRecord<S(!new)>(env: Env<S>, record: S -> seq<Request>, first: seq<Request>, turns: seq<Runner<S>>,
                             sent: seq<seq<Exchange<S>>>, r: Runner<S>) returns (sent1: seq<seq<Exchange<S>>>)
    requires Records(env, record) && OnRecord(env, record, first, turns, sent, r)
    ensures OnRecord(env, record, first, turns + RunTurns(env, r), sent1, Run(env, r).0)
  {
    sent1 := sent;
    assert turns + [] == turns;
    assert env.middlewares[0..] == env.middlewares;
    StartLeavesRecord(env, record, 0, Normalized(env.codec, r.conv.messages), r.conv.state);
    var start := LoopStart(env, r);
    if start.Some? {
      sent1 := LoopOnRecord(env, record, first, turns, sent, start.value, 0);
    }
  }

  lemma ResumeOnRecord<S(!new)>(env: Env<S>, record: S -> seq<Request>, first: seq<Request>, turns: seq<Runner<S>>,
                                sent: seq<seq<Exchange<S>>>, r: Runner<S>, id: string, decision: HitlDecision)
    returns (sent1: seq<seq<Exchange<S>>>)
    requires Records(env, record) && OnRecord(env, record, first, turns, sent, r)
    ensures OnRecord(env, record, first, turns + TurnsOf(env, r, ResumeInput(id, decision)), sent1,
                     Resume(env, r, id, decision).0)
  {
    sent1 := sent;
    assert turns + [] == turns;
    if r.pending.Some? && Refusal(r, id, decision).None? {
      var p, requests := r.pending.value, record(r.conv.state);
      var r1 := r.(conv := Settle(env, r.conv, p, decision), pending := None);
      RecordSurvivesActs(env, record, requests);
      SettleKeeps(env, RecordIs(record, requests), r.conv, p, decision);
      BatchKeeps(env, RecordIs(record, requests), r1, p.remaining);
      var b := RunBatch(env, r1, p.remaining);
      if b.Go? {
        sent1 := RunOnRecord(env, record, first, turns, sent, b.runner);
      }
    }
  }

  lemma ReactOnRecord<S(!new)>(env: Env<S>, record: S -> seq<Request>, first: seq<Request>, turns: seq<Runner<S>>,
                               sent: seq<seq<Exchange<S>>>, r: Runner<S>, input: Input)
    returns (sent1: seq<seq<Exchange<S>>>)
    requires Records(env, record) && OnRecord(env, record, first, turns, sent, r)
    ensures OnRecord(env, record, first, turns + TurnsOf(env, r, input), sent1, React(env, r, input))
  {
    match input {
      case RunInput => sent1 := RunOnRecord(env, record, first, turns, sent, r);
      case ResumeInput(id, decision) => sent1 := ResumeOnRecord(env, record, first, turns, sent, r, id, decision);
      case UserInput(text) =>
        sent1 := sent;
        assert turns + [] == turns;
    }
  }

  lemma {:induction false} DriveOnRecord<S(!new)>(env: Env<S>, record: S -> seq<Request>, first: seq<Request>,
                                                  turns: seq<Runner<S>>, sent: seq<seq<Exchange<S>>>, r: Runner<S>,
                                                  inputs: seq<Input>) returns (sent1: seq<seq<Exchange<S>>>)
    requires Records(env, record) && OnRecord(env, record, first, turns, sent, r)
    ensures OnRecord(env, record, first, turns + AllTurns(env, r, inputs), sent1, Drive(env, r, inputs))
    decreases |inputs|
  {
    if inputs == [] {
      sent1 := sent;
      assert turns + [] == turns;
    } else {
      sent1 := ReactOnRecord(env, record, first, turns, sent, r, inputs[0]);
      sent1 := DriveOnRecord(env, record, first, turns + TurnsOf(env, r, inputs[0]), sent1,
                             React(env, r, inputs[0]), inputs[1..]);
      TurnsInOrder(env, turns, r, inputs);
    }
  }

  /**
   * Over any sequence of inputs, what a provider that keeps a record has been sent is one request for each turn, with
   * the view the hooks made of the runner's history at that turn, a second one where that was too long, and no other.
   */
  lemma EveryRequestIsTheView<S(!new)>(env: Env<S>, record: S -> seq<Request>, messages: seq<Message>, state: S,
                                       inputs: seq<Input>) returns (sent: seq<seq<Exchange<S>>>)
    requires Records(env, record)
    ensures AllAsk(env, AllTurns(env, Fresh(messages, state), inputs), sent)
    ensures record(After(env, messages, state, inputs).conv.state) == record(state) + AllRequests(sent)
  {
    assert record(state) + [] == record(state);
    sent := DriveOnRecord(env, record, record(state), [], [], Fresh(messages, state), inputs);
    assert [] + AllTurns(env, Fresh(messages, state), inputs) == AllTurns(env, Fresh(messages, state), inputs);
  }

  // ----- any surroundings can keep a record -----

  function RecordingMiddleware<S>(m: Middleware<S>): Middleware<(S, seq<Request>)> {
    Middleware(
      (ms: seq<Message>, s: (S, seq<Request>)) => var (s1, r) := m.beforeRun(ms, s.0); ((s1, s.1), r),
      (ms: seq<Message>, s: (S, seq<Request>)) => var (s1, r) := m.beforeProviderStep(ms, s.0); ((s1, s.1), r),
      m.patchProviderStep,
      (call: ProviderToolCall, ms: seq<Message>, s: (S, seq<Request>)) =>
        var (ms1, s1, r) := m.handleToolCall(call, ms, s.0); (ms1, (s1, s.1), r))
  }

  /** The same surroundings, with the requests written down beside their state. */
  function Recording<S>(env: Env<S>): Env<(S, seq<Request>)> {
    Env(
      env.codec,
      seq(|env.middlewares|, i requires 0 <= i < |env.middlewares| => RecordingMiddleware(env.middlewares[i])),
      (req: Request, s: (S, seq<Request>)) => var (s1, r) := env.provider(req, s.0); ((s1, s.1 + [req]), r),
      (name: string, input: Value, id: Option<string>, s: (S, seq<Request>)) =>
        var (s1, r) := env.skill(name, input, id, s.0); ((s1, s.1), r),
      (tool: string, args: Value, s: (S, seq<Request>)) => var (s1, r) := env.tool(tool, args, s.0); ((s1, s.1), r),
      (tool: string, id: string, output: Value, s: (S, seq<Request>)) =>
        var (s1, v, text) := env.offload(tool, id, output, s.0); ((s1, s.1), v, text),
      if env.approval.None? then None
      else Some((command: string, s: (S, seq<Request>)) => env.approval.value(command, s.0)),
      env.mode,
      env.interruptOn,
      (s: (S, seq<Request>)) => (env.setForce(s.0), s.1),
      (s: (S, seq<Request>)) => (env.clearForce(s.0), s.1),
      env.maxSteps)
  }

  lemma RecordingRecords<S(!new)>(env: Env<S>)
    ensures Records(Recording(env), (s: (S, seq<Request>)) => s.1)
  {
    var recording := Recording(env);
    forall k: nat | k < |recording.middlewares|
      ensures LeavesRecord(recording.middlewares[k], (s: (S, seq<Request>)) => s.1)
    {
      assert recording.middlewares[k] == RecordingMiddleware(env.middlewares[k]);
    }
  }
}
