/** The second runtime: one run, no interrupts. It threads its conversation through its methods. */
module SimpleRuntimes {
  import opened Wrappers
  import opened Json
  import opened Types
  import opened ToolCompat
  import opened RunnerSpec

  function NotSupported(code: string, reason: string, mode: string): string {
    NotAllowed(code, reason) + " (interactive approval required; not supported in " + mode + ")"
  }

  // ----- what one call and one batch do -----

  /** Middlewares first, then the policy, then the tool; a call is never held. */
  function SimpleServe<S>(env: Env<S>, cv: Conv<S>, call: ProviderToolCall): Conv<S> {
    var id, tool := call.callId.GetOr(""), call.toolName;
    var (cv1, handled) := OfferAll(env, cv, call);
    if handled.Some? then PostHandled(env, cv1, id, tool, handled.value)
    else
      match Verdict(env, tool, call.arguments, cv1.state)
      case Deny(code, reason) => PostError(env.codec, cv1, id, tool, NotAllowed(code, reason))
      case RequireApproval(code, reason) => PostError(env.codec, cv1, id, tool, NotSupported(code, reason, env.mode))
      case Allow => Dispatch(env, cv1, call, call.arguments, None)
  }

  function SimpleOne<S>(env: Env<S>, guard: bool, call0: ProviderToolCall, cv: Conv<S>): Conv<S> {
    var p := PrepareCall(env.codec, call0, cv.nextId);
    var id, tool := p.call.callId.GetOr(""), p.call.toolName;
    var cv1 := Enter(cv, p);
    if p.error.Some? then PostError(env.codec, cv1, id, tool, ArgumentsErrorText(p.error.value))
    else if guard && tool == "write_todos" then PostError(env.codec, cv1, id, tool, TODOS_IN_PARALLEL)
    else SimpleServe(env, cv1, p.call)
  }

  function SimpleQueue<S>(env: Env<S>, guard: bool, calls: seq<ProviderToolCall>, cv: Conv<S>): Conv<S>
    decreases calls
  {
    if calls == [] then cv else SimpleQueue(env, guard, calls[1..], SimpleOne(env, guard, calls[0], cv))
  }

  function SimpleBatch<S>(env: Env<S>, calls: seq<ProviderToolCall>, cv: Conv<S>): Conv<S> {
    SimpleQueue(env, TodoCount(calls) > 1, calls, cv)
  }

  // ----- what one run does -----

  /** After an overflow: a failing middleware leaves the force flag set. */
  function SimpleAskForced<S>(env: Env<S>, cv: Conv<S>): Asked<S> {
    var (s1, view) := BeforeStepChain(env.middlewares, cv.messages, env.setForce(cv.state));
    match view
    case Err(e) => Abort(cv.(state := s1), MiddlewareError(e), BEFORE_STEP_FAILED)
    case Ok(messages) =>
      var (s2, reply) := env.provider(Request(messages, cv.results), env.clearForce(s1));
      ReadReply(cv.(state := s2), reply)
  }

  function SimpleAsk<S>(env: Env<S>, cv: Conv<S>): Asked<S> {
    var first := AskOnce(env, cv);
    PatchAnswer(env, if first.Answer? && Overflow(first.step) then SimpleAskForced(env, first.conv) else first)
  }

  datatype SimpleOutcome<S> = Finish(conv: Conv<S>, output: RunOutput<S>) | Continue(conv: Conv<S>)

  function SimpleAct<S>(env: Env<S>, cv: Conv<S>, step: ProviderStep, k: nat): SimpleOutcome<S> {
    match step
    case AssistantMessage(text) => Continue(cv.(messages := cv.messages + [Plain("assistant", text)]))
    case FinalText(text) => Finish(cv, CompletedOutput(cv, text, k))
    case StepError(code, message) =>
      Finish(cv, ErrorOutput(cv, [], RuntimeError(code, message), Some(Trace(k, "provider_step_error"))))
    case SkillCall(name, input, callId) =>
      var (state, expanded) := env.skill(name, input, callId, cv.state);
      var cv1 := cv.(state := state);
      (match expanded
       case Err(e) => Finish(cv1, ErrorOutput(cv1, [], e, Some(Trace(k, "skill_error"))))
       case Ok(calls) => Continue(SimpleBatch(env, calls, cv1)))
    case ToolCalls(calls) =>
      Continue(SimpleBatch(env, calls, cv.(messages := cv.messages + [Announce(calls)])))
  }

  function SimpleTurn<S>(env: Env<S>, cv: Conv<S>, k: nat): SimpleOutcome<S> {
    match SimpleAsk(env, cv)
    case Abort(cv1, error, reason) => Finish(cv1, ErrorOutput(cv1, [], error, Some(Trace(k, reason))))
    case Answer(cv1, step) => SimpleAct(env, cv1, step, k)
  }

  function SimpleLoop<S>(env: Env<S>, cv: Conv<S>, k: nat): (Conv<S>, RunOutput<S>)
    decreases env.maxSteps - k
  {
    if k >= env.maxSteps then (cv, MaxStepsOutput(env, cv))
    else
      match SimpleTurn(env, cv, k)
      case Finish(cv1, out) => (cv1, out)
      case Continue(cv1) => SimpleLoop(env, cv1, k + 1)
  }

  /** The conversation at the end of a run, with the run's output. */
  function SimpleRun<S>(env: Env<S>, messages: seq<Message>, state0: S): (Conv<S>, RunOutput<S>) {
    var (state, prepared) := BeforeRunChain(env.middlewares, Normalized(env.codec, messages), state0);
    match prepared
    case Err(e) =>
      var cv := Conv([], [], [], 1, state, []);
      (cv, ErrorOutput(cv, [], MiddlewareError(e), Some(Trace(0, "middleware_before_run_error"))))
    case Ok(ms) => SimpleLoop(env, Conv(ms, [], ResultsOf(env.codec, ms), 1, state, []), 0)
  }

  // ----- the runtime itself -----

  class SimpleRuntime<S(!new)> {
    const env: Env<S>
    const initialState: S

    constructor (env: Env<S>, initialState: S)
      ensures this.env == env && this.initialState == initialState
    {
      this.env, this.initialState := env, initialState;
    }

    method Serve(cv0: Conv<S>, call: ProviderToolCall) returns (cv: Conv<S>)
      ensures cv == SimpleServe(env, cv0, call)
    {
      cv := cv0;
      var id, tool := call.callId.GetOr(""), call.toolName;
      var handled: Option<HandledToolCall> := None;
      if env.middlewares != [] {
        cv := cv.(log := cv.log + [Offered(|cv.calls| - 1, id, tool, call.arguments, cv.messages, cv.state)]);
        ghost var target := HandleChain(env.middlewares, call, cv.messages, cv.state);
        ghost var logged := cv;
        var k := 0;
        while k < |env.middlewares| && handled.None?
          invariant k <= |env.middlewares|
          invariant handled.None? ==> HandleChain(env.middlewares[k..], call, cv.messages, cv.state) == target
          invariant handled.Some? ==> (cv.messages, cv.state, handled) == target
          invariant cv == logged.(messages := cv.messages, state := cv.state)
        {
          assert env.middlewares[k..][1..] == env.middlewares[k + 1..];
          var (messages, state, answer) := env.middlewares[k].handleToolCall(call, cv.messages, cv.state);
          cv := cv.(messages := messages, state := state);
          match answer {
            case Ok(Some(h)) => handled := Some(h);
            case Ok(None) =>
            case Err(e) => handled := Some(HandledToolCall(Null, Some("middleware_error: " + e)));
          }
          k := k + 1;
        }
      }
      if handled.Some? {
        cv := PostHandled(env, cv, id, tool, handled.value);
        return;
      }
      if tool == "execute" && env.approval.Some? {
        match env.approval.value(CommandOf(call.arguments), cv.state) {
          case Deny(code, reason) =>
            cv := PostError(env.codec, cv, id, tool, NotAllowed(code, reason));
            return;
          case RequireApproval(code, reason) =>
            cv := PostError(env.codec, cv, id, tool, NotSupported(code, reason, env.mode));
            return;
          case Allow =>
        }
      }
      cv := Dispatch(env, cv, call, call.arguments, None);
    }

    method ExecuteCalls(calls: seq<ProviderToolCall>, cv0: Conv<S>) returns (cv: Conv<S>)
      ensures cv == SimpleBatch(env, calls, cv0)
    {
      cv := cv0;
      var writeTodosCount := TodoCount(calls);
      ghost var target := SimpleBatch(env, calls, cv0);
      for i := 0 to |calls|
        invariant SimpleQueue(env, writeTodosCount > 1, calls[i..], cv) == target
      {
        assert calls[i..][1..] == calls[i + 1..];
        ghost var before := cv;
        var p := NormalizeToolCallForExecution(env.codec, calls[i], cv.nextId);
        var id, tool := p.call.callId.GetOr(""), p.call.toolName;
        cv := cv.(nextId := p.nextId, calls := cv.calls + [ToolCallRecord(tool, p.call.arguments, Some(id))]);
        if p.error.Some? {
          cv := PostError(env.codec, cv, id, tool, ArgumentsErrorText(p.error.value));
        } else if writeTodosCount > 1 && tool == "write_todos" {
          cv := PostError(env.codec, cv, id, tool, TODOS_IN_PARALLEL);
        } else {
          cv := Serve(cv, p.call);
        }
        assert cv == SimpleOne(env, writeTodosCount > 1, calls[i], before);
      }
    }

    method ProviderView(cv: Conv<S>) returns (state: S, r: Result<seq<Message>, string>)
      ensures (state, r) == BeforeStepChain(env.middlewares, cv.messages, cv.state)
    {
      var current := cv.messages;
      state := cv.state;
      for k := 0 to |env.middlewares|
        invariant BeforeStepChain(env.middlewares[k..], current, state)
                  == BeforeStepChain(env.middlewares, cv.messages, cv.state)
      {
        assert env.middlewares[k..][1..] == env.middlewares[k + 1..];
        var (state', next) := env.middlewares[k].beforeProviderStep(current, state);
        state := state';
        if next.Err? {
          return state, next;
        }
        current := next.value;
      }
      r := Ok(current);
    }

    /** One provider step, patched by the middlewares, or the error that ends the run. */
    method Ask(cv0: Conv<S>) returns (asked: Asked<S>)
      ensures asked == SimpleAsk(env, cv0)
    {
      var cv := cv0;
      var state, view := ProviderView(cv);
      cv := cv.(state := state);
      if view.Err? {
        return Abort(cv, MiddlewareError(view.error), BEFORE_STEP_FAILED);
      }
      var (s2, reply) := env.provider(Request(view.value, cv.results), cv.state);
      cv := cv.(state := s2);
      asked := ReadReply(cv, reply);
      if asked.Answer? && Overflow(asked.step) {
        cv := cv.(state := env.setForce(cv.state));
        state, view := ProviderView(cv);
        cv := cv.(state := state);
        if view.Err? {
          return Abort(cv, MiddlewareError(view.error), BEFORE_STEP_FAILED);
        }
        cv := cv.(state := env.clearForce(cv.state));
        var (s3, reply2) := env.provider(Request(view.value, cv.results), cv.state);
        cv := cv.(state := s3);
        asked := ReadReply(cv, reply2);
      }
      if asked.Answer? {
        var step, nextId := asked.step, cv.nextId;
        for k := 0 to |env.middlewares|
          invariant PatchStepChain(env.middlewares[k..], step, nextId)
                    == PatchStepChain(env.middlewares, asked.step, cv.nextId)
        {
          assert env.middlewares[k..][1..] == env.middlewares[k + 1..];
          var (nextId', next) := env.middlewares[k].patchProviderStep(step, nextId);
          nextId := nextId';
          if next.Err? {
            return Abort(cv.(nextId := nextId), MiddlewareError(next.error), PATCH_STEP_FAILED);
          }
          step := next.value;
        }
        asked := Answer(cv.(nextId := nextId), step);
      }
    }

    method Perform(cv0: Conv<S>, step: ProviderStep, k: nat) returns (r: SimpleOutcome<S>)
      ensures r == SimpleAct(env, cv0, step, k)
    {
      var cv := cv0;
      match step {
        case AssistantMessage(text) =>
          r := Continue(cv.(messages := cv.messages + [Plain("assistant", text)]));
        case FinalText(text) =>
          r := Finish(cv, CompletedOutput(cv, text, k));
        case StepError(code, message) =>
          r := Finish(cv, ErrorOutput(cv, [], RuntimeError(code, message), Some(Trace(k, "provider_step_error"))));
        case SkillCall(name, input, callId) =>
          var (state, expanded) := env.skill(name, input, callId, cv.state);
          cv := cv.(state := state);
          match expanded {
            case Err(e) =>
              r := Finish(cv, ErrorOutput(cv, [], e, Some(Trace(k, "skill_error"))));
            case Ok(calls) =>
              cv := ExecuteCalls(calls, cv);
              r := Continue(cv);
          }
        case ToolCalls(calls) =>
          cv := cv.(messages := cv.messages + [Announce(calls)]);
          cv := ExecuteCalls(calls, cv);
          r := Continue(cv);
      }
    }

    method Run(messages0: seq<Message>) returns (out: RunOutput<S>, ghost cv: Conv<S>)
      ensures out == SimpleRun(env, messages0, initialState).1
      ensures cv == SimpleRun(env, messages0, initialState).0
    {
      var messages := NormalizeMessages(env.codec, messages0);
      var state := initialState;
      for k := 0 to |env.middlewares|
        invariant BeforeRunChain(env.middlewares[k..], messages, state)
                  == BeforeRunChain(env.middlewares, Normalized(env.codec, messages0), initialState)
      {
        assert env.middlewares[k..][1..] == env.middlewares[k + 1..];
        var (state', next) := env.middlewares[k].beforeRun(messages, state);
        state := state';
        if next.Err? {
          var empty := Conv([], [], [], 1, state, []);
          out := ErrorOutput(empty, [], MiddlewareError(next.error), Some(Trace(0, "middleware_before_run_error")));
          cv := empty;
          return;
        }
        messages := next.value;
      }
      var toolResults := ToolResultsFromMessages(env.codec, messages);
      var talk := Conv(messages, [], toolResults, 1, state, []);
      ghost var target := SimpleLoop(env, talk, 0);
      for k := 0 to env.maxSteps
        invariant SimpleLoop(env, talk, k) == target
      {
        var asked := Ask(talk);
        if asked.Abort? {
          out := ErrorOutput(asked.conv, [], asked.error, Some(Trace(k, asked.reason)));
          cv := asked.conv;
          return;
        }
        var done := Perform(asked.conv, asked.step, k);
        if done.Finish? {
          out := done.output;
          cv := done.conv;
          return;
        }
        talk := done.conv;
      }
      out := MaxStepsOutput(env, talk);
      cv := talk;
    }
  }
}
