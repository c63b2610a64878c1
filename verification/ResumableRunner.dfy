/** The interruptible runner as the object it is; each method is proved against RunnerSpec. */
module ResumableRunners {
  import opened Wrappers
  import opened Json
  import opened Types
  import opened ToolCompat
  import opened PatchToolCalls
  import opened RunnerSpec

  class ResumableRunner<S(!new)> {
    const env: Env<S>
    var initialized: bool
    var messages: seq<Message>
    var state: S
    var toolCalls: seq<ToolCallRecord>
    var toolResults: seq<ToolResultRecord>
    var nextCallId: nat
    var pending: Option<PendingInterrupt>
    ghost var log: seq<Event<S>>
    ghost var opening: seq<Message>

    /** The conversation held in the fields. */
    ghost function Talk(): Conv<S>
      reads this
    {
      Conv(messages, toolCalls, toolResults, nextCallId, state, log)
    }

    ghost function View(): Runner<S>
      reads this
    {
      Runner(Talk(), initialized, pending, opening)
    }

    constructor (env: Env<S>, messages: seq<Message>, state: S)
      ensures this.env == env
      ensures View() == Fresh(messages, state)
    {
      this.env := env;
      initialized, this.messages, this.state := false, messages, state;
      toolCalls, toolResults, nextCallId, pending := [], [], 1, None;
      log, opening := [], [];
    }

    method PushUserText(input: string)
      modifies this
      ensures View() == PushUserInput(old(View()), input)
    {
      messages := messages + [Plain("user", input)];
    }

    // ----- recording outcomes -----

    method Record(id: string, tool: string, output: Value, error: Option<string>, status: string, envelope: Value,
                  blocks: Option<seq<ContentBlock>>)
      modifies this
      ensures View() == old(View()).(conv := Post(env.codec, old(Talk()), id, tool, output, error, status, envelope,
                                                  blocks))
    {
      toolResults := toolResults + [ToolResultRecord(tool, Some(id), output, error, Some(status))];
      messages := messages + [Message("tool", env.codec.render(envelope), blocks, None, Some(id), Some(tool),
                                      Some(status))];
    }

    method RecordError(id: string, tool: string, err: string)
      modifies this
      ensures View() == old(View()).(conv := PostError(env.codec, old(Talk()), id, tool, err))
    {
      Record(id, tool, Null, Some(err), "error", ErrorEnvelope(id, tool, err), None);
    }

    method InjectRejectedToolMessage(call: ProviderToolCall, reason: Option<string>)
      modifies this
      ensures View() == old(View()).(conv := PostRejected(env.codec, old(Talk()), call, reason))
    {
      var id, tool := call.callId.GetOr(""), call.toolName;
      var reason2 := reason.GetOr("rejected");
      var err := "tool_call_rejected: " + reason2;
      Record(id, tool, Null, Some(err), "rejected", RejectedEnvelope(id, tool, err), None);
    }

    // ----- execute_calls -----

    /** Offer the call to the middlewares in order until one takes it or fails. */
    method OfferToMiddlewares(call: ProviderToolCall) returns (handled: Option<HandledToolCall>)
      modifies this
      ensures var (ms, st, h) := HandleChain(env.middlewares, call, old(messages), old(state));
              && handled == h
              && View() == old(View()).(conv := old(Talk()).(messages := ms, state := st))
    {
      handled := None;
      ghost var target := HandleChain(env.middlewares, call, messages, state);
      for k := 0 to |env.middlewares|
        invariant handled.None?
        invariant HandleChain(env.middlewares[k..], call, messages, state) == target
        invariant View() == old(View()).(conv := old(Talk()).(messages := messages, state := state))
      {
        assert env.middlewares[k..][0] == env.middlewares[k];
        assert env.middlewares[k..][1..] == env.middlewares[k + 1..];
        var (messages', state', answer) := env.middlewares[k].handleToolCall(call, messages, state);
        messages, state := messages', state';
        match answer {
          case Ok(Some(h)) =>
            handled := Some(h);
            return;
          case Ok(None) =>
          case Err(e) =>
            handled := Some(HandledToolCall(Null, Some("middleware_error: " + e)));
            return;
        }
      }
    }

    method RecordHandled(id: string, tool: string, h: HandledToolCall)
      modifies this
      ensures View() == old(View()).(conv := PostHandled(env, old(Talk()), id, tool, h))
    {
      if h.error.Some? {
        Record(id, tool, h.output, h.error, "error",
               HandledEnvelope(id, tool, "error", h.error.value, h.output, h.error), None);
      } else {
        var (state', output, content) := env.offload(tool, id, h.output, state);
        state := state';
        Record(id, tool, output, None, "success", HandledEnvelope(id, tool, "success", content, output, None), None);
      }
    }

    /** Call the tool and record what came of it. */
    method CallTool(call: ProviderToolCall, args: Value, edited: Option<Option<Value>>)
      modifies this
      ensures View() == old(View()).(conv := Dispatch(env, old(Talk()), call, args, edited))
    {
      var id, tool := call.callId.GetOr(""), call.toolName;
      log := log + [Dispatched(|toolCalls| - 1, id, tool, args, state)];
      var (state', result) := env.tool(tool, args, state);
      state := state';
      match result {
        case Ok(out) =>
          var (state'', output, content) := env.offload(tool, id, out.output, state);
          state := state'';
          if edited.Some? {
            Record(id, tool, output, None, "edited", EditedEnvelope(id, tool, content, output, edited.value, args),
                   out.blocks);
          } else {
            Record(id, tool, output, None, "success", SuccessEnvelope(id, tool, content, output), out.blocks);
          }
        case Err(e) =>
          RecordError(id, tool, e);
      }
    }

    /** Keep the call and the rest of its batch until a reviewer decides. */
    method Hold(call: ProviderToolCall, queue: seq<ProviderToolCall>) returns (interrupt: HitlInterrupt)
      modifies this
      ensures interrupt == InterruptFor(call)
      ensures View() == old(View()).(
                          conv := old(Talk()).(log := old(log) + [Paused(call.callId.GetOr(""))]),
                          pending := Some(PendingInterrupt(interrupt, call, queue)))
    {
      var id := call.callId.GetOr("");
      interrupt := HitlInterrupt(id, call.toolName, id, call.arguments);
      pending := Some(PendingInterrupt(interrupt, call, queue));
      log := log + [Paused(id)];
    }

    /** Ask the policy about an `execute` call; a denial is recorded at once. */
    method Review(tool: string, args: Value) returns (verdict: ApprovalDecision)
      ensures verdict == Verdict(env, tool, args, state)
    {
      if tool == "execute" {
        if env.approval.Some? {
          var cmd := CommandOf(args);
          verdict := env.approval.value(cmd, state);
          return;
        }
      }
      verdict := Allow;
    }

    /** One turn of the queue: `held` tells that the call waits for review. */
    method ExecuteOne(guard: bool, call0: ProviderToolCall) returns (held: Option<ProviderToolCall>)
      modifies this
      ensures match ExecOne(env, guard, call0, old(Talk()))
              case Done(cv) => held.None? && View() == old(View()).(conv := cv)
              case Held(cv, call) => held == Some(call) && View() == old(View()).(conv := cv)
    {
      held := None;
      var p := NormalizeToolCallForExecution(env.codec, call0, nextCallId);
      nextCallId := p.nextId;
      var call := p.call;
      var id, tool := call.callId.GetOr(""), call.toolName;
      toolCalls := toolCalls + [ToolCallRecord(tool, call.arguments, Some(id))];
      assert View() == old(View()).(conv := Enter(old(Talk()), p));
      if p.error.Some? {
        RecordError(id, tool, ArgumentsErrorText(p.error.value));
        return;
      }
      if guard && tool == "write_todos" {
        RecordError(id, tool, TODOS_IN_PARALLEL);
        return;
      }
      var verdict := Review(tool, call.arguments);
      match verdict {
        case Allow =>
        case Deny(code, reason) =>
          RecordError(id, tool, NotAllowed(code, reason));
          return;
        case RequireApproval(_, _) =>
          held := Some(call);
          return;
      }
      if tool in env.interruptOn && env.interruptOn[tool] {
        held := Some(call);
        return;
      }
      held := OfferAndDispatch(call);
    }

    method OfferAndDispatch(call: ProviderToolCall) returns (held: Option<ProviderToolCall>)
      modifies this
      ensures match OfferThenDispatch(env, old(Talk()), call)
              case Done(cv) => held.None? && View() == old(View()).(conv := cv)
              case Held(cv, c) => held == Some(c) && View() == old(View()).(conv := cv)
    {
      held := None;
      var id, tool := call.callId.GetOr(""), call.toolName;
      ghost var before := Talk();
      if env.middlewares != [] {
        log := log + [Offered(|toolCalls| - 1, id, tool, call.arguments, messages, state)];
        var handled := OfferToMiddlewares(call);
        if handled.Some? {
          RecordHandled(id, tool, handled.value);
          return;
        }
      }
      assert Talk() == before.(
          messages := HandleChain(env.middlewares, call, before.messages, before.state).0,
          state := HandleChain(env.middlewares, call, before.messages, before.state).1,
          log := before.log + if env.middlewares == [] then [] else
            [Offered(|before.calls| - 1, id, tool, call.arguments, before.messages, before.state)]);
      var verdict := Review(tool, call.arguments);
      match verdict {
        case Allow =>
          CallTool(call, call.arguments, None);
        case Deny(code, reason) =>
          RecordError(id, tool, NotAllowed(code, reason));
        case RequireApproval(_, _) =>
          held := Some(call);
      }
    }

    method CountTodos(calls: seq<ProviderToolCall>) returns (count: nat)
      ensures count == TodoCount(calls)
    {
      count := 0;
      for k := 0 to |calls|
        invariant count + TodoCount(calls[k..]) == TodoCount(calls)
      {
        assert calls[k..][1..] == calls[k + 1..];
        if calls[k].toolName == "write_todos" {
          count := count + 1;
        }
      }
    }

    method Execute(calls: seq<ProviderToolCall>) returns (interrupt: Option<HitlInterrupt>)
      requires pending.None?
      modifies this
      ensures var (cv, p) := ExecuteCalls(env, calls, old(Talk()));
              && View() == old(View()).(conv := cv, pending := p)
              && interrupt == (if p.Some? then Some(p.value.interrupt) else None)
    {
      var queue := calls;
      var writeTodosCount := CountTodos(calls);
      ghost var guard := TodoCount(calls) > 1;
      ghost var target := ExecuteCalls(env, calls, Talk());
      while queue != []
        invariant pending.None?
        invariant ExecQueue(env, guard, queue, Talk()) == target
        invariant View() == old(View()).(conv := Talk())
        decreases |queue|
      {
        var call0 := queue[0];
        queue := queue[1..];
        var held := ExecuteOne(writeTodosCount > 1, call0);
        if held.Some? {
          var i := Hold(held.value, queue);
          return Some(i);
        }
      }
      return None;
    }

    method ExecutePendingCall(call: ProviderToolCall, edited: Option<Value>, original: Option<Value>)
      modifies this
      ensures View() == old(View()).(conv := ExecutePending(env, old(Talk()), call, edited, original))
    {
      var id, tool := call.callId.GetOr(""), call.toolName;
      var args := edited.GetOr(call.arguments);
      var verdict := Review(tool, args);
      match verdict {
        case Allow =>
          CallTool(call, args, if edited.Some? then Some(original) else None);
        case Deny(code, reason) =>
          RecordError(id, tool, NotAllowed(code, reason));
        case RequireApproval(code, reason) =>
          RecordError(id, tool, NotAllowed(code, reason));
      }
    }

    // ----- run -----

    method RunBeforeHooks(ms: seq<Message>) returns (r: Result<seq<Message>, string>)
      modifies this
      ensures (state, r) == BeforeRunChain(env.middlewares, ms, old(state))
      ensures View() == old(View()).(conv := old(Talk()).(state := state))
    {
      var current := ms;
      ghost var target := BeforeRunChain(env.middlewares, ms, state);
      for k := 0 to |env.middlewares|
        invariant BeforeRunChain(env.middlewares[k..], current, state) == target
        invariant View() == old(View()).(conv := old(Talk()).(state := state))
      {
        assert env.middlewares[k..][1..] == env.middlewares[k + 1..];
        var (state', next) := env.middlewares[k].beforeRun(current, state);
        state := state';
        if next.Err? {
          return next;
        }
        current := next.value;
      }
      return Ok(current);
    }

    method ProviderView() returns (r: Result<seq<Message>, string>)
      modifies this
      ensures (state, r) == BeforeStepChain(env.middlewares, messages, old(state))
      ensures View() == old(View()).(conv := old(Talk()).(state := state))
    {
      var current := messages;
      ghost var target := BeforeStepChain(env.middlewares, messages, state);
      for k := 0 to |env.middlewares|
        invariant BeforeStepChain(env.middlewares[k..], current, state) == target
        invariant View() == old(View()).(conv := old(Talk()).(state := state))
      {
        assert env.middlewares[k..][1..] == env.middlewares[k + 1..];
        var (state', next) := env.middlewares[k].beforeProviderStep(current, state);
        state := state';
        if next.Err? {
          return next;
        }
        current := next.value;
      }
      return Ok(current);
    }

    method PatchStep(step0: ProviderStep) returns (r: Result<ProviderStep, string>)
      modifies this
      ensures (nextCallId, r) == PatchStepChain(env.middlewares, step0, old(nextCallId))
      ensures View() == old(View()).(conv := old(Talk()).(nextId := nextCallId))
    {
      var step := step0;
      ghost var target := PatchStepChain(env.middlewares, step0, nextCallId);
      for k := 0 to |env.middlewares|
        invariant PatchStepChain(env.middlewares[k..], step, nextCallId) == target
        invariant View() == old(View()).(conv := old(Talk()).(nextId := nextCallId))
      {
        assert env.middlewares[k..][1..] == env.middlewares[k + 1..];
        var (nextId', next) := env.middlewares[k].patchProviderStep(step, nextCallId);
        nextCallId := nextId';
        if next.Err? {
          return next;
        }
        step := next.value;
      }
      return Ok(step);
    }

    /** Send one request; an error comes with the reason it ends the run. */
    method StepProvider(view: seq<Message>) returns (r: Result<ProviderStep, (RuntimeError, string)>)
      modifies this
      ensures var (st, reply) := env.provider(Request(view, toolResults), old(state));
              && View() == old(View()).(conv := old(Talk()).(state := st))
              && Matches(r, Talk(), ReadReply(Talk(), reply))
    {
      var (state', reply) := env.provider(Request(view, toolResults), state);
      state := state';
      match reply {
        case Replied(step) => r := Ok(step);
        case Failed(message) => r := Err((RuntimeError("provider_error", message), "provider_error"));
        case TimedOut => r := Err((RuntimeError("provider_timeout", "provider timed out"), "provider_timeout"));
      }
    }

    /** The patched provider step, or the error that ends the run. */
    method Ask() returns (r: Result<ProviderStep, (RuntimeError, string)>)
      modifies this
      ensures View() == old(View()).(conv := Talk())
      ensures Matches(r, Talk(), AskProvider(env, old(Talk())))
    {
      ghost var before := Talk();
      var view := ProviderView();
      if view.Err? {
        return Err((MiddlewareError(view.error), BEFORE_STEP_FAILED));
      }
      r := StepProvider(view.value);
      assert Matches(r, Talk(), AskOnce(env, before));
      if r.Err? {
        return;
      }
      if Overflow(r.value) {
        ghost var middle := Talk();
        state := env.setForce(state);
        view := ProviderView();
        state := env.clearForce(state);
        if view.Err? {
          return Err((MiddlewareError(view.error), BEFORE_STEP_FAILED));
        }
        r := StepProvider(view.value);
        assert Matches(r, Talk(), AskForced(env, middle));
        if r.Err? {
          return;
        }
      }
      var patched := PatchStep(r.value);
      r := if patched.Ok? then Ok(patched.value) else Err((MiddlewareError(patched.error), PATCH_STEP_FAILED));
    }

    method PendingReport() returns (out: RunOutput<S>)
      ensures out == PendingOutput(View())
    {
      out := RunOutput(Interrupted, if pending.Some? then [pending.value.interrupt] else [], "",
                       toolCalls, toolResults, state, None, None);
    }

    method ErrorReport(interrupts: seq<HitlInterrupt>, error: RuntimeError, trace: Option<Trace>)
      returns (out: RunOutput<S>)
      ensures out == ErrorOutput(Talk(), interrupts, error, trace)
    {
      out := RunOutput(Error, interrupts, "", toolCalls, toolResults, state, Some(error), trace);
    }

    /** Act on a step; `None` means that the loop goes on. */
    method Perform(step: ProviderStep, k: nat) returns (out: Option<RunOutput<S>>)
      requires pending.None?
      modifies this
      ensures match Act(env, old(View()), step, k)
              case Stop(r, o) => View() == r && out == Some(o)
              case Go(r) => View() == r && out.None?
      ensures out.None? ==> pending.None?
    {
      match step {
        case AssistantMessage(text) =>
          messages := messages + [Plain("assistant", text)];
          out := None;
        case FinalText(text) =>
          out := Some(RunOutput(Completed, [], text, toolCalls, toolResults, state, None,
                                Some(Trace(k, "final_text"))));
        case StepError(code, message) =>
          var o := ErrorReport([], RuntimeError(code, message), Some(Trace(k, "provider_step_error")));
          out := Some(o);
        case SkillCall(name, input, callId) =>
          var (state', expanded) := env.skill(name, input, callId, state);
          state := state';
          match expanded {
            case Err(e) =>
              var o := ErrorReport([], e, Some(Trace(k, "skill_error")));
              out := Some(o);
            case Ok(calls) =>
              out := RunCalls(calls);
          }
        case ToolCalls(calls0) =>
          var calls, nextId := NormalizeProviderToolCalls(env.codec, calls0, nextCallId);
          nextCallId := nextId;
          messages := messages + [Message("assistant", "", None, Some(CallsFromProvider(calls)), None, None, None)];
          out := RunCalls(calls);
      }
    }

    method RunCalls(calls: seq<ProviderToolCall>) returns (out: Option<RunOutput<S>>)
      requires pending.None?
      modifies this
      ensures match RunBatch(env, old(View()), calls)
              case Stop(r, o) => View() == r && out == Some(o)
              case Go(r) => View() == r && out.None?
      ensures out.None? ==> pending.None?
    {
      var interrupt := Execute(calls);
      if interrupt.Some? {
        var o := PendingReport();
        return Some(o);
      }
      return None;
    }

    /** What only the first run does; `None` means that the loop can start. */
    method PrepareHistory() returns (out: Option<RunOutput<S>>)
      requires pending.None?
      modifies this
      ensures match Initialize(env, old(View()))
              case Stop(r, o) => View() == r && out == Some(o)
              case Go(r) => View() == r && out.None?
      ensures pending.None?
    {
      var normalized := NormalizeMessages(env.codec, messages);
      var prepared := RunBeforeHooks(normalized);
      if prepared.Err? {
        messages := [];
        var o := ErrorReport([], MiddlewareError(prepared.error), Some(Trace(0, "middleware_before_run_error")));
        return Some(o);
      }
      messages := prepared.value;
      toolResults := ToolResultsFromMessages(env.codec, messages);
      initialized, opening := true, messages;
      return None;
    }

    method Run() returns (out: RunOutput<S>)
      modifies this
      ensures (View(), out) == RunnerSpec.Run(env, old(View()))
    {
      if pending.Some? {
        out := PendingReport();
        return;
      }
      if !initialized {
        var failed := PrepareHistory();
        if failed.Some? {
          return failed.value;
        }
      }
      ghost var target := RunLoop(env, View(), 0);
      assert RunnerSpec.Run(env, old(View())) == target;
      var k := 0;
      while k < env.maxSteps
        invariant k <= env.maxSteps && pending.None?
        invariant RunLoop(env, View(), k) == target
      {
        var asked := Ask();
        if asked.Err? {
          out := ErrorReport([], asked.error.0, Some(Trace(k, asked.error.1)));
          return;
        }
        var done := Perform(asked.value, k);
        if done.Some? {
          return done.value;
        }
        k := k + 1;
      }
      out := ErrorReport([], RuntimeError("max_steps_exceeded", "runtime exceeded max_steps"),
                         Some(Trace(env.maxSteps, "max_steps_exceeded")));
    }

    // ----- resume -----

    method Resume(interruptId: string, decision: HitlDecision) returns (out: RunOutput<S>)
      modifies this
      ensures (View(), out) == RunnerSpec.Resume(env, old(View()), interruptId, decision)
    {
      if pending.None? {
        out := ErrorReport([], RuntimeError("interrupt_not_found", "no pending interrupt"), None);
        return;
      }
      var p := pending.value;
      if p.interrupt.interruptId != interruptId {
        out := ErrorReport([p.interrupt], RuntimeError("interrupt_not_found", "interrupt_id mismatch"), None);
        return;
      }
      match decision {
        case Approve =>
          pending := None;
          log := log + [Decided(interruptId, decision)];
          ExecutePendingCall(p.call, None, None);
        case Reject(reason) =>
          pending := None;
          log := log + [Decided(interruptId, decision)];
          InjectRejectedToolMessage(p.call, reason);
        case Edit(args) =>
          var complaint := EditComplaint(p.call.toolName, args);
          if complaint.Some? {
            out := ErrorReport([p.interrupt], RuntimeError("invalid_resume", complaint.value), None);
            return;
          }
          pending := None;
          log := log + [Decided(interruptId, decision)];
          ExecutePendingCall(p.call, Some(args), Some(p.interrupt.proposedArgs));
      }
      var stopped := RunCalls(p.remaining);
      if stopped.Some? {
        return stopped.value;
      }
      out := Run();
    }
  }

  /** A method's answer and state agree with what the specification says about asking. */
  ghost predicate Matches<S>(r: Result<ProviderStep, (RuntimeError, string)>, cv: Conv<S>, asked: Asked<S>) {
    && asked.conv == cv
    && (asked.Answer? ==> r == Ok(asked.step))
    && (asked.Abort? ==> r == Err((asked.error, asked.reason)))
  }
}
