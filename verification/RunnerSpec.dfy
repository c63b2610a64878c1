/**
 * What a runtime does with a provider step, as functions on conversation values.
 *
 * `S` stands for the agent state together with everything outside the runner that tools,
 * middlewares and the provider read or change. All of those are deterministic functions of
 * their inputs and of `S`; nothing else is known about them.
 */
module RunnerSpec {
  import opened Wrappers
  import opened Json
  import opened Types
  import opened ToolCompat
  import opened PatchToolCalls

  // ----- the surroundings -----

  datatype ApprovalDecision =
    | Allow
    | Deny(code: string, reason: string)
    | RequireApproval(code: string, reason: string)

  datatype HitlDecision = Approve | Reject(reason: Option<string>) | Edit(args: Value)

  datatype HandledToolCall = HandledToolCall(output: Value, error: Option<string>)

  datatype ToolOutput = ToolOutput(output: Value, blocks: Option<seq<ContentBlock>>)

  datatype Request = Request(messages: seq<Message>, lastToolResults: seq<ToolResultRecord>)

  datatype Reply = Replied(step: ProviderStep) | Failed(message: string) | TimedOut

  datatype RuntimeError = RuntimeError(code: string, message: string)

  /** The four hooks of a runtime middleware. */
  datatype Middleware<!S> = Middleware(
    beforeRun: (seq<Message>, S) -> (S, Result<seq<Message>, string>),
    beforeProviderStep: (seq<Message>, S) -> (S, Result<seq<Message>, string>),
    patchProviderStep: (ProviderStep, nat) -> (nat, Result<ProviderStep, string>),
    handleToolCall: (ProviderToolCall, seq<Message>, S) -> (seq<Message>, S, Result<Option<HandledToolCall>, string>))

  datatype Env<!S> = Env(
    codec: Codec,
    middlewares: seq<Middleware<S>>,
    provider: (Request, S) -> (S, Reply),
    skill: (string, Value, Option<string>, S) -> (S, Result<seq<ProviderToolCall>, RuntimeError>),
    tool: (string, Value, S) -> (S, Result<ToolOutput, string>),
    offload: (string, string, Value, S) -> (S, Value, string),
    approval: Option<(string, S) -> ApprovalDecision>,
    mode: string,
    interruptOn: map<string, bool>,
    setForce: S -> S,
    clearForce: S -> S,
    maxSteps: nat)

  // ----- conversations -----

  /** What happened, in order. `serial` is the row of the call ledger the event belongs to. */
  datatype Event<S> =
    | Offered(serial: int, callId: string, tool: string, args: Value, history: seq<Message>, state: S)
    | Dispatched(serial: int, callId: string, tool: string, args: Value, state: S)
    | Paused(callId: string)
    | Decided(callId: string, decision: HitlDecision)

  datatype Conv<S> = Conv(
    messages: seq<Message>,
    calls: seq<ToolCallRecord>,
    results: seq<ToolResultRecord>,
    nextId: nat,
    state: S,
    log: seq<Event<S>>)

  datatype HitlInterrupt = HitlInterrupt(interruptId: string, toolName: string, toolCallId: string, proposedArgs: Value)

  datatype PendingInterrupt = PendingInterrupt(
    interrupt: HitlInterrupt,
    call: ProviderToolCall,
    remaining: seq<ProviderToolCall>)

  function InterruptFor(call: ProviderToolCall): HitlInterrupt {
    var id := call.callId.GetOr("");
    HitlInterrupt(id, call.toolName, id, call.arguments)
  }

  // ----- outcomes -----

  /** Append one result record and the tool message that reports it. */
  function Post<S>(codec: Codec, cv: Conv<S>, id: string, tool: string, output: Value, error: Option<string>,
                   status: string, envelope: Value, blocks: Option<seq<ContentBlock>>): Conv<S>
  {
    cv.(results := cv.results + [ToolResultRecord(tool, Some(id), output, error, Some(status))],
        messages := cv.messages + [Message("tool", codec.render(envelope), blocks, None, Some(id), Some(tool),
                                           Some(status))])
  }

  function ErrorEnvelope(id: string, tool: string, err: string): Value {
    Obj([Field("content", Str(err)), Field("error", Str(err)), Field("status", Str("error")),
         Field("tool_call_id", Str(id)), Field("tool_name", Str(tool))])
  }

  function HandledEnvelope(id: string, tool: string, status: string, content: string, output: Value,
                           error: Option<string>): Value
  {
    Obj([Field("content", Str(content)),
         Field("error", if error.Some? then Str(error.value) else Null),
         Field("output", if error.Some? then Null else output),
         Field("status", Str(status)), Field("tool_call_id", Str(id)), Field("tool_name", Str(tool))])
  }

  function SuccessEnvelope(id: string, tool: string, content: string, output: Value): Value {
    Obj([Field("content", Str(content)), Field("output", output), Field("status", Str("success")),
         Field("tool_call_id", Str(id)), Field("tool_name", Str(tool))])
  }

  function EditedEnvelope(id: string, tool: string, content: string, output: Value,
                          original: Option<Value>, args: Value): Value
  {
    Obj([Field("content", Str(content)), Field("edited", Bool(true)), Field("effective_args", args)]
        + (if original.Some? then [Field("original_args", original.value)] else [])
        + [Field("output", output), Field("status", Str("edited")),
           Field("tool_call_id", Str(id)), Field("tool_name", Str(tool))])
  }

  function RejectedEnvelope(id: string, tool: string, err: string): Value {
    Obj([Field("content", Str(err)), Field("error", Str(err)), Field("output", Null), Field("status", Str("rejected")),
         Field("tool_call_id", Str(id)), Field("tool_name", Str(tool))])
  }

  function PostError<S>(codec: Codec, cv: Conv<S>, id: string, tool: string, err: string): Conv<S> {
    Post(codec, cv, id, tool, Null, Some(err), "error", ErrorEnvelope(id, tool, err), None)
  }

  function PostHandled<S>(env: Env<S>, cv: Conv<S>, id: string, tool: string, h: HandledToolCall): Conv<S> {
    if h.error.Some? then
      Post(env.codec, cv, id, tool, h.output, h.error, "error",
           HandledEnvelope(id, tool, "error", h.error.value, h.output, h.error), None)
    else
      var (state, output, content) := env.offload(tool, id, h.output, cv.state);
      Post(env.codec, cv.(state := state), id, tool, output, None, "success",
           HandledEnvelope(id, tool, "success", content, output, None), None)
  }

  function PostSuccess<S>(env: Env<S>, cv: Conv<S>, id: string, tool: string, out: ToolOutput): Conv<S> {
    var (state, output, content) := env.offload(tool, id, out.output, cv.state);
    Post(env.codec, cv.(state := state), id, tool, output, None, "success",
         SuccessEnvelope(id, tool, content, output), out.blocks)
  }

  function PostEdited<S>(env: Env<S>, cv: Conv<S>, id: string, tool: string, out: ToolOutput,
                         original: Option<Value>, args: Value): Conv<S>
  {
    var (state, output, content) := env.offload(tool, id, out.output, cv.state);
    Post(env.codec, cv.(state := state), id, tool, output, None, "edited",
         EditedEnvelope(id, tool, content, output, original, args), out.blocks)
  }

  function PostRejected<S>(codec: Codec, cv: Conv<S>, call: ProviderToolCall, reason: Option<string>): Conv<S> {
    var id, tool := call.callId.GetOr(""), call.toolName;
    var err := "tool_call_rejected: " + reason.GetOr("rejected");
    Post(codec, cv, id, tool, Null, Some(err), "rejected", RejectedEnvelope(id, tool, err), None)
  }

  // ----- one call -----

  const TODOS_IN_PARALLEL :=
    "Error: The `write_todos` tool should never be called multiple times in parallel. "
    + "Please call it only once per model invocation to update the todo list."

  function NotAllowed(code: string, reason: string): string {
    "command_not_allowed: " + code + ": " + reason
  }

  function CommandOf(args: Value): string {
    AsStr(Get(args, "command")).GetOr("")
  }

  /** What the approval policy says about a call; only `execute` is asked about. */
  function Verdict<S>(env: Env<S>, tool: string, args: Value, state: S): ApprovalDecision {
    if tool == "execute" && env.approval.Some? then env.approval.value(CommandOf(args), state) else Allow
  }

  predicate Interrupts<S>(env: Env<S>, tool: string) {
    tool in env.interruptOn && env.interruptOn[tool]
  }

  /** The middlewares in order, up to the first that takes the call or fails. */
  function HandleChain<S>(mws: seq<Middleware<S>>, call: ProviderToolCall, messages: seq<Message>, state: S):
    (seq<Message>, S, Option<HandledToolCall>)
  {
    if mws == [] then (messages, state, None)
    else
      var (messages', state', answer) := mws[0].handleToolCall(call, messages, state);
      match answer
      case Ok(Some(h)) => (messages', state', Some(h))
      case Ok(None) => HandleChain(mws[1..], call, messages', state')
      case Err(e) => (messages', state', Some(HandledToolCall(Null, Some("middleware_error: " + e))))
  }

  /** Run the tool itself. `edited` carries the original arguments when a reviewer replaced them. */
  function Dispatch<S>(env: Env<S>, cv: Conv<S>, call: ProviderToolCall, args: Value, edited: Option<Option<Value>>):
    Conv<S>
  {
    var id, tool := call.callId.GetOr(""), call.toolName;
    var (state, result) := env.tool(tool, args, cv.state);
    var cv1 := cv.(state := state, log := cv.log + [Dispatched(|cv.calls| - 1, id, tool, args, cv.state)]);
    match result
    case Err(e) => PostError(env.codec, cv1, id, tool, e)
    case Ok(out) =>
      if edited.Some? then PostEdited(env, cv1, id, tool, out, edited.value, args)
      else PostSuccess(env, cv1, id, tool, out)
  }

  datatype CallResult<S> = Done(conv: Conv<S>) | Held(conv: Conv<S>, call: ProviderToolCall)

  /** Offer a call to the middlewares; if there are any the offer is logged. */
  function OfferAll<S>(env: Env<S>, cv: Conv<S>, call: ProviderToolCall): (Conv<S>, Option<HandledToolCall>) {
    var (messages, state, handled) := HandleChain(env.middlewares, call, cv.messages, cv.state);
    var offered := if env.middlewares == [] then []
      else [Offered(|cv.calls| - 1, call.callId.GetOr(""), call.toolName, call.arguments, cv.messages, cv.state)];
    (cv.(messages := messages, state := state, log := cv.log + offered), handled)
  }

  /** The second half of a call: middlewares first, then the policy again, then the tool. */
  function OfferThenDispatch<S>(env: Env<S>, cv: Conv<S>, call: ProviderToolCall): CallResult<S> {
    var id, tool := call.callId.GetOr(""), call.toolName;
    var (cv1, handled) := OfferAll(env, cv, call);
    if handled.Some? then Done(PostHandled(env, cv1, id, tool, handled.value))
    else
      match Verdict(env, tool, call.arguments, cv1.state)
      case Deny(code, reason) => Done(PostError(env.codec, cv1, id, tool, NotAllowed(code, reason)))
      case RequireApproval(_, _) => Held(cv1, call)
      case Allow => Done(Dispatch(env, cv1, call, call.arguments, None))
  }

  /** Enter a call in the ledger: it has a name and an id from here on. */
  function Enter<S>(cv: Conv<S>, p: Prepared): Conv<S> {
    cv.(nextId := p.nextId,
        calls := cv.calls + [ToolCallRecord(p.call.toolName, p.call.arguments, Some(p.call.callId.GetOr("")))])
  }

  function ExecOne<S>(env: Env<S>, guard: bool, call0: ProviderToolCall, cv: Conv<S>): CallResult<S> {
    var p := PrepareCall(env.codec, call0, cv.nextId);
    var id, tool := p.call.callId.GetOr(""), p.call.toolName;
    var cv1 := Enter(cv, p);
    if p.error.Some? then Done(PostError(env.codec, cv1, id, tool, ArgumentsErrorText(p.error.value)))
    else if guard && tool == "write_todos" then Done(PostError(env.codec, cv1, id, tool, TODOS_IN_PARALLEL))
    else
      match Verdict(env, tool, p.call.arguments, cv1.state)
      case Deny(code, reason) => Done(PostError(env.codec, cv1, id, tool, NotAllowed(code, reason)))
      case RequireApproval(_, _) => Held(cv1, p.call)
      case Allow =>
        if Interrupts(env, tool) then Held(cv1, p.call) else OfferThenDispatch(env, cv1, p.call)
  }

  // ----- a batch -----

  function TodoCount(calls: seq<ProviderToolCall>): nat {
    if calls == [] then 0 else (if calls[0].toolName == "write_todos" then 1 else 0) + TodoCount(calls[1..])
  }

  /** Drain a queue of calls until it is empty or a call is held for review. */
  function ExecQueue<S>(env: Env<S>, guard: bool, queue: seq<ProviderToolCall>, cv: Conv<S>):
    (r: (Conv<S>, Option<PendingInterrupt>))
    ensures r.1.Some? ==> |r.1.value.remaining| < |queue|
  {
    if queue == [] then (cv, None)
    else
      match ExecOne(env, guard, queue[0], cv)
      case Done(cv1) => ExecQueue(env, guard, queue[1..], cv1)
      case Held(cv1, call) =>
        (cv1.(log := cv1.log + [Paused(call.callId.GetOr(""))]),
         Some(PendingInterrupt(InterruptFor(call), call, queue[1..])))
  }

  function ExecuteCalls<S>(env: Env<S>, calls: seq<ProviderToolCall>, cv: Conv<S>):
    (r: (Conv<S>, Option<PendingInterrupt>))
    ensures r.1.Some? ==> |r.1.value.remaining| < |calls|
  {
    ExecQueue(env, TodoCount(calls) > 1, calls, cv)
  }

  /** Run a reviewed call: the middlewares are skipped, the policy is asked about the final arguments. */
  function ExecutePending<S>(env: Env<S>, cv: Conv<S>, call: ProviderToolCall, edited: Option<Value>,
                             original: Option<Value>): Conv<S>
  {
    var id, tool := call.callId.GetOr(""), call.toolName;
    var args := edited.GetOr(call.arguments);
    match Verdict(env, tool, args, cv.state)
    case Deny(code, reason) => PostError(env.codec, cv, id, tool, NotAllowed(code, reason))
    case RequireApproval(code, reason) => PostError(env.codec, cv, id, tool, NotAllowed(code, reason))
    case Allow => Dispatch(env, cv, call, args, if edited.Some? then Some(original) else None)
  }

  function MissingField(args: Value, keys: seq<string>): Option<string> {
    if keys == [] then None
    else if AsStr(Get(args, keys[0])).None? then Some(keys[0])
    else MissingField(args, keys[1..])
  }

  function RequiredFields(tool: string): seq<string> {
    if tool == "write_file" then ["file_path", "content"]
    else if tool == "edit_file" then ["file_path", "old_string", "new_string"]
    else if tool == "delete_file" || tool == "read_file" then ["file_path"]
    else if tool == "execute" then ["command"]
    else []
  }

  /** The complaint about edited arguments, if there is one. */
  function EditComplaint(tool: string, args: Value): Option<string> {
    if !args.Obj? then Some("args must be a JSON object")
    else
      var missing := MissingField(args, RequiredFields(tool));
      if missing.Some? then Some("missing required field: " + missing.value) else None
  }

  // ----- middleware chains around the provider -----

  function BeforeRunChain<S>(mws: seq<Middleware<S>>, messages: seq<Message>, state: S):
    (S, Result<seq<Message>, string>)
  {
    if mws == [] then (state, Ok(messages))
    else
      var (state', r) := mws[0].beforeRun(messages, state);
      if r.Ok? then BeforeRunChain(mws[1..], r.value, state') else (state', r)
  }

  function BeforeStepChain<S>(mws: seq<Middleware<S>>, messages: seq<Message>, state: S):
    (S, Result<seq<Message>, string>)
  {
    if mws == [] then (state, Ok(messages))
    else
      var (state', r) := mws[0].beforeProviderStep(messages, state);
      if r.Ok? then BeforeStepChain(mws[1..], r.value, state') else (state', r)
  }

  function PatchStepChain<S>(mws: seq<Middleware<S>>, step: ProviderStep, nextId: nat):
    (nat, Result<ProviderStep, string>)
  {
    if mws == [] then (nextId, Ok(step))
    else
      var (nextId', r) := mws[0].patchProviderStep(step, nextId);
      if r.Ok? then PatchStepChain(mws[1..], r.value, nextId') else (nextId', r)
  }

  // ----- outputs -----

  datatype RunStatus = Completed | Interrupted | Error

  datatype Trace = Trace(terminatedAtStep: nat, reason: string)

  datatype RunOutput<S> = RunOutput(
    status: RunStatus,
    interrupts: seq<HitlInterrupt>,
    finalText: string,
    toolCalls: seq<ToolCallRecord>,
    toolResults: seq<ToolResultRecord>,
    state: S,
    error: Option<RuntimeError>,
    trace: Option<Trace>)

  function ErrorOutput<S>(cv: Conv<S>, interrupts: seq<HitlInterrupt>, error: RuntimeError, trace: Option<Trace>):
    RunOutput<S>
  {
    RunOutput(Error, interrupts, "", cv.calls, cv.results, cv.state, Some(error), trace)
  }

  function CompletedOutput<S>(cv: Conv<S>, text: string, step: nat): RunOutput<S> {
    RunOutput(Completed, [], text, cv.calls, cv.results, cv.state, None, Some(Trace(step, "final_text")))
  }

  function MaxStepsOutput<S>(env: Env<S>, cv: Conv<S>): RunOutput<S> {
    ErrorOutput(cv, [], RuntimeError("max_steps_exceeded", "runtime exceeded max_steps"),
                Some(Trace(env.maxSteps, "max_steps_exceeded")))
  }

  // ----- asking the provider -----

  datatype Asked<S> =
    | Answer(conv: Conv<S>, step: ProviderStep)
    | Abort(conv: Conv<S>, error: RuntimeError, reason: string)

  function ReadReply<S>(cv: Conv<S>, reply: Reply): Asked<S> {
    match reply
    case Replied(step) => Answer(cv, step)
    case Failed(message) => Abort(cv, RuntimeError("provider_error", message), "provider_error")
    case TimedOut => Abort(cv, RuntimeError("provider_timeout", "provider timed out"), "provider_timeout")
  }

  function MiddlewareError(e: string): RuntimeError {
    RuntimeError("middleware_error", e)
  }

  const BEFORE_STEP_FAILED := "middleware_before_provider_step_error"
  const PATCH_STEP_FAILED := "middleware_patch_provider_step_error"

  /** One request to the provider with the middlewares' view of the history. */
  function AskOnce<S>(env: Env<S>, cv: Conv<S>): Asked<S> {
    var (s1, view) := BeforeStepChain(env.middlewares, cv.messages, cv.state);
    match view
    case Err(e) => Abort(cv.(state := s1), MiddlewareError(e), BEFORE_STEP_FAILED)
    case Ok(messages) =>
      var (s2, reply) := env.provider(Request(messages, cv.results), s1);
      ReadReply(cv.(state := s2), reply)
  }

  /** After a context overflow: build the view again with summarization forced, and ask again. */
  function AskForced<S>(env: Env<S>, cv: Conv<S>): Asked<S> {
    var (s1, view) := BeforeStepChain(env.middlewares, cv.messages, env.setForce(cv.state));
    match view
    case Err(e) => Abort(cv.(state := env.clearForce(s1)), MiddlewareError(e), BEFORE_STEP_FAILED)
    case Ok(messages) =>
      var (s2, reply) := env.provider(Request(messages, cv.results), env.clearForce(s1));
      ReadReply(cv.(state := s2), reply)
  }

  predicate Overflow(step: ProviderStep) {
    step.StepError? && step.code == "context_overflow"
  }

  function PatchAnswer<S>(env: Env<S>, asked: Asked<S>): Asked<S> {
    if asked.Abort? then asked
    else
      var (nextId, r) := PatchStepChain(env.middlewares, asked.step, asked.conv.nextId);
      var cv := asked.conv.(nextId := nextId);
      match r
      case Err(e) => Abort(cv, MiddlewareError(e), PATCH_STEP_FAILED)
      case Ok(step) => Answer(cv, step)
  }

  function AskProvider<S>(env: Env<S>, cv: Conv<S>): Asked<S> {
    var first := AskOnce(env, cv);
    PatchAnswer(env, if first.Answer? && Overflow(first.step) then AskForced(env, first.conv) else first)
  }

  /** The assistant message that announces a batch of calls. */
  function Announce(calls: seq<ProviderToolCall>): Message {
    Message("assistant", "", None, Some(CallsFromProvider(calls)), None, None, None)
  }

  // ----- the resumable runner -----

  /** The whole runner. `opening` is the history that the first run prepared and started from. */
  datatype Runner<S> = Runner(conv: Conv<S>, initialized: bool, pending: Option<PendingInterrupt>,
                              opening: seq<Message>)

  function Fresh<S>(messages: seq<Message>, state: S): Runner<S> {
    Runner(Conv(messages, [], [], 1, state, []), false, None, [])
  }

  function PendingOutput<S>(r: Runner<S>): RunOutput<S> {
    RunOutput(Interrupted, if r.pending.Some? then [r.pending.value.interrupt] else [], "",
              r.conv.calls, r.conv.results, r.conv.state, None, None)
  }

  datatype Outcome<S> = Stop(runner: Runner<S>, output: RunOutput<S>) | Go(runner: Runner<S>)

  /** Execute a batch and stop if a call of it is held. */
  function RunBatch<S>(env: Env<S>, r: Runner<S>, calls: seq<ProviderToolCall>): Outcome<S> {
    var (cv, pending) := ExecuteCalls(env, calls, r.conv);
    if pending.Some? then
      var r1 := r.(conv := cv, pending := pending);
      Stop(r1, PendingOutput(r1))
    else Go(r.(conv := cv))
  }

  /** Act on a provider step. */
  function Act<S>(env: Env<S>, r: Runner<S>, step: ProviderStep, k: nat): Outcome<S> {
    var cv := r.conv;
    match step
    case AssistantMessage(text) => Go(r.(conv := cv.(messages := cv.messages + [Plain("assistant", text)])))
    case FinalText(text) => Stop(r, CompletedOutput(cv, text, k))
    case StepError(code, message) =>
      Stop(r, ErrorOutput(cv, [], RuntimeError(code, message), Some(Trace(k, "provider_step_error"))))
    case SkillCall(name, input, callId) =>
      var (state, expanded) := env.skill(name, input, callId, cv.state);
      var r1 := r.(conv := cv.(state := state));
      (match expanded
       case Err(e) => Stop(r1, ErrorOutput(r1.conv, [], e, Some(Trace(k, "skill_error"))))
       case Ok(calls) => RunBatch(env, r1, calls))
    case ToolCalls(calls0) =>
      var (calls, nextId) := NormalizedCalls(env.codec, calls0, cv.nextId);
      RunBatch(env, r.(conv := cv.(nextId := nextId, messages := cv.messages + [Announce(calls)])), calls)
  }

  function Turn<S>(env: Env<S>, r: Runner<S>, k: nat): Outcome<S> {
    match AskProvider(env, r.conv)
    case Abort(cv, error, reason) => Stop(r.(conv := cv), ErrorOutput(cv, [], error, Some(Trace(k, reason))))
    case Answer(cv, step) => Act(env, r.(conv := cv), step, k)
  }

  function RunLoop<S>(env: Env<S>, r: Runner<S>, k: nat): (Runner<S>, RunOutput<S>)
    decreases env.maxSteps - k
  {
    if k >= env.maxSteps then (r, MaxStepsOutput(env, r.conv))
    else
      match Turn(env, r, k)
      case Stop(r1, out) => (r1, out)
      case Go(r1) => RunLoop(env, r1, k + 1)
  }

  /** First run only: normalise the history, let the middlewares rewrite it, index its results. */
  function Initialize<S>(env: Env<S>, r: Runner<S>): Outcome<S> {
    var (state, prepared) := BeforeRunChain(env.middlewares, Normalized(env.codec, r.conv.messages), r.conv.state);
    match prepared
    case Err(e) =>
      var cv := r.conv.(messages := [], state := state);
      Stop(r.(conv := cv), ErrorOutput(cv, [], MiddlewareError(e), Some(Trace(0, "middleware_before_run_error"))))
    case Ok(messages) =>
      Go(r.(conv := r.conv.(messages := messages, state := state, results := ResultsOf(env.codec, messages)),
            initialized := true, opening := messages))
  }

  function Run<S>(env: Env<S>, r: Runner<S>): (Runner<S>, RunOutput<S>) {
    if r.pending.Some? then (r, PendingOutput(r))
    else if r.initialized then RunLoop(env, r, 0)
    else
      match Initialize(env, r)
      case Stop(r1, out) => (r1, out)
      case Go(r1) => RunLoop(env, r1, 0)
  }

  /** The decision of a reviewer on the held call, once its id has been matched. */
  function Settle<S>(env: Env<S>, cv0: Conv<S>, p: PendingInterrupt, decision: HitlDecision): Conv<S> {
    var cv := cv0.(log := cv0.log + [Decided(p.interrupt.interruptId, decision)]);
    match decision
    case Approve => ExecutePending(env, cv, p.call, None, None)
    case Reject(reason) => PostRejected(env.codec, cv, p.call, reason)
    case Edit(args) => ExecutePending(env, cv, p.call, Some(args), Some(p.interrupt.proposedArgs))
  }

  function Resume<S>(env: Env<S>, r: Runner<S>, interruptId: string, decision: HitlDecision):
    (Runner<S>, RunOutput<S>)
  {
    if r.pending.None? then
      (r, ErrorOutput(r.conv, [], RuntimeError("interrupt_not_found", "no pending interrupt"), None))
    else
      var p := r.pending.value;
      if p.interrupt.interruptId != interruptId then
        (r, ErrorOutput(r.conv, [p.interrupt], RuntimeError("interrupt_not_found", "interrupt_id mismatch"), None))
      else
        var complaint := if decision.Edit? then EditComplaint(p.call.toolName, decision.args) else None;
        if complaint.Some? then
          (r, ErrorOutput(r.conv, [p.interrupt], RuntimeError("invalid_resume", complaint.value), None))
        else
          var r1 := r.(conv := Settle(env, r.conv, p, decision), pending := None);
          match RunBatch(env, r1, p.remaining)
          case Stop(r2, out) => (r2, out)
          case Go(r2) => Run(env, r2)
  }

  function PushUserInput<S>(r: Runner<S>, input: string): Runner<S> {
    r.(conv := r.conv.(messages := r.conv.messages + [Plain("user", input)]))
  }

  // ----- every run -----

  datatype Input = RunInput | ResumeInput(interruptId: string, decision: HitlDecision) | UserInput(text: string)

  function React<S>(env: Env<S>, r: Runner<S>, input: Input): Runner<S> {
    match input
    case RunInput => Run(env, r).0
    case ResumeInput(id, decision) => Resume(env, r, id, decision).0
    case UserInput(text) => PushUserInput(r, text)
  }

  /** The runner after a sequence of calls from its owner. */
  function Drive<S>(env: Env<S>, r: Runner<S>, inputs: seq<Input>): Runner<S>
    decreases inputs
  {
    if inputs == [] then r else Drive(env, React(env, r, inputs[0]), inputs[1..])
  }
}
