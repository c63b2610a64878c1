/** What every tool result says, and where it comes from, over every run of the resumable runner. */
module ToolReports {
  import opened Wrappers
  import opened Json
  import opened Types
  import opened ToolCompat
  import opened PatchToolCalls
  import opened RunnerSpec
  import opened RunnerInvariants
  import opened RunnerTheorems

  // ----- rows -----

  /** Where a result comes from; events are given by their index in the log. */
  datatype Cause<S> =
    | Ran(event: nat)
    | Handled(event: nat)
    | BadArguments
    | InParallel
    | Forbidden(args: Value, state: S, review: nat)
    | Rejected(review: nat)

  /** A result record, the message that reports it, and the JSON value which that message prints. */
  datatype Row<S> = Row(cause: Cause<S>, result: ToolResultRecord, message: Message, body: Value)

  function Records<S>(rows: seq<Row<S>>): seq<ToolResultRecord> {
    seq(|rows|, i requires 0 <= i < |rows| => rows[i].result)
  }

  function Reports<S>(rows: seq<Row<S>>): seq<Message> {
    seq(|rows|, i requires 0 <= i < |rows| => rows[i].message)
  }

  /** The tool messages of a history, in order. */
  function ToolMessages(messages: seq<Message>): seq<Message> {
    if messages == [] then []
    else
      var last := messages[|messages| - 1];
      ToolMessages(messages[..|messages| - 1]) + if last.role == "tool" then [last] else []
  }

  /** What a printed body says; an error is told twice, and an output only where there is no error. */
  predicate Tells(body: Value, id: string, tool: string, content: string, output: Value, error: Option<string>,
                  status: string)
  {
    && Get(body, "content") == Some(Str(content)) && Get(body, "status") == Some(Str(status))
    && Get(body, "tool_call_id") == Some(Str(id)) && Get(body, "tool_name") == Some(Str(tool))
    && (error.Some? ==> Get(body, "error") == Some(Str(error.value)))
    && (error.None? ==> Get(body, "output") == Some(output) && Get(body, "error").GetOr(Null) == Null)
  }

  /** Record, message and body agree on one outcome. */
  predicate Carries<S>(codec: Codec, row: Row<S>, id: string, tool: string, content: string, output: Value,
                       error: Option<string>, status: string, blocks: Option<seq<ContentBlock>>)
  {
    && row.result == ToolResultRecord(tool, Some(id), output, error, Some(status))
    && row.message == Message("tool", codec.render(row.body), blocks, None, Some(id), Some(tool), Some(status))
    && Tells(row.body, id, tool, content, output, error, status)
  }

  predicate CarriesError<S>(codec: Codec, row: Row<S>, call: ToolCallRecord, err: string, status: string) {
    Carries(codec, row, call.callId.GetOr(""), call.toolName, err, Null, Some(err), status, None)
  }

  // ----- what entitles a row to say what it says -----

  /** Entry `k` of the log is a decision on this call. */
  ghost predicate DecidedAt<S>(log: seq<Event<S>>, k: nat, id: string) {
    k < |log| && log[k].Decided? && log[k].callId == id
  }

  /** The tool was run on these arguments: the row carries its answer, and says whether a reviewer gave them. */
  ghost predicate ToolSays<S>(env: Env<S>, log: seq<Event<S>>, k: nat, call: ToolCallRecord, row: Row<S>)
    requires k < |log| && log[k].Dispatched?
  {
    var e := log[k];
    var (state, answer) := env.tool(e.tool, e.args, e.state);
    match answer
    case Err(x) => CarriesError(env.codec, row, call, x, "error")
    case Ok(out) =>
      var (_, output, content) := env.offload(e.tool, e.callId, out.output, state);
      if row.result.status == Some("edited") then
        && Carries(env.codec, row, e.callId, e.tool, content, output, None, "edited", out.blocks)
        && Get(row.body, "edited") == Some(Bool(true)) && Get(row.body, "effective_args") == Some(e.args)
        && Get(row.body, "original_args") == Some(call.arguments)
        && k > 0 && log[k - 1] == Decided(e.callId, Edit(e.args))
      else
        && Carries(env.codec, row, e.callId, e.tool, content, output, None, "success", out.blocks)
        && e.args == call.arguments
  }

  /** A middleware took the call: the row carries what it answered. */
  ghost predicate HandlerSays<S>(env: Env<S>, e: Event<S>, row: Row<S>)
    requires e.Offered?
  {
    var (_, state, answer) :=
      HandleChain(env.middlewares, ProviderToolCall(e.tool, e.args, Some(e.callId)), e.history, e.state);
    && answer.Some?
    && var h := answer.value;
       if h.error.Some? then
         Carries(env.codec, row, e.callId, e.tool, h.error.value, h.output, h.error, "error", None)
       else
         var (_, output, content) := env.offload(e.tool, e.callId, h.output, state);
         Carries(env.codec, row, e.callId, e.tool, content, output, None, "success", None)
  }

  /** What is wrong with the arguments of a call. */
  function ArgumentsComplaint(codec: Codec, args: Value): Option<string> {
    match args
    case Obj(_) => None
    case Null => None
    case Str(text) =>
      (match codec.parse(text)
       case None => Some("invalid_tool_call: arguments must be JSON object string")
       case Some(Obj(_)) => None
       case Some(_) => Some("invalid_tool_call: arguments must be JSON object"))
    case _ => Some("invalid_tool_call: arguments must be object")
  }

  /**
   * The policy forbids running the call on these arguments in this state. Where it
   * only asks for a review, or the arguments are not those of the call, there was one.
   */
  ghost predicate PolicyForbids<S>(env: Env<S>, log: seq<Event<S>>, call: ToolCallRecord, args: Value, state: S,
                                   review: nat)
  {
    && call.toolName == "execute" && env.approval.Some?
    && var verdict := env.approval.value(CommandText(args), state);
       var id := call.callId.GetOr("");
       && !verdict.Allow?
       && (verdict.RequireApproval? ==> DecidedAt(log, review, id))
       && (args != call.arguments ==> DecidedAt(log, review, id) && log[review].decision == Edit(args))
  }

  ghost predicate Explains<S>(env: Env<S>, log: seq<Event<S>>, call: ToolCallRecord, i: nat, row: Row<S>) {
    && call.callId.Some?
    && match row.cause
       case Ran(k) =>
         && k < |log| && log[k].Dispatched? && log[k].serial == i
         && Some(log[k].callId) == call.callId && log[k].tool == call.toolName
         && ToolSays(env, log, k, call, row)
       case Handled(k) =>
         && k < |log| && log[k].Offered? && log[k].serial == i
         && call == ToolCallRecord(log[k].tool, log[k].args, Some(log[k].callId))
         && HandlerSays(env, log[k], row)
       case BadArguments =>
         var err := ArgumentsComplaint(env.codec, call.arguments);
         err.Some? && CarriesError(env.codec, row, call, err.value, "error")
       case InParallel =>
         call.toolName == "write_todos" && CarriesError(env.codec, row, call, TODOS_IN_PARALLEL, "error")
       case Forbidden(args, state, review) =>
         && PolicyForbids(env, log, call, args, state, review)
         && var verdict := env.approval.value(CommandText(args), state);
            CarriesError(env.codec, row, call, "command_not_allowed: " + verdict.code + ": " + verdict.reason, "error")
       case Rejected(k) =>
         && DecidedAt(log, k, call.callId.value) && log[k].decision.Reject?
         && var reason := log[k].decision.reason;
            CarriesError(env.codec, row, call,
                         "tool_call_rejected: " + if reason.Some? then reason.value else "rejected", "rejected")
  }

  /** A dispatch, and an offer that a middleware takes, have the row of their serial for themselves. */
  ghost predicate HasItsRow<S>(env: Env<S>, log: seq<Event<S>>, rows: seq<Row<S>>, k: nat)
    requires k < |log|
  {
    match log[k]
    case Dispatched(serial, _, _, _, _) => 0 <= serial < |rows| && rows[serial].cause == Ran(k)
    case Offered(serial, id, tool, args, history, state) =>
      HandleChain(env.middlewares, ProviderToolCall(tool, args, Some(id)), history, state).2.Some?
      ==> 0 <= serial < |rows| && rows[serial].cause == Handled(k)
    case _ => true
  }

  /**
   * The results after the opening are these rows, one for each call but one that is held, and so are the tool
   * messages. Every row is explained, and every run or handled call has its row.
   */
  ghost predicate Told<S(!new)>(env: Env<S>, opening: seq<Message>, cv: Conv<S>, rows: seq<Row<S>>, held: bool) {
    && cv.results == ResultsOf(env.codec, opening) + Records(rows)
    && |cv.calls| == |rows| + (if held then 1 else 0)
    && (KeepsMessages(env) ==> opening <= cv.messages && ToolMessages(cv.messages[|opening|..]) == Reports(rows))
    && (forall i: nat :: i < |rows| ==> Explains(env, cv.log, cv.calls[i], i, rows[i]))
    && (forall k: nat :: k < |cv.log| ==> HasItsRow(env, cv.log, rows, k))
  }

  // ----- growing -----

  lemma ExplainsLater<S>(env: Env<S>, log: seq<Event<S>>, more: seq<Event<S>>, call: ToolCallRecord, i: nat,
                         row: Row<S>)
    requires Explains(env, log, call, i, row) && log <= more
    ensures Explains(env, more, call, i, row)
  {
    match row.cause {
      case Ran(k) => assert more[k] == log[k] && (k > 0 ==> more[k - 1] == log[k - 1]);
      case Handled(k) => assert more[k] == log[k];
      case Rejected(k) => assert more[k] == log[k];
      case Forbidden(args, state, review) => assert review < |log| ==> more[review] == log[review];
      case _ =>
    }
  }

  lemma MessageAdded(opening: seq<Message>, messages: seq<Message>, m: Message)
    requires opening <= messages
    ensures opening <= messages + [m]
    ensures ToolMessages((messages + [m])[|opening|..])
         == ToolMessages(messages[|opening|..]) + if m.role == "tool" then [m] else []
  {
    var rest := messages[|opening|..];
    assert (messages + [m])[|opening|..] == rest + [m];
    assert (rest + [m])[..|rest|] == rest;
  }

  /** One more row, for the call that had none, and whatever was logged on the way to it. */
  lemma RowAdded<S(!new)>(env: Env<S>, opening: seq<Message>, cv: Conv<S>, rows: seq<Row<S>>, row: Row<S>,
                          cv1: Conv<S>)
    requires Told(env, opening, cv, rows, true)
    requires cv.log <= cv1.log && cv1.calls == cv.calls && cv1.results == cv.results + [row.result]
    requires KeepsMessages(env) ==> cv1.messages == cv.messages + [row.message]
    requires row.message.role == "tool"
    requires Explains(env, cv1.log, cv.calls[|rows|], |rows|, row)
    requires forall k: nat :: |cv.log| <= k < |cv1.log| ==> HasItsRow(env, cv1.log, rows + [row], k)
    ensures Told(env, opening, cv1, rows + [row], false)
  {
    var rows1 := rows + [row];
    assert Records(rows1) == Records(rows) + [row.result];
    assert Reports(rows1) == Reports(rows) + [row.message];
    if KeepsMessages(env) {
      MessageAdded(opening, cv.messages, row.message);
    }
    forall i: nat | i < |rows1| ensures Explains(env, cv1.log, cv1.calls[i], i, rows1[i]) {
      if i < |rows| {
        ExplainsLater(env, cv.log, cv1.log, cv.calls[i], i, rows[i]);
      }
    }
    forall k: nat | k < |cv1.log| ensures HasItsRow(env, cv1.log, rows1, k) {
      if k < |cv.log| {
        assert HasItsRow(env, cv.log, rows, k) && cv1.log[k] == cv.log[k];
      }
    }
  }

  /** No row more: events that need none, another state, a message that reports nothing, a call that has none yet. */
  lemma NoRowAdded<S(!new)>(env: Env<S>, opening: seq<Message>, cv: Conv<S>, rows: seq<Row<S>>, held: bool,
                            cv1: Conv<S>, held1: bool)
    requires Told(env, opening, cv, rows, held)
    requires cv.log <= cv1.log && cv.calls <= cv1.calls && |cv1.calls| == |rows| + (if held1 then 1 else 0)
    requires cv1.results == cv.results
    requires KeepsMessages(env) ==>
               || cv1.messages == cv.messages
               || exists m: Message :: m.role != "tool" && cv1.messages == cv.messages + [m]
    requires forall k: nat :: |cv.log| <= k < |cv1.log| ==> HasItsRow(env, cv1.log, rows, k)
    ensures Told(env, opening, cv1, rows, held1)
  {
    if KeepsMessages(env) && cv1.messages != cv.messages {
      var m: Message :| m.role != "tool" && cv1.messages == cv.messages + [m];
      MessageAdded(opening, cv.messages, m);
    }
    forall i: nat | i < |rows| ensures Explains(env, cv1.log, cv1.calls[i], i, rows[i]) {
      ExplainsLater(env, cv.log, cv1.log, cv.calls[i], i, rows[i]);
    }
    forall k: nat | k < |cv1.log| ensures HasItsRow(env, cv1.log, rows, k) {
      if k < |cv.log| {
        assert HasItsRow(env, cv.log, rows, k) && cv1.log[k] == cv.log[k];
      }
    }
  }

  // ----- what the bodies tell -----

  lemma ErrorTells(id: string, tool: string, err: string, output: Value)
    ensures Tells(ErrorEnvelope(id, tool, err), id, tool, err, output, Some(err), "error")
    ensures Tells(RejectedEnvelope(id, tool, err), id, tool, err, output, Some(err), "rejected")
  {
    var e, r := ErrorEnvelope(id, tool, err).fields, RejectedEnvelope(id, tool, err).fields;
    LookupFirst(e, "content", 0);
    LookupFirst(e, "error", 1);
    LookupFirst(e, "status", 2);
    LookupFirst(e, "tool_call_id", 3);
    LookupFirst(e, "tool_name", 4);
    LookupFirst(r, "content", 0);
    LookupFirst(r, "error", 1);
    LookupFirst(r, "status", 3);
    LookupFirst(r, "tool_call_id", 4);
    LookupFirst(r, "tool_name", 5);
  }

  lemma HandledTells(id: string, tool: string, status: string, content: string, output: Value, error: Option<string>)
    requires error.Some? ==> error.value == content
    ensures Tells(HandledEnvelope(id, tool, status, content, output, error), id, tool, content, output, error, status)
  {
    var e := HandledEnvelope(id, tool, status, content, output, error).fields;
    LookupFirst(e, "content", 0);
    LookupFirst(e, "error", 1);
    LookupFirst(e, "output", 2);
    LookupFirst(e, "status", 3);
    LookupFirst(e, "tool_call_id", 4);
    LookupFirst(e, "tool_name", 5);
  }

  lemma SuccessTells(id: string, tool: string, content: string, output: Value)
    ensures Tells(SuccessEnvelope(id, tool, content, output), id, tool, content, output, None, "success")
  {
    var e := SuccessEnvelope(id, tool, content, output).fields;
    LookupFirst(e, "content", 0);
    LookupFirst(e, "output", 1);
    LookupFirst(e, "status", 2);
    LookupFirst(e, "tool_call_id", 3);
    LookupFirst(e, "tool_name", 4);
    LookupFirst(e, "error", 5);
  }

  function EditedFields(id: string, tool: string, content: string, output: Value, original: Value, args: Value):
    seq<Field>
  {
    [Field("content", Str(content)), Field("edited", Bool(true)), Field("effective_args", args),
     Field("original_args", original), Field("output", output), Field("status", Str("edited")),
     Field("tool_call_id", Str(id)), Field("tool_name", Str(tool))]
  }

  lemma EditedTells(id: string, tool: string, content: string, output: Value, original: Value, args: Value)
    ensures var body := EditedEnvelope(id, tool, content, output, Some(original), args);
            && Tells(body, id, tool, content, output, None, "edited")
            && body == Obj(EditedFields(id, tool, content, output, original, args))
  {
    var e := EditedFields(id, tool, content, output, original, args);
    assert EditedEnvelope(id, tool, content, output, Some(original), args).fields == e;
    LookupFirst(e, "content", 0);
    LookupFirst(e, "output", 4);
    LookupFirst(e, "status", 5);
    LookupFirst(e, "tool_call_id", 6);
    LookupFirst(e, "tool_name", 7);
    LookupFirst(e, "error", 8);
  }

  lemma EditedIsMarked(id: string, tool: string, content: string, output: Value, original: Value, args: Value)
    ensures var body := Obj(EditedFields(id, tool, content, output, original, args));
            && Get(body, "edited") == Some(Bool(true)) && Get(body, "effective_args") == Some(args)
            && Get(body, "original_args") == Some(original)
  {
    var e := EditedFields(id, tool, content, output, original, args);
    LookupFirst(e, "edited", 1);
    LookupFirst(e, "effective_args", 2);
    LookupFirst(e, "original_args", 3);
  }

  // ----- one call -----

  /** The last row of the ledger is this call, with its id and its arguments. */
  ghost predicate LastCall<S>(cv: Conv<S>, call: ProviderToolCall) {
    && call.callId.Some? && |cv.calls| > 0
    && cv.calls[|cv.calls| - 1] == ToolCallRecord(call.toolName, call.arguments, call.callId)
  }

  function NewRow<S>(codec: Codec, cause: Cause<S>, id: string, tool: string, output: Value, error: Option<string>,
                     status: string, envelope: Value, blocks: Option<seq<ContentBlock>>): Row<S>
  {
    Row(cause, ToolResultRecord(tool, Some(id), output, error, Some(status)),
        Message("tool", codec.render(envelope), blocks, None, Some(id), Some(tool), Some(status)), envelope)
  }

  /** One outcome is posted from `cv0`, where the call got to from `cv`. */
  lemma PostTold<S(!new)>(env: Env<S>, opening: seq<Message>, cv: Conv<S>, rows: seq<Row<S>>, cv0: Conv<S>,
                          cause: Cause<S>, id: string, tool: string, output: Value, error: Option<string>,
                          status: string, envelope: Value, blocks: Option<seq<ContentBlock>>)
    requires Told(env, opening, cv, rows, true)
    requires cv.log <= cv0.log && cv0.calls == cv.calls && cv0.results == cv.results
    requires KeepsMessages(env) ==> cv0.messages == cv.messages
    requires var row := NewRow(env.codec, cause, id, tool, output, error, status, envelope, blocks);
             && Explains(env, cv0.log, cv.calls[|rows|], |rows|, row)
             && forall k: nat :: |cv.log| <= k < |cv0.log| ==> HasItsRow(env, cv0.log, rows + [row], k)
    ensures Told(env, opening, Post(env.codec, cv0, id, tool, output, error, status, envelope, blocks),
                 rows + [NewRow(env.codec, cause, id, tool, output, error, status, envelope, blocks)], false)
  {
    var row := NewRow(env.codec, cause, id, tool, output, error, status, envelope, blocks);
    RowAdded(env, opening, cv, rows, row, Post(env.codec, cv0, id, tool, output, error, status, envelope, blocks));
  }

  /** An error for one of the reasons that need no event. */
  lemma ErrorTold<S(!new)>(env: Env<S>, opening: seq<Message>, cv: Conv<S>, rows: seq<Row<S>>, id: string,
                           tool: string, cause: Cause<S>, err: string) returns (rows1: seq<Row<S>>)
    requires Told(env, opening, cv, rows, true)
    requires Explains(env, cv.log, cv.calls[|rows|], |rows|,
                      NewRow(env.codec, cause, id, tool, Null, Some(err), "error", ErrorEnvelope(id, tool, err), None))
    ensures Told(env, opening, PostError(env.codec, cv, id, tool, err), rows1, false)
  {
    rows1 := rows + [NewRow(env.codec, cause, id, tool, Null, Some(err), "error", ErrorEnvelope(id, tool, err), None)];
    PostTold(env, opening, cv, rows, cv, cause, id, tool, Null, Some(err), "error", ErrorEnvelope(id, tool, err),
             None);
  }

  /** The policy's refusal of a call, on its own arguments or on those a reviewer gave. */
  lemma ForbiddenTold<S(!new)>(env: Env<S>, opening: seq<Message>, cv: Conv<S>, rows: seq<Row<S>>,
                               call: ProviderToolCall, args: Value, review: nat, code: string, reason: string)
    returns (rows1: seq<Row<S>>)
    requires Told(env, opening, cv, rows, true) && LastCall(cv, call)
    requires var v := Verdict(env, call.toolName, args, cv.state);
             && !v.Allow? && v.code == code && v.reason == reason
             && (v.RequireApproval? || args != call.arguments ==> DecidedAt(cv.log, review, call.callId.value))
             && (args != call.arguments ==> cv.log[review].decision == Edit(args))
    ensures Told(env, opening, PostError(env.codec, cv, call.callId.GetOr(""), call.toolName, NotAllowed(code, reason)),
                 rows1, false)
  {
    var id, tool, err := call.callId.value, call.toolName, NotAllowed(code, reason);
    CommandIsItsText(args);
    ErrorTells(id, tool, err, Null);
    rows1 := ErrorTold(env, opening, cv, rows, id, tool, Forbidden(args, cv.state, review), err);
  }

  /** The event of a dispatch, and what it leads to. */
  lemma DispatchTold<S(!new)>(env: Env<S>, opening: seq<Message>, cv: Conv<S>, rows: seq<Row<S>>,
                              call: ProviderToolCall, args: Value, edited: Option<Option<Value>>)
    returns (rows1: seq<Row<S>>)
    requires Told(env, opening, cv, rows, true) && LastCall(cv, call)
    requires if edited.None? then args == call.arguments
             else edited.value == Some(call.arguments) && |cv.log| > 0
                  && cv.log[|cv.log| - 1] == Decided(call.callId.value, Edit(args))
    ensures Told(env, opening, Dispatch(env, cv, call, args, edited), rows1, false)
  {
    var id, tool := call.callId.value, call.toolName;
    var (state, result) := env.tool(tool, args, cv.state);
    var e: Event<S> := Dispatched(|cv.calls| - 1, id, tool, args, cv.state);
    var cv1 := cv.(state := state, log := cv.log + [e]);
    assert cv1.log[|cv.log|] == e;
    match result {
      case Err(err) => rows1 := ToolFailed(env, opening, cv, rows, call, cv1, err);
      case Ok(out) =>
        if edited.Some? {
          assert cv1.log[|cv.log| - 1] == Decided(id, Edit(args));
          rows1 := EditedRan(env, opening, cv, rows, call, args, cv1, out);
        } else {
          rows1 := ToolRan(env, opening, cv, rows, call, cv1, out);
        }
    }
  }

  /** The tool has been run on these arguments in the state before, and nothing else has happened. */
  ghost predicate JustRan<S>(env: Env<S>, cv: Conv<S>, call: ProviderToolCall, args: Value, cv1: Conv<S>) {
    && LastCall(cv, call)
    && cv1 == cv.(state := env.tool(call.toolName, args, cv.state).0,
                  log := cv.log + [Dispatched(|cv.calls| - 1, call.callId.value, call.toolName, args, cv.state)])
  }

  lemma ToolFailed<S(!new)>(env: Env<S>, opening: seq<Message>, cv: Conv<S>, rows: seq<Row<S>>,
                            call: ProviderToolCall, cv1: Conv<S>, err: string) returns (rows1: seq<Row<S>>)
    requires Told(env, opening, cv, rows, true)
    requires exists args :: JustRan(env, cv, call, args, cv1)
                            && env.tool(call.toolName, args, cv.state).1 == Err(err)
    ensures Told(env, opening, PostError(env.codec, cv1, call.callId.GetOr(""), call.toolName, err), rows1, false)
  {
    var id, tool := call.callId.value, call.toolName;
    var body := ErrorEnvelope(id, tool, err);
    var row := NewRow(env.codec, Ran(|cv.log|), id, tool, Null, Some(err), "error", body, None);
    ErrorTells(id, tool, err, Null);
    rows1 := rows + [row];
    PostTold(env, opening, cv, rows, cv1, Ran(|cv.log|), id, tool, Null, Some(err), "error", body, None);
  }

  lemma ToolRan<S(!new)>(env: Env<S>, opening: seq<Message>, cv: Conv<S>, rows: seq<Row<S>>, call: ProviderToolCall,
                         cv1: Conv<S>, out: ToolOutput) returns (rows1: seq<Row<S>>)
    requires Told(env, opening, cv, rows, true) && JustRan(env, cv, call, call.arguments, cv1)
    requires env.tool(call.toolName, call.arguments, cv.state).1 == Ok(out)
    ensures Told(env, opening, PostSuccess(env, cv1, call.callId.GetOr(""), call.toolName, out), rows1, false)
  {
    var id, tool := call.callId.value, call.toolName;
    var (state, output, content) := env.offload(tool, id, out.output, cv1.state);
    var body := SuccessEnvelope(id, tool, content, output);
    var row := NewRow(env.codec, Ran(|cv.log|), id, tool, output, None, "success", body, out.blocks);
    SuccessTells(id, tool, content, output);
    rows1 := rows + [row];
    PostTold(env, opening, cv, rows, cv1.(state := state), Ran(|cv.log|), id, tool, output, None, "success", body,
             out.blocks);
  }

  lemma EditedRan<S(!new)>(env: Env<S>, opening: seq<Message>, cv: Conv<S>, rows: seq<Row<S>>, call: ProviderToolCall,
                           args: Value, cv1: Conv<S>, out: ToolOutput) returns (rows1: seq<Row<S>>)
    requires Told(env, opening, cv, rows, true) && JustRan(env, cv, call, args, cv1)
    requires env.tool(call.toolName, args, cv.state).1 == Ok(out)
    requires |cv.log| > 0 && cv.log[|cv.log| - 1] == Decided(call.callId.value, Edit(args))
    ensures Told(env, opening,
                 PostEdited(env, cv1, call.callId.GetOr(""), call.toolName, out, Some(call.arguments), args), rows1,
                 false)
  {
    var id, tool := call.callId.value, call.toolName;
    var (state, output, content) := env.offload(tool, id, out.output, cv1.state);
    var body := EditedEnvelope(id, tool, content, output, Some(call.arguments), args);
    var row := NewRow(env.codec, Ran(|cv.log|), id, tool, output, None, "edited", body, out.blocks);
    EditedTells(id, tool, content, output, call.arguments, args);
    EditedIsMarked(id, tool, content, output, call.arguments, args);
    assert cv1.log[|cv.log| - 1] == cv.log[|cv.log| - 1];
    rows1 := rows + [row];
    PostTold(env, opening, cv, rows, cv1.(state := state), Ran(|cv.log|), id, tool, output, None, "edited", body,
             out.blocks);
  }

  /** A middleware has taken the call. */
  lemma HandledTold<S(!new)>(env: Env<S>, opening: seq<Message>, cv: Conv<S>, rows: seq<Row<S>>,
                             call: ProviderToolCall, h: HandledToolCall) returns (rows1: seq<Row<S>>)
    requires Told(env, opening, cv, rows, true) && LastCall(cv, call) && OfferAll(env, cv, call).1 == Some(h)
    ensures Told(env, opening, PostHandled(env, OfferAll(env, cv, call).0, call.callId.GetOr(""), call.toolName, h),
                 rows1, false)
  {
    var id, tool, cv1 := call.callId.value, call.toolName, OfferAll(env, cv, call).0;
    var e: Event<S> := Offered(|cv.calls| - 1, id, tool, call.arguments, cv.messages, cv.state);
    assert call == ProviderToolCall(tool, call.arguments, Some(id));
    assert env.middlewares[0..] == env.middlewares;
    HandleChainTidy(env, 0, call, cv.messages, cv.state);
    assert cv1.log == cv.log + [e] && cv1.log[|cv.log|] == e;
    if h.error.Some? {
      var body := HandledEnvelope(id, tool, "error", h.error.value, h.output, h.error);
      HandledTells(id, tool, "error", h.error.value, h.output, h.error);
      rows1 := rows + [NewRow(env.codec, Handled(|cv.log|), id, tool, h.output, h.error, "error", body, None)];
      PostTold(env, opening, cv, rows, cv1, Handled(|cv.log|), id, tool, h.output, h.error, "error", body, None);
    } else {
      var (state, output, content) := env.offload(tool, id, h.output, cv1.state);
      var body := HandledEnvelope(id, tool, "success", content, output, None);
      HandledTells(id, tool, "success", content, output, None);
      rows1 := rows + [NewRow(env.codec, Handled(|cv.log|), id, tool, output, None, "success", body, None)];
      PostTold(env, opening, cv, rows, cv1.(state := state), Handled(|cv.log|), id, tool, output, None, "success",
               body, None);
    }
  }

  /** No middleware has taken the call. */
  lemma PassedOnTold<S(!new)>(env: Env<S>, opening: seq<Message>, cv: Conv<S>, rows: seq<Row<S>>,
                              call: ProviderToolCall)
    requires Told(env, opening, cv, rows, true) && LastCall(cv, call) && OfferAll(env, cv, call).1.None?
    ensures Told(env, opening, OfferAll(env, cv, call).0, rows, true) && LastCall(OfferAll(env, cv, call).0, call)
  {
    var cv1 := OfferAll(env, cv, call).0;
    assert call == ProviderToolCall(call.toolName, call.arguments, Some(call.callId.value));
    assert env.middlewares[0..] == env.middlewares;
    HandleChainTidy(env, 0, call, cv.messages, cv.state);
    NoRowAdded(env, opening, cv, rows, true, cv1, true);
  }

  lemma OfferTold<S(!new)>(env: Env<S>, opening: seq<Message>, cv: Conv<S>, rows: seq<Row<S>>, call: ProviderToolCall)
    returns (rows1: seq<Row<S>>)
    requires Told(env, opening, cv, rows, true) && LastCall(cv, call)
    ensures match OfferThenDispatch(env, cv, call)
            case Done(cv1) => Told(env, opening, cv1, rows1, false)
            case Held(cv1, c) => Told(env, opening, cv1, rows1, true) && LastCall(cv1, c)
  {
    var (cv1, handled) := OfferAll(env, cv, call);
    if handled.Some? {
      rows1 := HandledTold(env, opening, cv, rows, call, handled.value);
    } else {
      PassedOnTold(env, opening, cv, rows, call);
      match Verdict(env, call.toolName, call.arguments, cv1.state) {
        case Deny(code, reason) =>
          rows1 := ForbiddenTold(env, opening, cv1, rows, call, call.arguments, 0, code, reason);
        case RequireApproval(_, _) => rows1 := rows;
        case Allow => rows1 := DispatchTold(env, opening, cv1, rows, call, call.arguments, None);
      }
    }
  }

  /** What preparing a call complains of is what is wrong with the arguments it is recorded with. */
  lemma PreparingComplains(codec: Codec, call0: ProviderToolCall, nextId: nat)
    ensures var p := PrepareCall(codec, call0, nextId);
            p.error.Some? ==> ArgumentsComplaint(codec, p.call.arguments) == Some(ArgumentsErrorText(p.error.value))
  {
    var p := PrepareCall(codec, call0, nextId);
    if p.error.Some? {
      assert p.call.arguments == call0.arguments;
      ComplaintIsText(codec, call0.arguments, p.error.value);
    }
  }

  lemma ComplaintIsText(codec: Codec, args: Value, e: ArgumentsError)
    requires !args.Obj? && !args.Null?
    requires e == if !args.Str? then NotObject else if codec.parse(args.s).None? then TextNotJson else TextNotObject
    requires args.Str? && codec.parse(args.s).Some? ==> !codec.parse(args.s).value.Obj?
    ensures ArgumentsComplaint(codec, args) == Some(ArgumentsErrorText(e))
  {
  }

  lemma OneTold<S(!new)>(env: Env<S>, opening: seq<Message>, cv: Conv<S>, rows: seq<Row<S>>, guard: bool,
                         call0: ProviderToolCall) returns (rows1: seq<Row<S>>)
    requires Told(env, opening, cv, rows, false)
    ensures match ExecOne(env, guard, call0, cv)
            case Done(cv1) => Told(env, opening, cv1, rows1, false)
            case Held(cv1, c) => Told(env, opening, cv1, rows1, true) && LastCall(cv1, c)
  {
    var p := PrepareCall(env.codec, call0, cv.nextId);
    var id, tool := p.call.callId.value, p.call.toolName;
    var cv1 := Enter(cv, p);
    NoRowAdded(env, opening, cv, rows, false, cv1, true);
    if p.error.Some? {
      PreparingComplains(env.codec, call0, cv.nextId);
      ErrorTells(id, tool, ArgumentsErrorText(p.error.value), Null);
      rows1 := ErrorTold(env, opening, cv1, rows, id, tool, BadArguments, ArgumentsErrorText(p.error.value));
    } else if guard && tool == "write_todos" {
      ErrorTells(id, tool, TODOS_IN_PARALLEL, Null);
      rows1 := ErrorTold(env, opening, cv1, rows, id, tool, InParallel, TODOS_IN_PARALLEL);
    } else {
      match Verdict(env, tool, p.call.arguments, cv1.state) {
        case Deny(code, reason) =>
          rows1 := ForbiddenTold(env, opening, cv1, rows, p.call, p.call.arguments, 0, code, reason);
        case RequireApproval(_, _) => rows1 := rows;
        case Allow =>
          if Interrupts(env, tool) {
            rows1 := rows;
          } else {
            rows1 := OfferTold(env, opening, cv1, rows, p.call);
          }
      }
    }
  }

  // ----- a batch, a decision, a turn -----

  /** The pending interrupt is for the last call. */
  ghost predicate HeldCall<S>(cv: Conv<S>, p: Option<PendingInterrupt>) {
    p.Some? ==> LastCall(cv, p.value.call) && p.value.interrupt == InterruptFor(p.value.call)
  }

  lemma {:induction false} QueueTold<S(!new)>(env: Env<S>, opening: seq<Message>, cv: Conv<S>, rows: seq<Row<S>>,
                                              guard: bool, queue: seq<ProviderToolCall>)
    returns (rows1: seq<Row<S>>)
    requires Told(env, opening, cv, rows, false)
    ensures var (cv1, p) := ExecQueue(env, guard, queue, cv);
            Told(env, opening, cv1, rows1, p.Some?) && HeldCall(cv1, p)
    decreases |queue|
  {
    if queue == [] {
      rows1 := rows;
    } else {
      var rows0 := OneTold(env, opening, cv, rows, guard, queue[0]);
      match ExecOne(env, guard, queue[0], cv) {
        case Done(cv1) => rows1 := QueueTold(env, opening, cv1, rows0, guard, queue[1..]);
        case Held(cv1, call) =>
          rows1 := rows0;
          NoRowAdded(env, opening, cv1, rows0, true, cv1.(log := cv1.log + [Paused(call.callId.GetOr(""))]), true);
      }
    }
  }

  lemma PendingTold<S(!new)>(env: Env<S>, opening: seq<Message>, cv: Conv<S>, rows: seq<Row<S>>,
                             call: ProviderToolCall, edited: Option<Value>) returns (rows1: seq<Row<S>>)
    requires Told(env, opening, cv, rows, true) && LastCall(cv, call)
    requires |cv.log| > 0 && DecidedAt(cv.log, |cv.log| - 1, call.callId.value)
    requires edited.Some? ==> cv.log[|cv.log| - 1].decision == Edit(edited.value)
    ensures Told(env, opening, ExecutePending(env, cv, call, edited, Some(call.arguments)), rows1, false)
  {
    var args := edited.GetOr(call.arguments);
    match Verdict(env, call.toolName, args, cv.state) {
      case Deny(code, reason) =>
        rows1 := ForbiddenTold(env, opening, cv, rows, call, args, |cv.log| - 1, code, reason);
      case RequireApproval(code, reason) =>
        rows1 := ForbiddenTold(env, opening, cv, rows, call, args, |cv.log| - 1, code, reason);
      case Allow =>
        rows1 := DispatchTold(env, opening, cv, rows, call, args,
                              if edited.Some? then Some(Some(call.arguments)) else None);
    }
  }

  lemma RejectedTold<S(!new)>(env: Env<S>, opening: seq<Message>, cv: Conv<S>, rows: seq<Row<S>>,
                              call: ProviderToolCall, reason: Option<string>) returns (rows1: seq<Row<S>>)
    requires Told(env, opening, cv, rows, true) && LastCall(cv, call)
    requires |cv.log| > 0 && cv.log[|cv.log| - 1] == Decided(call.callId.value, Reject(reason))
    ensures Told(env, opening, PostRejected(env.codec, cv, call, reason), rows1, false)
  {
    var id, tool := call.callId.value, call.toolName;
    var err := "tool_call_rejected: " + reason.GetOr("rejected");
    var body, cause := RejectedEnvelope(id, tool, err), Rejected(|cv.log| - 1);
    ErrorTells(id, tool, err, Null);
    rows1 := rows + [NewRow(env.codec, cause, id, tool, Null, Some(err), "rejected", body, None)];
    PostTold(env, opening, cv, rows, cv, cause, id, tool, Null, Some(err), "rejected", body, None);
  }

  lemma SettleTold<S(!new)>(env: Env<S>, opening: seq<Message>, cv0: Conv<S>, rows: seq<Row<S>>,
                            p: PendingInterrupt, decision: HitlDecision) returns (rows1: seq<Row<S>>)
    requires Told(env, opening, cv0, rows, true) && HeldCall(cv0, Some(p))
    ensures Told(env, opening, Settle(env, cv0, p, decision), rows1, false)
  {
    var cv := cv0.(log := cv0.log + [Decided(p.interrupt.interruptId, decision)]);
    NoRowAdded(env, opening, cv0, rows, true, cv, true);
    match decision {
      case Approve => rows1 := PendingTold(env, opening, cv, rows, p.call, None);
      case Reject(reason) => rows1 := RejectedTold(env, opening, cv, rows, p.call, reason);
      case Edit(args) => rows1 := PendingTold(env, opening, cv, rows, p.call, Some(args));
    }
  }

  ghost predicate RunnerTold<S(!new)>(env: Env<S>, r: Runner<S>, rows: seq<Row<S>>) {
    if r.initialized then Told(env, r.opening, r.conv, rows, r.pending.Some?) && HeldCall(r.conv, r.pending)
    else r.pending.None? && r.conv.calls == [] && r.conv.results == [] && r.conv.log == [] && r.opening == []
         && rows == []
  }

  lemma BatchTold<S(!new)>(env: Env<S>, r: Runner<S>, rows: seq<Row<S>>, calls: seq<ProviderToolCall>)
    returns (rows1: seq<Row<S>>)
    requires r.initialized && r.pending.None? && RunnerTold(env, r, rows)
    ensures var b := RunBatch(env, r, calls);
            RunnerTold(env, b.runner, rows1) && b.runner.initialized && (b.Go? ==> b.runner.pending.None?)
  {
    rows1 := QueueTold(env, r.opening, r.conv, rows, TodoCount(calls) > 1, calls);
  }

  lemma ActTold<S(!new)>(env: Env<S>, r: Runner<S>, rows: seq<Row<S>>, step: ProviderStep, k: nat)
    returns (rows1: seq<Row<S>>)
    requires r.initialized && r.pending.None? && RunnerTold(env, r, rows)
    ensures var b := Act(env, r, step, k);
            RunnerTold(env, b.runner, rows1) && b.runner.initialized && (b.Go? ==> b.runner.pending.None?)
  {
    var cv := r.conv;
    rows1 := rows;
    match step {
      case AssistantMessage(text) =>
        NoRowAdded(env, r.opening, cv, rows, false, cv.(messages := cv.messages + [Plain("assistant", text)]), false);
      case SkillCall(name, input, callId) =>
        var (state, expanded) := env.skill(name, input, callId, cv.state);
        NoRowAdded(env, r.opening, cv, rows, false, cv.(state := state), false);
        if expanded.Ok? {
          rows1 := BatchTold(env, r.(conv := cv.(state := state)), rows, expanded.value);
        }
      case ToolCalls(calls0) =>
        var (calls, nextId) := NormalizedCalls(env.codec, calls0, cv.nextId);
        var cv1 := cv.(nextId := nextId, messages := cv.messages + [Announce(calls)]);
        NoRowAdded(env, r.opening, cv, rows, false, cv1, false);
        rows1 := BatchTold(env, r.(conv := cv1), rows, calls);
      case _ =>
    }
  }

  lemma TurnTold<S(!new)>(env: Env<S>, r: Runner<S>, rows: seq<Row<S>>, k: nat) returns (rows1: seq<Row<S>>)
    requires r.initialized && r.pending.None? && RunnerTold(env, r, rows)
    ensures var b := Turn(env, r, k);
            RunnerTold(env, b.runner, rows1) && b.runner.initialized && (b.Go? ==> b.runner.pending.None?)
  {
    AskingIsElsewhere(env, r.conv);
    var a := AskProvider(env, r.conv);
    NoRowAdded(env, r.opening, r.conv, rows, false, a.conv, false);
    if a.Answer? {
      rows1 := ActTold(env, r.(conv := a.conv), rows, a.step, k);
    } else {
      rows1 := rows;
    }
  }

  lemma {:induction false} LoopTold<S(!new)>(env: Env<S>, r: Runner<S>, rows: seq<Row<S>>, k: nat)
    returns (rows1: seq<Row<S>>)
    requires r.initialized && r.pending.None? && RunnerTold(env, r, rows)
    ensures RunnerTold(env, RunLoop(env, r, k).0, rows1)
    decreases env.maxSteps - k
  {
    if k >= env.maxSteps {
      rows1 := rows;
    } else {
      var t, k1 := LoopStep(env, r, k);
      rows1 := TurnTold(env, r, rows, k);
      if t.Go? {
        rows1 := LoopTold(env, t.runner, rows1, k1);
      }
    }
  }

  // ----- every run -----

  lemma RunTold<S(!new)>(env: Env<S>, r: Runner<S>, rows: seq<Row<S>>) returns (rows1: seq<Row<S>>)
    requires RunnerTold(env, r, rows)
    ensures RunnerTold(env, Run(env, r).0, rows1)
  {
    rows1 := rows;
    if r.pending.None? {
      if r.initialized {
        rows1 := LoopTold(env, r, rows, 0);
      } else {
        var i := Initialize(env, r);
        if i.Go? {
          NothingTold(env, i.runner);
          rows1 := LoopTold(env, i.runner, rows, 0);
        }
      }
    }
  }

  lemma NothingTold<S(!new)>(env: Env<S>, r: Runner<S>)
    requires r.initialized && r.pending.None? && r.conv.calls == [] && r.conv.log == [] && r.conv.messages == r.opening
    requires r.conv.results == ResultsOf(env.codec, r.opening)
    ensures RunnerTold(env, r, [])
  {
    assert r.opening[|r.opening|..] == [];
  }

  lemma ResumeTold<S(!new)>(env: Env<S>, r: Runner<S>, rows: seq<Row<S>>, id: string, decision: HitlDecision)
    returns (rows1: seq<Row<S>>)
    requires RunnerTold(env, r, rows)
    ensures RunnerTold(env, Resume(env, r, id, decision).0, rows1)
  {
    if Refusal(r, id, decision).Some? {
      rows1 := rows;
    } else {
      var p := r.pending.value;
      var r1 := r.(conv := Settle(env, r.conv, p, decision), pending := None);
      rows1 := SettleTold(env, r.opening, r.conv, rows, p, decision);
      rows1 := BatchTold(env, r1, rows1, p.remaining);
      var b := RunBatch(env, r1, p.remaining);
      if b.Go? {
        rows1 := RunTold(env, b.runner, rows1);
      }
    }
  }

  lemma ReactTold<S(!new)>(env: Env<S>, r: Runner<S>, rows: seq<Row<S>>, input: Input) returns (rows1: seq<Row<S>>)
    requires RunnerTold(env, r, rows)
    ensures RunnerTold(env, React(env, r, input), rows1)
  {
    match input {
      case RunInput => rows1 := RunTold(env, r, rows);
      case ResumeInput(id, decision) => rows1 := ResumeTold(env, r, rows, id, decision);
      case UserInput(text) =>
        rows1 := rows;
        if r.initialized {
          NoRowAdded(env, r.opening, r.conv, rows, r.pending.Some?, PushUserInput(r, text).conv, r.pending.Some?);
        }
    }
  }

  lemma {:induction false} DriveTold<S(!new)>(env: Env<S>, r: Runner<S>, rows: seq<Row<S>>, inputs: seq<Input>)
    returns (rows1: seq<Row<S>>)
    requires RunnerTold(env, r, rows)
    ensures RunnerTold(env, Drive(env, r, inputs), rows1)
    decreases |inputs|
  {
    if inputs == [] {
      rows1 := rows;
    } else {
      rows1 := ReactTold(env, r, rows, inputs[0]);
      rows1 := DriveTold(env, React(env, r, inputs[0]), rows1, inputs[1..]);
    }
  }

  /**
   * In every reachable state each result after the opening history has its explanation: the answer of a tool that
   * was run, or of a middleware that took the call, or what was wrong with the call, its arguments, the policy's
   * verdict or the reviewer's rejection. Every dispatch and every call a middleware took has a result of its own.
   */
  lemma EveryResultIsExplained<S(!new)>(env: Env<S>, messages: seq<Message>, state: S, inputs: seq<Input>)
    returns (rows: seq<Row<S>>)
    ensures var r := After(env, messages, state, inputs);
            r.initialized ==> Told(env, r.opening, r.conv, rows, r.pending.Some?)
  {
    rows := DriveTold(env, Fresh(messages, state), [], inputs);
  }

  /** The record of a tool that was run: its output, moved out of the way where it is too large, or its error. */
  ghost predicate RecordsAnswer<S>(env: Env<S>, e: Event<S>, result: ToolResultRecord)
    requires e.Dispatched?
  {
    var (state, answer) := env.tool(e.tool, e.args, e.state);
    && result.callId == Some(e.callId) && result.toolName == e.tool
    && match answer
       case Ok(out) =>
         result.error.None? && result.output == env.offload(e.tool, e.callId, out.output, state).1
       case Err(x) => result.error == Some(x)
  }

  /** The message about it: the blocks the tool answered with, and a printed body with the same content. */
  ghost predicate ReportsAnswer<S>(env: Env<S>, e: Event<S>, m: Message)
    requires e.Dispatched?
  {
    var (state, answer) := env.tool(e.tool, e.args, e.state);
    && m.role == "tool" && m.toolCallId == Some(e.callId) && m.name == Some(e.tool)
    && exists body: Value ::
         && m.content == env.codec.render(body)
         && match answer
            case Ok(out) =>
              var (_, output, content) := env.offload(e.tool, e.callId, out.output, state);
              && m.blocks == out.blocks
              && Get(body, "content") == Some(Str(content)) && Get(body, "output") == Some(output)
            case Err(x) =>
              m.blocks.None? && Get(body, "content") == Some(Str(x)) && Get(body, "error") == Some(Str(x))
  }

  /** The dispatch at `k` has its record, and its message if no middleware edits the history. */
  ghost predicate AnswerIsKept<S(!new)>(env: Env<S>, r: Runner<S>, k: nat)
    requires k < |r.conv.log| && r.conv.log[k].Dispatched?
  {
    var e := r.conv.log[k];
    var n := |ResultsOf(env.codec, r.opening)| + e.serial;
    && 0 <= e.serial && n < |r.conv.results| && RecordsAnswer(env, e, r.conv.results[n])
    && (KeepsMessages(env) ==>
          && r.opening <= r.conv.messages
          && var reports := ToolMessages(r.conv.messages[|r.opening|..]);
             e.serial < |reports| && ReportsAnswer(env, e, reports[e.serial]))
  }

  /** A tool that was run is recorded and reported as it answered, in every reachable state. */
  lemma ToolAnswersAreReported<S(!new)>(env: Env<S>, messages: seq<Message>, state: S, inputs: seq<Input>, k: nat)
    requires var log := After(env, messages, state, inputs).conv.log; k < |log| && log[k].Dispatched?
    ensures AnswerIsKept(env, After(env, messages, state, inputs), k)
  {
    var rows := DriveTold(env, Fresh(messages, state), [], inputs);
    ToldIsKept(env, After(env, messages, state, inputs), rows, k);
  }

  lemma ToldIsKept<S(!new)>(env: Env<S>, r: Runner<S>, rows: seq<Row<S>>, k: nat)
    requires RunnerTold(env, r, rows) && k < |r.conv.log| && r.conv.log[k].Dispatched?
    ensures AnswerIsKept(env, r, k)
  {
    DispatchIsReported(env, r.opening, r.conv, rows, r.pending.Some?, k);
  }

  lemma RowAnswers<S(!new)>(env: Env<S>, log: seq<Event<S>>, k: nat, call: ToolCallRecord, i: nat, row: Row<S>)
    requires row.cause == Ran(k) && Explains(env, log, call, i, row)
    ensures RecordsAnswer(env, log[k], row.result) && ReportsAnswer(env, log[k], row.message)
  {
    assert row.message.content == env.codec.render(row.body);
  }

  lemma DispatchIsReported<S(!new)>(env: Env<S>, opening: seq<Message>, cv: Conv<S>, rows: seq<Row<S>>, held: bool,
                                    k: nat)
    requires Told(env, opening, cv, rows, held) && k < |cv.log| && cv.log[k].Dispatched?
    ensures var e := cv.log[k];
            && 0 <= e.serial < |rows|
            && RecordsAnswer(env, e, cv.results[|ResultsOf(env.codec, opening)| + e.serial])
            && ReportsAnswer(env, e, Reports(rows)[e.serial])
  {
    assert HasItsRow(env, cv.log, rows, k);
    var i := cv.log[k].serial;
    RowAnswers(env, cv.log, k, cv.calls[i], i, rows[i]);
    assert cv.results[|ResultsOf(env.codec, opening)| + i] == Records(rows)[i];
  }
}
