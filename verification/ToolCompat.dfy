/** Normalisation of messages and calls, and the result index recomputed from a history. */
module ToolCompat {
  import opened Wrappers
  import opened Json
  import opened Text
  import opened Types

  const ID_KEYS := ["tool_call_id", "tool_use_id", "toolUseId", "call_id", "id", "tool_callid"]

  function StringifyError(codec: Codec, v: Value): string {
    match v
    case Str(s) => s
    case Obj(_) =>
      var code, msg := AsStr(Get(v, "code")), AsStr(Get(v, "message"));
      if code.Some? && msg.Some? then code.value + ": " + msg.value else codec.render(v)
    case _ => codec.render(v)
  }

  // ----- normalize_messages -----

  /** An assistant text that encodes tool calls is unpacked into a message that carries them. */
  function UnpackAssistant(codec: Codec, m: Message): Message {
    if m.role == "assistant" && m.toolCalls.None? then
      var parsed := codec.parse(m.content);
      if parsed.Some? && parsed.value.Obj? then
        var field := Get(parsed.value, "tool_calls");
        if field.Some? then
          var calls := codec.decodeCalls(field.value);
          if calls.Some? then
            m.(content := AsStr(Get(parsed.value, "content")).GetOr(""), toolCalls := Some(calls.value))
          else m
        else m
      else m
    else m
  }

  /** A tool message without an id takes id, name and status from its JSON text. */
  function UnpackTool(codec: Codec, m: Message): Message {
    if m.role == "tool" && m.toolCallId.None? then
      var parsed := codec.parse(m.content);
      if parsed.Some? && parsed.value.Obj? then
        var fields := parsed.value.fields;
        var error := Lookup(fields, "error");
        m.(toolCallId := FirstString(fields, ID_KEYS),
           name := m.name.Or(FirstString(fields, ["tool_name", "name"])),
           status := m.status.Or(FirstString(fields, ["status"])).Or(
             Some(if error.Some? && !error.value.Null? then "error" else "success")))
      else m
    else m
  }

  function NormalizeMessage(codec: Codec, m: Message): Message {
    UnpackTool(codec, UnpackAssistant(codec, m))
  }

  function Normalized(codec: Codec, messages: seq<Message>): (out: seq<Message>)
    ensures |out| == |messages|
    ensures forall i :: 0 <= i < |messages| ==> out[i] == NormalizeMessage(codec, messages[i])
  {
    if messages == [] then [] else [NormalizeMessage(codec, messages[0])] + Normalized(codec, messages[1..])
  }

  method NormalizeMessages(codec: Codec, messages: seq<Message>) returns (out: seq<Message>)
    ensures out == Normalized(codec, messages)
  {
    out := [];
    for k := 0 to |messages|
      invariant |out| == k
      invariant forall i :: 0 <= i < k ==> out[i] == NormalizeMessage(codec, messages[i])
    {
      var msg := messages[k];
      if msg.role == "assistant" && msg.toolCalls.None? {
        var parsed := codec.parse(msg.content);
        if parsed.Some? && parsed.value.Obj? {
          var field := Get(parsed.value, "tool_calls");
          if field.Some? {
            var calls := codec.decodeCalls(field.value);
            if calls.Some? {
              msg := msg.(content := AsStr(Get(parsed.value, "content")).GetOr(""));
              msg := msg.(toolCalls := Some(calls.value));
            }
          }
        }
      }
      if msg.role == "tool" && msg.toolCallId.None? {
        var parsed := codec.parse(msg.content);
        if parsed.Some? && parsed.value.Obj? {
          var fields := parsed.value.fields;
          var id := FirstString(fields, ID_KEYS);
          if id.Some? {
            msg := msg.(toolCallId := id);
          }
          if msg.name.None? {
            var name := FirstString(fields, ["tool_name", "name"]);
            if name.Some? {
              msg := msg.(name := name);
            }
          }
          if msg.status.None? {
            var status := FirstString(fields, ["status"]);
            var error := Lookup(fields, "error");
            if status.Some? {
              msg := msg.(status := status);
            } else if error.Some? && !error.value.Null? {
              msg := msg.(status := Some("error"));
            } else {
              msg := msg.(status := Some("success"));
            }
          }
        }
      }
      out := out + [msg];
    }
  }

  /** Normalising a second time changes nothing. */
  lemma NormalizeIdempotent(codec: Codec, messages: seq<Message>)
    ensures Normalized(codec, Normalized(codec, messages)) == Normalized(codec, messages)
  {
    var once := Normalized(codec, messages);
    forall i | 0 <= i < |messages|
      ensures NormalizeMessage(codec, once[i]) == once[i]
    {
    }
    assert Normalized(codec, once) == once;
  }

  /** Normalising only fills in what is missing; the text changes only when calls are unpacked from it. */
  lemma NormalizingOnlyFills(codec: Codec, m: Message)
    ensures var n := NormalizeMessage(codec, m);
            && n.role == m.role && n.blocks == m.blocks
            && (m.toolCalls.Some? ==> n.toolCalls == m.toolCalls)
            && (m.toolCallId.Some? ==> n.toolCallId == m.toolCallId)
            && (m.name.Some? ==> n.name == m.name)
            && (m.status.Some? ==> n.status == m.status)
            && (n.content != m.content ==> m.role == "assistant" && m.toolCalls.None? && n.toolCalls.Some?)
  {
  }

  /** An assistant message that was reduced to its JSON text gets its text and its calls back. */
  lemma TextRecoversCalls(codec: Codec, text: string, encoded: Value, calls: seq<ToolCall>)
    requires RoundTrips(codec) && codec.decodeCalls(encoded) == Some(calls)
    ensures var envelope := Obj([Field("content", Str(text)), Field("tool_calls", encoded)]);
            NormalizeMessage(codec, Plain("assistant", codec.render(envelope)))
            == Message("assistant", text, None, Some(calls), None, None, None)
  {
    var envelope := Obj([Field("content", Str(text)), Field("tool_calls", encoded)]);
    assert codec.parse(codec.render(envelope)) == Some(envelope);
    LookupFirst(envelope.fields, "content", 0);
    LookupFirst(envelope.fields, "tool_calls", 1);
  }

  // ----- tool_results_from_messages -----

  /** The result record one message stands for, if it is a tool message with a usable id. */
  function ResultOf(codec: Codec, m: Message): Option<ToolResultRecord> {
    if m.role != "tool" || m.toolCallId.None? || Blank(m.toolCallId.value) then None
    else
      var parsed := codec.parse(m.content);
      if parsed.Some? && parsed.value.Obj? then
        var fields := parsed.value.fields;
        var toolName := m.name.Or(FirstString(fields, ["tool_name", "name"])).GetOr("unknown");
        var output := Lookup(fields, "output").GetOr(Null);
        var field := Lookup(fields, "error");
        var error :=
          if field.Some? && !field.value.Null? then Some(StringifyError(codec, field.value))
          else if m.status == Some("error") then Some(m.content)
          else None;
        var status := m.status.Or(FirstString(fields, ["status"])).Or(
          Some(if error.Some? then "error" else "success"));
        Some(ToolResultRecord(toolName, m.toolCallId, output, error, status))
      else
        Some(ToolResultRecord(m.name.GetOr("unknown"), m.toolCallId, Null,
                              if m.status == Some("error") then Some(m.content) else None, m.status))
  }

  function ResultsOf(codec: Codec, messages: seq<Message>): seq<ToolResultRecord> {
    if messages == [] then []
    else
      var r := ResultOf(codec, messages[0]);
      (if r.Some? then [r.value] else []) + ResultsOf(codec, messages[1..])
  }

  lemma {:induction false} ResultsOfAppend(codec: Codec, a: seq<Message>, b: seq<Message>)
    ensures ResultsOf(codec, a + b) == ResultsOf(codec, a) + ResultsOf(codec, b)
  {
    if a == [] {
      assert a + b == b;
    } else {
      assert (a + b)[1..] == a[1..] + b;
      ResultsOfAppend(codec, a[1..], b);
    }
  }

  method ToolResultsFromMessages(codec: Codec, messages: seq<Message>) returns (out: seq<ToolResultRecord>)
    ensures out == ResultsOf(codec, messages)
  {
    out := [];
    for k := 0 to |messages|
      invariant out == ResultsOf(codec, messages[..k])
    {
      var msg := messages[k];
      assert messages[..k + 1] == messages[..k] + [msg];
      ResultsOfAppend(codec, messages[..k], [msg]);
      if msg.role != "tool" {
        continue;
      }
      if msg.toolCallId.None? || Blank(msg.toolCallId.value) {
        continue;
      }
      var callId := msg.toolCallId.value;
      var parsed := codec.parse(msg.content);
      var toolName, output, error, status;
      if parsed.Some? && parsed.value.Obj? {
        var fields := parsed.value.fields;
        toolName := msg.name.Or(FirstString(fields, ["tool_name", "name"])).GetOr("unknown");
        output := Lookup(fields, "output").GetOr(Null);
        var field := Lookup(fields, "error");
        if field.Some? && !field.value.Null? {
          error := Some(StringifyError(codec, field.value));
        } else if msg.status == Some("error") {
          error := Some(msg.content);
        } else {
          error := None;
        }
        status := msg.status.Or(FirstString(fields, ["status"]));
        if status.None? {
          status := Some(if error.Some? then "error" else "success");
        }
      } else {
        toolName := msg.name.GetOr("unknown");
        output := Null;
        status := msg.status;
        error := if status == Some("error") then Some(msg.content) else None;
      }
      out := out + [ToolResultRecord(toolName, Some(callId), output, error, status)];
    }
    assert messages[..|messages|] == messages;
  }

  // ----- normalize_tool_call_for_execution -----

  datatype ArgumentsError = TextNotJson | TextNotObject | NotObject

  function ArgumentsErrorText(e: ArgumentsError): string {
    match e
    case TextNotJson => "invalid_tool_call: arguments must be JSON object string"
    case TextNotObject => "invalid_tool_call: arguments must be JSON object"
    case NotObject => "invalid_tool_call: arguments must be object"
  }

  datatype Prepared = Prepared(call: ProviderToolCall, nextId: nat, error: Option<ArgumentsError>)

  function FreshId(n: nat): string {
    "call-" + Decimal(n)
  }

  /** The call that will run: it has a name, a usable id and, unless rejected, object arguments. */
  function PrepareCall(codec: Codec, call: ProviderToolCall, nextId: nat): (p: Prepared)
    ensures p.call.callId.Some?
    ensures p.nextId >= nextId
  {
    var named := if Blank(call.toolName) then call.(toolName := "unknown") else call;
    var needId := Blank(named.callId.GetOr(""));
    var next := if needId then nextId + 1 else nextId;
    var c := if needId then named.(callId := Some(FreshId(nextId))) else named;
    assert !needId ==> c.callId.Some?;
    match c.arguments
    case Obj(_) => Prepared(c, next, None)
    case Null => Prepared(c.(arguments := Obj([])), next, None)
    case Str(s) =>
      var parsed := codec.parse(s);
      if parsed.None? then
        Prepared(c, next, Some(TextNotJson))
      else if parsed.value.Obj? then Prepared(c.(arguments := parsed.value), next, None)
      else Prepared(c, next, Some(TextNotObject))
    case _ => Prepared(c, next, Some(NotObject))
  }

  method NormalizeToolCallForExecution(codec: Codec, call0: ProviderToolCall, nextId: nat) returns (p: Prepared)
    ensures p == PrepareCall(codec, call0, nextId)
  {
    var call, next := call0, nextId;
    if Blank(call.toolName) {
      call := call.(toolName := "unknown");
    }
    if Blank(call.callId.GetOr("")) {
      call := call.(callId := Some(FreshId(next)));
      next := next + 1;
    }
    match call.arguments {
      case Obj(_) =>
        p := Prepared(call, next, None);
      case Null =>
        call := call.(arguments := Obj([]));
        p := Prepared(call, next, None);
      case Str(text) =>
        var parsed := codec.parse(text);
        if parsed.Some? && parsed.value.Obj? {
          call := call.(arguments := parsed.value);
          p := Prepared(call, next, None);
        } else if parsed.Some? {
          p := Prepared(call, next, Some(TextNotObject));
        } else {
          p := Prepared(call, next, Some(TextNotJson));
        }
      case _ =>
        p := Prepared(call, next, Some(NotObject));
    }
  }

  /** A prepared call never has a blank id, keeps a usable one, and runs only with object arguments. */
  lemma PreparedIsRunnable(codec: Codec, call: ProviderToolCall, nextId: nat)
    ensures var p := PrepareCall(codec, call, nextId);
            && p.call.callId.Some? && !Blank(p.call.callId.value)
            && (call.callId.Some? && !Blank(call.callId.value) ==> p.call.callId == call.callId && p.nextId == nextId)
            && (p.error.None? ==> p.call.arguments.Obj?)
            && !Blank(p.call.toolName)
  {
    VisibleIsNotBlank(FreshId(nextId));
    VisibleIsNotBlank("unknown");
  }

  /**
   * What arguments are read as: nothing is an empty object, the text
   * of an object is that object, and all else is left as it is.
   */
  predicate ReadAs(codec: Codec, given: Value, taken: Value) {
    match given
    case Null => taken == Obj([])
    case Str(text) =>
      (match codec.parse(text)
       case Some(Obj(fields)) => taken == Obj(fields)
       case _ => taken == given)
    case _ => taken == given
  }

  /** A prepared call has the arguments that were given, as they are read, and runs exactly when that is an object. */
  lemma PreparingReads(codec: Codec, call: ProviderToolCall, nextId: nat)
    ensures var p := PrepareCall(codec, call, nextId);
            && ReadAs(codec, call.arguments, p.call.arguments)
            && (p.error.None? <==> p.call.arguments.Obj?)
            && p.call.toolName == (if Blank(call.toolName) then "unknown" else call.toolName)
            && (Blank(call.callId.GetOr("")) ==>
                  p.call.callId == Some("call-" + Decimal(nextId)) && p.nextId == nextId + 1)
  {
  }

  /** The first key in the list under which there is a string. */
  lemma {:induction false} FirstStringIsFirst(fields: seq<Field>, keys: seq<string>)
    ensures match FirstString(fields, keys)
            case Some(s) =>
              exists i :: 0 <= i < |keys| && Lookup(fields, keys[i]) == Some(Str(s))
                          && forall j :: 0 <= j < i ==> AsStr(Lookup(fields, keys[j])).None?
            case None => forall i :: 0 <= i < |keys| ==> AsStr(Lookup(fields, keys[i])).None?
  {
    if keys != [] {
      FirstStringIsFirst(fields, keys[1..]);
      var first := AsStr(Lookup(fields, keys[0]));
      var rest := FirstString(fields, keys[1..]);
      if first.Some? {
        assert Lookup(fields, keys[0]) == Some(Str(first.value));
      } else if rest.Some? {
        var i :| 0 <= i < |keys[1..]| && Lookup(fields, keys[1..][i]) == Some(Str(rest.value))
                 && forall j :: 0 <= j < i ==> AsStr(Lookup(fields, keys[1..][j])).None?;
        assert keys[i + 1] == keys[1..][i];
        forall j | 0 <= j < i + 1 ensures AsStr(Lookup(fields, keys[j])).None? {
          assert j > 0 ==> keys[j] == keys[1..][j - 1];
        }
      } else {
        forall i | 0 <= i < |keys| ensures AsStr(Lookup(fields, keys[i])).None? {
          assert i > 0 ==> keys[i] == keys[1..][i - 1];
        }
      }
    }
  }

  // ----- texts that the runner did not write -----

  /** A tool message that is only a text gets its fields from the JSON object in it, and its status from the error. */
  lemma TextIsUnpacked(codec: Codec, m: Message, fields: seq<Field>)
    requires m.role == "tool" && m.toolCallId.None? && codec.parse(m.content) == Some(Obj(fields))
    ensures var n := NormalizeMessage(codec, m);
            && n.content == m.content && n.toolCalls == m.toolCalls
            && n.toolCallId == FirstString(fields, ID_KEYS)
            && (m.name.None? ==> n.name == FirstString(fields, ["tool_name", "name"]))
            && (m.status.None? && FirstString(fields, ["status"]).Some? ==> n.status == FirstString(fields, ["status"]))
            && (m.status.None? && FirstString(fields, ["status"]).None? ==>
                  var failed := Lookup(fields, "error").Some? && Lookup(fields, "error") != Some(Null);
                  n.status == Some(if failed then "error" else "success"))
  {
  }

  /** A tool message whose text is no JSON object stands for a result without output; its text is the error if any. */
  lemma OtherTextIsNoOutput(codec: Codec, m: Message)
    requires m.role == "tool" && m.toolCallId.Some? && !Blank(m.toolCallId.value)
    requires codec.parse(m.content).Some? ==> !codec.parse(m.content).value.Obj?
    ensures ResultOf(codec, m)
         == Some(ToolResultRecord(if m.name.Some? then m.name.value else "unknown", m.toolCallId, Null,
                                  if m.status == Some("error") then Some(m.content) else None, m.status))
  {
  }

  /** The error of a result whose text is a JSON object: a text, a code with its message, or else any JSON. */
  lemma ErrorIsRead(codec: Codec, m: Message, fields: seq<Field>, error: Value)
    requires m.role == "tool" && m.toolCallId.Some? && !Blank(m.toolCallId.value)
    requires codec.parse(m.content) == Some(Obj(fields)) && Lookup(fields, "error") == Some(error) && error != Null
    ensures var r := ResultOf(codec, m);
            && r.Some? && r.value.error.Some?
            && match error
               case Str(text) => r.value.error.value == text
               case Obj(_) =>
                 (match (Get(error, "code"), Get(error, "message"))
                  case (Some(Str(code)), Some(Str(message))) => r.value.error.value == code + ": " + message
                  case _ => r.value.error.value == codec.render(error))
               case _ => r.value.error.value == codec.render(error)
  {
  }
}
