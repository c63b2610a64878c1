/** Repair of tool calls that never got a result, and normalisation of provider calls. */
module PatchToolCalls {
  import opened Wrappers
  import opened Json
  import opened Text
  import opened Types
  import opened ToolCompat

  // ----- patch_dangling_tool_calls -----

  /** A tool message with this id occurs in the list. */
  predicate Answered(messages: seq<Message>, id: string) {
    exists k :: 0 <= k < |messages| && messages[k].role == "tool" && messages[k].toolCallId == Some(id)
  }

  function CallsOf(m: Message): seq<ToolCall> {
    m.toolCalls.GetOr([])
  }

  /** The calls of a message that nothing after it answers, in call order. */
  function Unanswered(calls: seq<ToolCall>, rest: seq<Message>): seq<ToolCall> {
    if calls == [] then []
    else (if Answered(rest, calls[0].id) then [] else [calls[0]]) + Unanswered(calls[1..], rest)
  }

  const MISSING_RESULT := "tool_call_cancelled: missing tool result"

  function StandInEnvelope(tc: ToolCall): Value {
    Obj([
      Field("content", Str("PATCHED_TOOL_CALL: Tool call " + tc.name + " (" + tc.id
                           + ") was cancelled - missing tool result.")),
      Field("error", Str(MISSING_RESULT)),
      Field("output", Null),
      Field("status", Str("patched")),
      Field("tool_call_id", Str(tc.id)),
      Field("tool_name", Str(tc.name))])
  }

  /** The tool message that stands in for a missing result. */
  function StandIn(codec: Codec, tc: ToolCall): Message {
    Message("tool", codec.render(StandInEnvelope(tc)), None, None, Some(tc.id), Some(tc.name), Some("patched"))
  }

  function StandIns(codec: Codec, calls: seq<ToolCall>): (out: seq<Message>)
    ensures |out| == |calls|
    ensures forall k :: 0 <= k < |calls| ==> out[k] == StandIn(codec, calls[k])
  {
    if calls == [] then [] else [StandIn(codec, calls[0])] + StandIns(codec, calls[1..])
  }

  /** Every message, followed by stand-ins for its unanswered calls. */
  function Patched(codec: Codec, messages: seq<Message>): seq<Message> {
    if messages == [] then []
    else [messages[0]] + StandIns(codec, Unanswered(CallsOf(messages[0]), messages[1..]))
         + Patched(codec, messages[1..])
  }

  method PatchDanglingToolCalls(codec: Codec, messages: seq<Message>) returns (out: seq<Message>)
    ensures out == Patched(codec, messages)
  {
    if messages == [] {
      return messages;
    }
    out := [];
    var n := |messages|;
    ghost var total := Patched(codec, messages);
    assert messages[0..] == messages && messages[n..] == [];
    for i := 0 to n
      invariant out + Patched(codec, messages[i..]) == total
    {
      var msg := messages[i];
      PatchedStep(codec, messages, i, out);
      out := out + [msg];
      if msg.toolCalls.Some? {
        out := AppendStandIns(codec, messages, i, msg.toolCalls.value, out);
      }
    }
  }

  /** The inner loop: one stand-in for each call of message `i` that nothing later answers. */
  method AppendStandIns(codec: Codec, messages: seq<Message>, i: nat, toolCalls: seq<ToolCall>, before: seq<Message>)
    returns (out: seq<Message>)
    requires i < |messages|
    ensures out == before + StandIns(codec, Unanswered(toolCalls, messages[i + 1..]))
  {
    out := before;
    ghost var rest := messages[i + 1..];
    for j := 0 to |toolCalls|
      invariant before + StandIns(codec, Unanswered(toolCalls, rest))
                == out + StandIns(codec, Unanswered(toolCalls[j..], rest))
    {
      var tc := toolCalls[j];
      var answered := AnswersAfter(messages, i, tc.id);
      StandInsStep(codec, toolCalls, j, rest, out);
      if !answered {
        out := out + [StandIn(codec, tc)];
      }
    }
  }

  /** One turn of the outer loop, on the specification. */
  lemma PatchedStep(codec: Codec, messages: seq<Message>, i: nat, before: seq<Message>)
    requires i < |messages|
    ensures before + Patched(codec, messages[i..])
            == before + [messages[i]] + StandIns(codec, Unanswered(CallsOf(messages[i]), messages[i + 1..]))
               + Patched(codec, messages[i + 1..])
    ensures messages[i].toolCalls.None? ==>
              before + Patched(codec, messages[i..]) == before + [messages[i]] + Patched(codec, messages[i + 1..])
  {
    var m, rest := messages[i], messages[i + 1..];
    var mid := StandIns(codec, Unanswered(CallsOf(m), rest));
    assert messages[i..][0] == m && messages[i..][1..] == rest;
    Regroup(before, [m], mid, Patched(codec, rest));
    if m.toolCalls.None? {
      assert mid == [];
    }
  }

  lemma Regroup<T>(a: seq<T>, b: seq<T>, c: seq<T>, d: seq<T>)
    ensures a + (b + c + d) == a + b + c + d
    ensures c == [] ==> a + (b + c + d) == a + b + d
  {
  }

  /** One turn of the inner loop, on the specification. */
  lemma StandInsStep(codec: Codec, calls: seq<ToolCall>, j: nat, rest: seq<Message>, before: seq<Message>)
    requires j < |calls|
    ensures before + StandIns(codec, Unanswered(calls[j..], rest))
            == (if Answered(rest, calls[j].id) then before else before + [StandIn(codec, calls[j])])
               + StandIns(codec, Unanswered(calls[j + 1..], rest))
  {
    assert calls[j..][0] == calls[j] && calls[j..][1..] == calls[j + 1..];
    var tail := Unanswered(calls[j + 1..], rest);
    assert ([calls[j]] + tail)[1..] == tail;
  }

  /** `messages.iter().skip(i + 1).any(..)` */
  method AnswersAfter(messages: seq<Message>, i: nat, id: string) returns (found: bool)
    requires i < |messages|
    ensures found <==> Answered(messages[i + 1..], id)
  {
    var rest := messages[i + 1..];
    for k := 0 to |rest|
      invariant forall j :: 0 <= j < k ==> !(rest[j].role == "tool" && rest[j].toolCallId == Some(id))
    {
      if rest[k].role == "tool" && rest[k].toolCallId == Some(id) {
        return true;
      }
    }
    return false;
  }

  // ----- what the repair promises -----

  /** A call of message `i` that no later tool message answers. */
  ghost predicate Dangling(messages: seq<Message>, i: nat, id: string) {
    && i < |messages|
    && (exists c :: c in CallsOf(messages[i]) && c.id == id)
    && !Answered(messages[i + 1..], id)
  }

  ghost predicate NothingDangling(messages: seq<Message>) {
    forall i: nat, id :: !Dangling(messages, i, id)
  }

  /** The output position of input message `i`. */
  ghost function PositionOf(codec: Codec, messages: seq<Message>, i: nat): nat
    requires i <= |messages|
  {
    if i == 0 then 0
    else 1 + |Unanswered(CallsOf(messages[0]), messages[1..])| + PositionOf(codec, messages[1..], i - 1)
  }

  lemma {:induction false} UnansweredMembers(calls: seq<ToolCall>, rest: seq<Message>)
    ensures forall c :: c in Unanswered(calls, rest) <==> c in calls && !Answered(rest, c.id)
    ensures |Unanswered(calls, rest)| <= |calls|
  {
    if calls != [] {
      UnansweredMembers(calls[1..], rest);
    }
  }

  lemma AnsweredSplit(a: seq<Message>, b: seq<Message>, id: string)
    ensures Answered(a + b, id) <==> Answered(a, id) || Answered(b, id)
  {
    if Answered(a, id) {
      var k :| 0 <= k < |a| && a[k].role == "tool" && a[k].toolCallId == Some(id);
      assert (a + b)[k] == a[k];
    }
    if Answered(b, id) {
      var k :| 0 <= k < |b| && b[k].role == "tool" && b[k].toolCallId == Some(id);
      assert (a + b)[|a| + k] == b[k];
    }
  }

  /** A message is dangling in `[m] + rest` exactly when it is unanswered in front or dangling behind. */
  lemma DanglingCons(m: Message, rest: seq<Message>)
    ensures NothingDangling([m] + rest) <==>
            NothingDangling(rest) && forall c :: c in CallsOf(m) ==> Answered(rest, c.id)
  {
    var all := [m] + rest;
    assert all[1..] == rest;
    if NothingDangling(all) {
      forall i: nat, id ensures !Dangling(rest, i, id) {
        if i < |rest| {
          assert all[i + 1] == rest[i] && all[i + 2..] == rest[i + 1..];
          assert !Dangling(all, i + 1, id);
        }
      }
      forall c | c in CallsOf(m) ensures Answered(rest, c.id) {
        assert !Dangling(all, 0, c.id);
      }
    }
    if NothingDangling(rest) && forall c :: c in CallsOf(m) ==> Answered(rest, c.id) {
      forall i: nat, id ensures !Dangling(all, i, id) {
        if 0 < i < |all| {
          assert all[i] == rest[i - 1] && all[i + 1..] == rest[i..];
          assert !Dangling(rest, i - 1, id);
        }
      }
    }
  }

  /** Stand-ins carry no calls, so they never dangle themselves. */
  lemma {:induction false} StandInsDontDangle(codec: Codec, calls: seq<ToolCall>, rest: seq<Message>)
    requires NothingDangling(rest)
    ensures NothingDangling(StandIns(codec, calls) + rest)
  {
    if calls == [] {
      assert StandIns(codec, calls) + rest == rest;
    } else {
      StandInsDontDangle(codec, calls[1..], rest);
      var tail := StandIns(codec, calls[1..]) + rest;
      assert StandIns(codec, calls) + rest == [StandIn(codec, calls[0])] + tail;
      DanglingCons(StandIn(codec, calls[0]), tail);
    }
  }

  /** Answers in a history survive its repair. */
  lemma {:induction false} PatchKeepsAnswers(codec: Codec, messages: seq<Message>, id: string)
    requires Answered(messages, id)
    ensures Answered(Patched(codec, messages), id)
  {
    var head := [messages[0]];
    var mid := StandIns(codec, Unanswered(CallsOf(messages[0]), messages[1..]));
    assert messages == head + messages[1..];
    AnsweredSplit(head, messages[1..], id);
    AnsweredSplit(head + mid, Patched(codec, messages[1..]), id);
    AnsweredSplit(head, mid, id);
    if Answered(messages[1..], id) {
      PatchKeepsAnswers(codec, messages[1..], id);
    }
  }

  /** Completeness: after the repair every tool call has a later tool message with its id. */
  lemma {:induction false} PatchCompletes(codec: Codec, messages: seq<Message>)
    ensures NothingDangling(Patched(codec, messages))
  {
    if messages != [] {
      var m, rest := messages[0], messages[1..];
      var missing := Unanswered(CallsOf(m), rest);
      PatchCompletes(codec, rest);
      StandInsDontDangle(codec, missing, Patched(codec, rest));
      var tail := StandIns(codec, missing) + Patched(codec, rest);
      assert Patched(codec, messages) == [m] + tail;
      UnansweredMembers(CallsOf(m), rest);
      forall c | c in CallsOf(m) ensures Answered(tail, c.id) {
        AnsweredSplit(StandIns(codec, missing), Patched(codec, rest), c.id);
        if Answered(rest, c.id) {
          PatchKeepsAnswers(codec, rest, c.id);
        } else {
          var k :| 0 <= k < |missing| && missing[k] == c;
          assert StandIns(codec, missing)[k] == StandIn(codec, c);
        }
      }
      DanglingCons(m, tail);
    }
  }

  lemma {:induction false} NothingMissing(calls: seq<ToolCall>, rest: seq<Message>)
    ensures Unanswered(calls, rest) == [] <==> forall c :: c in calls ==> Answered(rest, c.id)
  {
    UnansweredMembers(calls, rest);
    if Unanswered(calls, rest) != [] {
      assert Unanswered(calls, rest)[0] in Unanswered(calls, rest);
    }
  }

  lemma {:induction false} PatchNeverShrinks(codec: Codec, messages: seq<Message>)
    ensures |Patched(codec, messages)| >= |messages|
  {
    if messages != [] {
      PatchNeverShrinks(codec, messages[1..]);
    }
  }

  /** The repair leaves a history alone exactly when nothing in it dangles. */
  lemma {:induction false} PatchFixesOnlyDangling(codec: Codec, messages: seq<Message>)
    ensures Patched(codec, messages) == messages <==> NothingDangling(messages)
  {
    if messages != [] {
      var m, rest := messages[0], messages[1..];
      assert messages == [m] + rest;
      PatchFixesOnlyDangling(codec, rest);
      PatchNeverShrinks(codec, rest);
      NothingMissing(CallsOf(m), rest);
      DanglingCons(m, rest);
      var missing := Unanswered(CallsOf(m), rest);
      if Patched(codec, messages) == messages {
        assert missing == [];
        assert Patched(codec, messages)[1..] == Patched(codec, rest);
      }
    }
  }

  lemma PatchIdempotent(codec: Codec, messages: seq<Message>)
    ensures Patched(codec, Patched(codec, messages)) == Patched(codec, messages)
  {
    PatchCompletes(codec, messages);
    PatchFixesOnlyDangling(codec, Patched(codec, messages));
  }

  lemma SliceShift<T>(front: seq<T>, tail: seq<T>, p: nat, q: nat)
    requires p < q <= |tail|
    ensures (front + tail)[|front| + p] == tail[p]
    ensures (front + tail)[|front| + p + 1..|front| + q] == tail[p + 1..q]
  {
  }

  /** Positions ascend from the first message to the end of the output. */
  lemma {:induction false} PositionsAscend(codec: Codec, messages: seq<Message>, i: nat)
    requires i < |messages|
    ensures PositionOf(codec, messages, i) < PositionOf(codec, messages, i + 1) <= |Patched(codec, messages)|
    ensures PositionOf(codec, messages, |messages|) == |Patched(codec, messages)|
  {
    if |messages| > 1 {
      PositionsAscend(codec, messages[1..], if i > 0 then i - 1 else 0);
    }
  }

  /** What one message and its stand-ins put in front of the rest. */
  ghost function Head(codec: Codec, messages: seq<Message>): seq<Message>
    requires messages != []
  {
    [messages[0]] + StandIns(codec, Unanswered(CallsOf(messages[0]), messages[1..]))
  }

  lemma PositionShifts(codec: Codec, messages: seq<Message>, i: nat)
    requires 0 < i <= |messages|
    ensures Patched(codec, messages) == Head(codec, messages) + Patched(codec, messages[1..])
    ensures PositionOf(codec, messages, i) == |Head(codec, messages)| + PositionOf(codec, messages[1..], i - 1)
    ensures |Head(codec, messages)| == 1 + |Unanswered(CallsOf(messages[0]), messages[1..])|
  {
  }

  /** Message `i` stands at its position, and its stand-ins fill the gap up to the next one. */
  ghost predicate StandsAt(codec: Codec, messages: seq<Message>, i: nat, out: seq<Message>, p: nat, q: nat)
    requires i < |messages|
  {
    && p < q <= |out|
    && out[p] == messages[i]
    && out[p + 1..q] == StandIns(codec, Unanswered(CallsOf(messages[i]), messages[i + 1..]))
  }

  lemma FirstStandsAt(codec: Codec, messages: seq<Message>)
    requires messages != []
    ensures StandsAt(codec, messages, 0, Patched(codec, messages), 0, PositionOf(codec, messages, 1))
  {
    PositionShifts(codec, messages, 1);
    var head, tail := Head(codec, messages), Patched(codec, messages[1..]);
    assert PositionOf(codec, messages[1..], 0) == 0;
    assert (head + tail)[1..|head|] == head[1..];
  }

  lemma StandsAtShift(codec: Codec, messages: seq<Message>, i: nat, head: seq<Message>, tail: seq<Message>, p: nat,
                      q: nat)
    requires 0 < i < |messages| && StandsAt(codec, messages[1..], i - 1, tail, p, q)
    ensures StandsAt(codec, messages, i, head + tail, |head| + p, |head| + q)
  {
    assert messages[i + 1..] == messages[1..][i..];
    SliceShift(head, tail, p, q);
  }

  lemma StandsAtBehindHead(codec: Codec, messages: seq<Message>, i: nat, tail: seq<Message>, p: nat, q: nat)
    requires 0 < i < |messages| && StandsAt(codec, messages[1..], i - 1, tail, p, q)
    requires tail == Patched(codec, messages[1..])
    requires p == PositionOf(codec, messages[1..], i - 1) && q == PositionOf(codec, messages[1..], i)
    ensures StandsAt(codec, messages, i, Patched(codec, messages), PositionOf(codec, messages, i),
                     PositionOf(codec, messages, i + 1))
  {
    var head := Head(codec, messages);
    PositionShifts(codec, messages, i);
    PositionShifts(codec, messages, i + 1);
    StandsAtShift(codec, messages, i, head, tail, p, q);
  }

  /**
   * Minimality: input message `i` sits at `PositionOf(i)`, and what stands between it and
   * the next input message is one stand-in for each of its unanswered calls, in call order.
   * Deleting the stand-ins therefore gives the input back.
   */
  lemma {:induction false} PatchInsertsOnlyStandIns(codec: Codec, messages: seq<Message>, i: nat)
    requires i < |messages|
    ensures StandsAt(codec, messages, i, Patched(codec, messages), PositionOf(codec, messages, i),
                     PositionOf(codec, messages, i + 1))
    decreases i
  {
    if i == 0 {
      FirstStandsAt(codec, messages);
    } else {
      var rest := messages[1..];
      PatchInsertsOnlyStandIns(codec, rest, i - 1);
      StandsAtBehindHead(codec, messages, i, Patched(codec, rest), PositionOf(codec, rest, i - 1),
                         PositionOf(codec, rest, i));
    }
  }

  /** A stand-in reads back as a result of its call that says it was cancelled. */
  lemma StandInReadsBack(codec: Codec, tc: ToolCall)
    requires RoundTrips(codec) && !Blank(tc.id)
    ensures ResultOf(codec, StandIn(codec, tc))
            == Some(ToolResultRecord(tc.name, Some(tc.id), Null, Some(MISSING_RESULT), Some("patched")))
  {
    var envelope := StandInEnvelope(tc);
    assert codec.parse(codec.render(envelope)) == Some(envelope);
    LookupFirst(envelope.fields, "error", 1);
    LookupFirst(envelope.fields, "output", 2);
  }

  /** The middleware's view: normalise, then patch. Doing it twice is doing it once. */
  function RepairedView(codec: Codec, messages: seq<Message>): seq<Message> {
    Patched(codec, Normalized(codec, messages))
  }

  lemma {:induction false} NormalizedSplit(codec: Codec, a: seq<Message>, b: seq<Message>)
    ensures Normalized(codec, a + b) == Normalized(codec, a) + Normalized(codec, b)
  {
  }

  lemma HeadIsNormal(codec: Codec, messages: seq<Message>)
    requires messages != [] && NormalizeMessage(codec, messages[0]) == messages[0]
    ensures Normalized(codec, Head(codec, messages)) == Head(codec, messages)
  {
    var head := Head(codec, messages);
    forall k | 0 <= k < |head| ensures NormalizeMessage(codec, head[k]) == head[k] {
    }
  }

  lemma {:induction false} NormalizedKeepsPatched(codec: Codec, messages: seq<Message>)
    requires Normalized(codec, messages) == messages
    ensures Normalized(codec, Patched(codec, messages)) == Patched(codec, messages)
  {
    if messages != [] {
      var rest := messages[1..];
      assert Normalized(codec, messages)[1..] == Normalized(codec, rest);
      NormalizedKeepsPatched(codec, rest);
      assert NormalizeMessage(codec, messages[0]) == messages[0];
      HeadIsNormal(codec, messages);
      NormalizedSplit(codec, Head(codec, messages), Patched(codec, rest));
      PositionShifts(codec, messages, 1);
    }
  }

  lemma RepairedViewIdempotent(codec: Codec, messages: seq<Message>)
    ensures RepairedView(codec, RepairedView(codec, messages)) == RepairedView(codec, messages)
  {
    NormalizeIdempotent(codec, messages);
    NormalizedKeepsPatched(codec, Normalized(codec, messages));
    PatchIdempotent(codec, Normalized(codec, messages));
  }

  // ----- normalize_provider_tool_calls -----

  function NormalizeProviderCall(codec: Codec, call: ProviderToolCall, nextId: nat): (ProviderToolCall, nat) {
    var named := if Blank(call.toolName) then call.(toolName := "unknown") else call;
    var c := if named.callId.None? then named.(callId := Some(FreshId(nextId))) else named;
    var next := if named.callId.None? then nextId + 1 else nextId;
    match c.arguments
    case Null => (c.(arguments := Obj([])), next)
    case Str(s) =>
      var parsed := codec.parse(s);
      (if parsed.Some? && parsed.value.Obj? then c.(arguments := parsed.value) else c, next)
    case _ => (c, next)
  }

  function NormalizedCalls(codec: Codec, calls: seq<ProviderToolCall>, nextId: nat): (seq<ProviderToolCall>, nat) {
    if calls == [] then ([], nextId)
    else
      var (c, next) := NormalizeProviderCall(codec, calls[0], nextId);
      var (rest, last) := NormalizedCalls(codec, calls[1..], next);
      ([c] + rest, last)
  }

  method NormalizeProviderToolCalls(codec: Codec, calls: seq<ProviderToolCall>, nextId0: nat)
    returns (out: seq<ProviderToolCall>, nextId: nat)
    ensures out == NormalizedCalls(codec, calls, nextId0).0
    ensures nextId == NormalizedCalls(codec, calls, nextId0).1
  {
    ghost var (total, last) := NormalizedCalls(codec, calls, nextId0);
    out, nextId := [], nextId0;
    for k := 0 to |calls|
      invariant |out| == k <= |total| && out == total[..k]
      invariant NormalizedCalls(codec, calls[k..], nextId) == (total[k..], last)
    {
      NormalizedCallsStep(codec, calls, k, nextId, total, last);
      var call;
      call, nextId := NormalizeOne(codec, calls[k], nextId);
      out := out + [call];
    }
  }

  /** The loop body: fill in a name, an id and object arguments where the provider left them out. */
  method NormalizeOne(codec: Codec, call0: ProviderToolCall, nextId0: nat)
    returns (call: ProviderToolCall, nextId: nat)
    ensures (call, nextId) == NormalizeProviderCall(codec, call0, nextId0)
  {
    call, nextId := call0, nextId0;
    if Blank(call.toolName) {
      call := call.(toolName := "unknown");
    }
    if call.callId.None? {
      call := call.(callId := Some(FreshId(nextId)));
      nextId := nextId + 1;
    }
    match call.arguments {
      case Null =>
        call := call.(arguments := Obj([]));
      case Str(s) =>
        var parsed := codec.parse(s);
        if parsed.Some? && parsed.value.Obj? {
          call := call.(arguments := parsed.value);
        }
      case _ =>
    }
  }

  lemma NormalizedCallsStep(codec: Codec, calls: seq<ProviderToolCall>, k: nat, nextId: nat,
                            total: seq<ProviderToolCall>, last: nat)
    requires k < |calls| && k <= |total|
    requires NormalizedCalls(codec, calls[k..], nextId) == (total[k..], last)
    ensures k < |total|
    ensures var (c, next) := NormalizeProviderCall(codec, calls[k], nextId);
            c == total[k] && NormalizedCalls(codec, calls[k + 1..], next) == (total[k + 1..], last)
  {
    assert calls[k..][1..] == calls[k + 1..];
    assert total[k..][1..] == total[k + 1..];
    assert total[k] == total[k..][0];
  }

  /** A call the provider-side normalisation would not touch. */
  predicate Settled(codec: Codec, call: ProviderToolCall) {
    && !Blank(call.toolName)
    && call.callId.Some?
    && !call.arguments.Null?
    && (call.arguments.Str? ==>
          var parsed := codec.parse(call.arguments.s); !(parsed.Some? && parsed.value.Obj?))
  }

  /** Normalising provider calls is the identity exactly on settled batches, and always produces one. */
  lemma {:induction false} SettledCallsAreFixed(codec: Codec, calls: seq<ProviderToolCall>, nextId: nat)
    ensures NormalizedCalls(codec, calls, nextId).0 == calls <==> forall c :: c in calls ==> Settled(codec, c)
    ensures (forall c :: c in calls ==> Settled(codec, c)) ==> NormalizedCalls(codec, calls, nextId).1 == nextId
  {
    if calls != [] {
      var (c, next) := NormalizeProviderCall(codec, calls[0], nextId);
      SettledCallsAreFixed(codec, calls[1..], next);
      VisibleIsNotBlank("unknown");
      assert calls == [calls[0]] + calls[1..];
      assert c == calls[0] <==> Settled(codec, calls[0]);
    }
  }

  lemma {:induction false} NormalizedCallsAreSettled(codec: Codec, calls: seq<ProviderToolCall>, nextId: nat)
    ensures var (out, last) := NormalizedCalls(codec, calls, nextId);
            && |out| == |calls| && last >= nextId
            && (forall k :: 0 <= k < |calls| ==>
                  && Settled(codec, out[k])
                  && (calls[k].callId.Some? ==> out[k].callId == calls[k].callId))
            && (forall k :: 0 <= k < |calls| && calls[k].callId.None? ==> !Blank(out[k].callId.value))
  {
    if calls != [] {
      var (c, next) := NormalizeProviderCall(codec, calls[0], nextId);
      NormalizedCallsAreSettled(codec, calls[1..], next);
      VisibleIsNotBlank("unknown");
      VisibleIsNotBlank(FreshId(nextId));
      assert Settled(codec, c);
    }
  }

  function CallsFromProvider(calls: seq<ProviderToolCall>): (out: seq<ToolCall>)
    ensures |out| == |calls|
    ensures forall k :: 0 <= k < |calls| ==>
      out[k] == ToolCall(calls[k].callId.GetOr(""), calls[k].toolName, calls[k].arguments)
  {
    if calls == [] then []
    else [ToolCall(calls[0].callId.GetOr(""), calls[0].toolName, calls[0].arguments)] + CallsFromProvider(calls[1..])
  }

  /** The calls without an id. */
  function Unnamed(calls: seq<ProviderToolCall>): set<nat> {
    set i: nat | i < |calls| && calls[i].callId.None?
  }

  lemma UnnamedLast(calls: seq<ProviderToolCall>)
    requires calls != []
    ensures var n := |calls| - 1;
            |Unnamed(calls)| == |Unnamed(calls[..n])| + if calls[n].callId.None? then 1 else 0
  {
    var n := |calls| - 1;
    assert Unnamed(calls) == Unnamed(calls[..n]) + if calls[n].callId.None? then {n} else {};
  }

  lemma {:induction false} NormalizedSnoc(codec: Codec, calls: seq<ProviderToolCall>, c: ProviderToolCall, nextId: nat)
    ensures var (out, next) := NormalizedCalls(codec, calls, nextId);
            var (c1, last) := NormalizeProviderCall(codec, c, next);
            NormalizedCalls(codec, calls + [c], nextId).0 == out + [c1]
            && NormalizedCalls(codec, calls + [c], nextId).1 == last
  {
    if calls == [] {
      assert calls + [c] == [c] && [c][1..] == [];
    } else {
      assert (calls + [c])[1..] == calls[1..] + [c];
      NormalizedSnoc(codec, calls[1..], c, NormalizeProviderCall(codec, calls[0], nextId).1);
    }
  }

  /** The normalised form of one call, `k` of which before it had no id. */
  predicate NormalOf(codec: Codec, call: ProviderToolCall, nextId: nat, k: nat, out: ProviderToolCall) {
    && ReadAs(codec, call.arguments, out.arguments)
    && out.toolName == (if Blank(call.toolName) then "unknown" else call.toolName)
    && out.callId == if call.callId.Some? then call.callId else Some("call-" + Decimal(nextId + k))
  }

  lemma OneIsNormal(codec: Codec, call: ProviderToolCall, nextId: nat, k: nat)
    ensures var (c, last) := NormalizeProviderCall(codec, call, nextId + k);
            NormalOf(codec, call, nextId, k, c) && last == nextId + k + if call.callId.None? then 1 else 0
  {
  }

  /** Every call is read by itself, and those without an id are numbered in order. */
  ghost predicate AllNormal(codec: Codec, calls: seq<ProviderToolCall>, nextId: nat, out: seq<ProviderToolCall>) {
    |out| == |calls|
    && forall k :: 0 <= k < |calls| ==> NormalOf(codec, calls[k], nextId, |Unnamed(calls[..k])|, out[k])
  }

  lemma OneMoreNormal(codec: Codec, calls: seq<ProviderToolCall>, c: ProviderToolCall, nextId: nat,
                      out: seq<ProviderToolCall>, c1: ProviderToolCall)
    requires AllNormal(codec, calls, nextId, out) && NormalOf(codec, c, nextId, |Unnamed(calls)|, c1)
    ensures AllNormal(codec, calls + [c], nextId, out + [c1])
  {
    var more := calls + [c];
    forall k | 0 <= k < |more| ensures NormalOf(codec, more[k], nextId, |Unnamed(more[..k])|, (out + [c1])[k]) {
      assert more[..k] == if k < |calls| then calls[..k] else calls;
    }
  }

  lemma {:induction false} NormalizedCallsAreRead(codec: Codec, calls: seq<ProviderToolCall>, nextId: nat)
    ensures AllNormal(codec, calls, nextId, NormalizedCalls(codec, calls, nextId).0)
    ensures NormalizedCalls(codec, calls, nextId).1 == nextId + |Unnamed(calls)|
  {
    if calls != [] {
      var n := |calls| - 1;
      var init, c := calls[..n], calls[n];
      assert calls == init + [c];
      NormalizedCallsAreRead(codec, init, nextId);
      var out, next := NormalizedCalls(codec, init, nextId).0, NormalizedCalls(codec, init, nextId).1;
      LastIsNormal(codec, init, c, nextId, out, next);
    }
  }

  lemma LastIsNormal(codec: Codec, init: seq<ProviderToolCall>, c: ProviderToolCall, nextId: nat,
                     out: seq<ProviderToolCall>, next: nat)
    requires out == NormalizedCalls(codec, init, nextId).0 && next == NormalizedCalls(codec, init, nextId).1
    requires AllNormal(codec, init, nextId, out) && next == nextId + |Unnamed(init)|
    ensures AllNormal(codec, init + [c], nextId, NormalizedCalls(codec, init + [c], nextId).0)
    ensures NormalizedCalls(codec, init + [c], nextId).1 == nextId + |Unnamed(init + [c])|
  {
    NormalizedSnoc(codec, init, c, nextId);
    UnnamedLast(init + [c]);
    assert (init + [c])[..|init|] == init;
    OneIsNormal(codec, c, nextId, |Unnamed(init)|);
    OneMoreNormal(codec, init, c, nextId, out, NormalizeProviderCall(codec, c, next).0);
  }
}
