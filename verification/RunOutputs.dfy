/** What a turn writes into the history, and what a run reports when it ends. */
module RunOutputs {
  import opened Wrappers
  import opened Types
  import opened PatchToolCalls
  import opened RunnerSpec
  import opened RunnerInvariants
  import opened RunnerTheorems

  /** The output has the ledgers and the state of the runner it leaves, and says whether a call is held. */
  ghost predicate Reflects<S>(r: Runner<S>, out: RunOutput<S>) {
    && out.toolCalls == r.conv.calls && out.toolResults == r.conv.results && out.state == r.conv.state
    && (out.status.Interrupted? <==> r.pending.Some?)
    && out.interrupts == (if r.pending.Some? then [r.pending.value.interrupt] else [])
    && (out.error.Some? <==> out.status.Error?)
    && (!out.status.Completed? ==> out.finalText == "")
  }

  ghost predicate Fails<S>(out: RunOutput<S>, error: RuntimeError, step: nat, reason: string) {
    out.error == Some(error) && out.trace == Some(Trace(step, reason))
  }

  /** How the turn of this runner, the one of this number, ends a run. */
  ghost predicate EndsAt<S>(env: Env<S>, last: Runner<S>, step: nat, out: RunOutput<S>) {
    match AskProvider(env, last.conv)
    case Abort(_, error, reason) => Fails(out, error, step, reason)
    case Answer(_, AssistantMessage(_)) => false
    case Answer(_, FinalText(text)) =>
      out.status.Completed? && out.finalText == text && out.trace == Some(Trace(step, "final_text"))
    case Answer(_, StepError(code, message)) =>
      Fails(out, RuntimeError(code, message), step, "provider_step_error")
    case Answer(cv, SkillCall(name, input, callId)) =>
      (match env.skill(name, input, callId, cv.state).1
       case Err(e) => Fails(out, e, step, "skill_error")
       case Ok(_) => out.status.Interrupted?)
    case Answer(_, ToolCalls(_)) => out.status.Interrupted?
  }

  /** A turn after which the run goes on. */
  ghost predicate GoesOn<S>(env: Env<S>, r: Runner<S>) {
    Turn(env, r, 0).Go?
  }

  /** A run of so many turns ends at the last of them, or at the limit when each of them went on. */
  ghost predicate EndsAfter<S>(env: Env<S>, last: Runner<S>, count: nat, out: RunOutput<S>) {
    if count >= env.maxSteps && GoesOn(env, last) then AtLimit(env, out)
    else count > 0 && EndsAt(env, last, count - 1, out)
  }

  ghost predicate AtLimit<S>(env: Env<S>, out: RunOutput<S>) {
    Fails(out, RuntimeError("max_steps_exceeded", "runtime exceeded max_steps"), env.maxSteps, "max_steps_exceeded")
  }

  /** How a run ends that has these turns still to go, `k` of them being behind it. */
  ghost predicate Ends<S>(env: Env<S>, turns: seq<Runner<S>>, k: nat, out: RunOutput<S>) {
    if turns == [] then k >= env.maxSteps && AtLimit(env, out)
    else EndsAfter(env, turns[|turns| - 1], k + |turns|, out)
  }

  /** The number of a turn only shows in the trace. */
  lemma GoIgnoresNumber<S(!new)>(env: Env<S>, r: Runner<S>, k: nat)
    ensures Turn(env, r, k).Go? <==> GoesOn(env, r)
  {
  }

  lemma TurnReports<S(!new)>(env: Env<S>, r: Runner<S>, k: nat)
    requires r.pending.None?
    ensures match Turn(env, r, k)
            case Stop(r1, out) => Reflects(r1, out) && EndsAt(env, r, k, out)
            case Go(r1) => r1.pending.None?
  {
  }

  lemma {:induction false} LoopReports<S(!new)>(env: Env<S>, r: Runner<S>, k: nat)
    requires r.pending.None? && k <= env.maxSteps
    ensures var (r1, out) := RunLoop(env, r, k);
            Reflects(r1, out) && Ends(env, Turns(env, r, k), k, out)
    decreases env.maxSteps - k
  {
    if k < env.maxSteps {
      var t, k1 := LoopStep(env, r, k);
      TurnsUnfold(env, r, k, k1);
      TurnReports(env, r, k);
      GoIgnoresNumber(env, r, k);
      if t.Go? {
        LoopReports(env, t.runner, k1);
        EndsLater(env, r, Turns(env, t.runner, k1), k, k1, RunLoop(env, r, k).1);
      }
    }
  }

  lemma EndsLater<S(!new)>(env: Env<S>, first: Runner<S>, turns: seq<Runner<S>>, k: nat, k1: nat, out: RunOutput<S>)
    requires k1 == k + 1 && GoesOn(env, first) && Ends(env, turns, k1, out)
    ensures Ends(env, [first] + turns, k, out)
  {
    var all := [first] + turns;
    assert all[|all| - 1] == if turns == [] then first else turns[|turns| - 1];
    assert k + |all| == k1 + |turns|;
  }

  /**
   * Whatever a run ends with is reported: the ledgers and the state as they are then, the held call, the final text
   * or the error with its step; and it ends at a turn that says so, at the limit, or before the first turn.
   */
  lemma RunReports<S(!new)>(env: Env<S>, r: Runner<S>)
    requires r.pending.None?
    ensures var (r1, out) := Run(env, r);
            && Reflects(r1, out)
            && if LoopStart(env, r).Some? then Ends(env, RunTurns(env, r), 0, out)
               else
                 && out.error.Some? && out.error.value.code == "middleware_error"
                 && out.trace == Some(Trace(0, "middleware_before_run_error"))
  {
    var start := LoopStart(env, r);
    if start.Some? {
      LoopReports(env, start.value, 0);
    }
  }

  // ----- what a turn writes -----

  /** The assistant message that announces a batch has each call in its normal form, in order. */
  ghost predicate Announces(codec: Codec, m: Message, calls: seq<ProviderToolCall>, nextId: nat) {
    && m == Message("assistant", "", None, m.toolCalls, None, None, None)
    && m.toolCalls.Some? && |m.toolCalls.value| == |calls|
    && forall k :: 0 <= k < |calls| ==>
         var c := m.toolCalls.value[k];
         NormalOf(codec, calls[k], nextId, |Unnamed(calls[..k])|, ProviderToolCall(c.name, c.arguments, Some(c.id)))
  }

  lemma AnnouncementIsNormal(codec: Codec, calls: seq<ProviderToolCall>, nextId: nat)
    ensures Announces(codec, Announce(NormalizedCalls(codec, calls, nextId).0), calls, nextId)
  {
    var out := NormalizedCalls(codec, calls, nextId).0;
    NormalizedCallsAreRead(codec, calls, nextId);
    forall k | 0 <= k < |calls|
      ensures var c := Announce(out).toolCalls.value[k];
              ProviderToolCall(c.name, c.arguments, Some(c.id)) == out[k]
    {
      assert NormalOf(codec, calls[k], nextId, |Unnamed(calls[..k])|, out[k]);
    }
  }

  /**
   * A text of the assistant is added to the history, a batch of calls is announced before anything else is added, and
   * what else the provider answers, or that a hook fails, adds nothing by itself.
   */
  lemma TurnWrites<S(!new)>(env: Env<S>, r: Runner<S>, k: nat)
    requires r.pending.None?
    ensures var after := Turn(env, r, k).runner.conv.messages;
            match AskProvider(env, r.conv)
            case Answer(_, AssistantMessage(text)) =>
              after == r.conv.messages + [Message("assistant", text, None, None, None, None, None)]
            case Answer(cv, ToolCalls(calls)) =>
              KeepsMessages(env) ==>
                exists m :: Announces(env.codec, m, calls, cv.nextId) && r.conv.messages + [m] <= after
            case Answer(_, SkillCall(_, _, _)) => KeepsMessages(env) ==> r.conv.messages <= after
            case _ => after == r.conv.messages
  {
    AskingIsElsewhere(env, r.conv);
    var asked := AskProvider(env, r.conv);
    if asked.Answer? && asked.step.SkillCall? {
      TurnGrows(env, r, k);
    } else if asked.Answer? && asked.step.ToolCalls? {
      AnnouncementIsNormal(env.codec, asked.step.calls, asked.conv.nextId);
      BatchFollowsAnnouncement(env, r.(conv := asked.conv), asked.step.calls, k);
    }
  }

  lemma BatchFollowsAnnouncement<S(!new)>(env: Env<S>, r: Runner<S>, calls0: seq<ProviderToolCall>, k: nat)
    ensures var announced := r.conv.messages + [Announce(NormalizedCalls(env.codec, calls0, r.conv.nextId).0)];
            KeepsMessages(env) ==> announced <= Act(env, r, ToolCalls(calls0), k).runner.conv.messages
  {
    var (calls, nextId) := NormalizedCalls(env.codec, calls0, r.conv.nextId);
    var cv := r.conv.(nextId := nextId, messages := r.conv.messages + [Announce(calls)]);
    ExecQueueGrows(env, TodoCount(calls) > 1, calls, cv);
  }
}
