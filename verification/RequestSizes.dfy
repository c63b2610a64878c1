/** How large the requests are that the provider gets when summarization is installed. */
module RequestSizes {
  import opened Wrappers
  import opened Json
  import opened Types
  import opened RunnerSpec
  import opened HookTrails
  import opened RunnerTheorems
  import opened ConversationInvariants
  import opened ProviderRequests
  import opened Summarization
  import opened SummarizationTheorems
  import opened WindowLaws

  /** Where summarization is the last hook, the others hand the history on and leave its account alone. */
  lemma {:induction false} StagesHandOn<S(!new)>(env: Env<S>, opts: Options, slots: Slots<S>,
                                                 describe: SummarizationEvent -> Value, at: nat,
                                                 stages: seq<Stage<S>>, i: nat)
    requires Installed(env, opts, slots, describe, at) && Trail(env.middlewares, StepHook, stages)
    requires i < |stages| && i <= at
    ensures stages[i].messages == stages[0].messages
    ensures SameAccount(slots.load(stages[i].state), slots.load(stages[0].state))
  {
    if i > 0 {
      StagesHandOn(env, opts, slots, describe, at, stages, i - 1);
      assert Aside(slots, env.middlewares[i - 1]) && HandsOn(env.middlewares[i - 1]);
    }
  }

  /** What a request measures at most, unless hardly anything is left to cut. */
  ghost predicate Bounded(host: Host, opts: Options, messages: seq<Message>) {
    || |messages| <= 1 + opts.minRecentMessages
    || Measure(host, messages) <= opts.maxCharBudget + opts.maxSummaryChars + |SUMMARY_TRUNCATED|
    || (opts.minRecentMessages == 0 && Measure(host, messages[|messages| - 1..]) > opts.maxCharBudget)
  }

  lemma RequestIsBounded<S(!new)>(env: Env<S>, opts: Options, slots: Slots<S>, describe: SummarizationEvent -> Value,
                                  cv: Conv<S>, from: S, x: Exchange<S>, ready: S)
    requires |env.middlewares| > 0 && Installed(env, opts, slots, describe, |env.middlewares| - 1)
    requires opts.enabled && !opts.policy.Turns?
    requires Sends(env, cv, from, x, ready) && Accounted(cv.messages, slots.load(from))
    ensures Bounded(slots.host(x.stages[|env.middlewares| - 1].state), opts, x.request.messages)
  {
    var at := |env.middlewares| - 1;
    StagesHandOn(env, opts, slots, describe, at, x.stages, at);
    var s := x.stages[at].state;
    var view := ProviderView(slots.host(s), opts, x.stages[at].messages, slots.load(s)).1;
    assert view == Ok(x.request.messages);
    EveryViewIsBounded(slots.host(s), opts, x.stages[at].messages, slots.load(s));
  }

  /**
   * With summarization as the last hook and a character budget, every first request of every turn of every run is
   * within the budget and the longest summary, unless it has only a summary and the messages that are always kept.
   */
  lemma FirstRequestsAreBounded<S(!new)>(env: Env<S>, opts: Options, slots: Slots<S>,
                                         describe: SummarizationEvent -> Value, messages: seq<Message>, state: S,
                                         inputs: seq<Input>, i: nat, sent: seq<Exchange<S>>)
    requires |env.middlewares| > 0 && Installed(env, opts, slots, describe, |env.middlewares| - 1)
    requires SameAccount(slots.load(state), Untouched(None)) && opts.enabled && !opts.policy.Turns?
    requires i < |AllTurns(env, Fresh(messages, state), inputs)|
    requires var cv := AllTurns(env, Fresh(messages, state), inputs)[i].conv;
             TurnAsks(env, cv, sent, AskProvider(env, cv)) && sent != []
    ensures Bounded(slots.host(sent[0].stages[|env.middlewares| - 1].state), opts, sent[0].request.messages)
  {
    var at := |env.middlewares| - 1;
    AccountSurvives(env, opts, slots, describe, at);
    AccountStarts(env, opts, slots, describe, at);
    EveryTurnKeeps(env, UntouchedClaim(slots), AccountClaim(slots), Fresh(messages, state), inputs, i);
    var cv := AllTurns(env, Fresh(messages, state), inputs)[i].conv;
    RequestIsBounded(env, opts, slots, describe, cv, cv.state, sent[0], sent[0].before);
  }
}
