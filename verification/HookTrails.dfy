/** The middlewares' hooks, one after another: what each gets is what the one before it has left. */
module HookTrails {
  import opened Wrappers
  import opened Json
  import opened Types
  import opened ToolCompat
  import opened RunnerSpec

  // ----- hooks that rewrite the history -----

  /** A hook that rewrites a history, before the first run or before a provider step. */
  type Hook<!S> = (seq<Message>, S) -> (S, Result<seq<Message>, string>)

  function StartHook<S>(m: Middleware<S>): Hook<S> {
    m.beforeRun
  }

  function StepHook<S>(m: Middleware<S>): Hook<S> {
    m.beforeProviderStep
  }

  /** The history as one hook leaves it to the next, and the state. */
  datatype Stage<S> = Stage(messages: seq<Message>, state: S)

  /** Each hook rewrites what the one before it has left. */
  ghost predicate Trail<S>(mws: seq<Middleware<S>>, hook: Middleware<S> -> Hook<S>, stages: seq<Stage<S>>) {
    && 0 < |stages| <= |mws| + 1
    && forall i :: 0 <= i < |stages| - 1 ==>
         var r := hook(mws[i])(stages[i].messages, stages[i].state);
         r.0 == stages[i + 1].state && r.1 == Ok(stages[i + 1].messages)
  }

  /** All hooks have rewritten the history, the last of them to this one. */
  ghost predicate Shown<S>(mws: seq<Middleware<S>>, hook: Middleware<S> -> Hook<S>, stages: seq<Stage<S>>,
                           from: Stage<S>, to: Stage<S>)
  {
    Trail(mws, hook, stages) && |stages| == |mws| + 1 && stages[0] == from && stages[|mws|] == to
  }

  /** The hook after the last stage fails. */
  ghost predicate HookFails<S>(mws: seq<Middleware<S>>, hook: Middleware<S> -> Hook<S>, stages: seq<Stage<S>>,
                               from: Stage<S>, state: S, e: string)
  {
    && Trail(mws, hook, stages) && |stages| <= |mws| && stages[0] == from
    && var last := stages[|stages| - 1];
       var r := hook(mws[|stages| - 1])(last.messages, last.state);
       r.0 == state && r.1 == Err(e)
  }

  /** The hooks before a provider step run one after another, up to one that fails. */
  lemma {:induction false} StepIsTrail<S>(mws: seq<Middleware<S>>, from: Stage<S>) returns (stages: seq<Stage<S>>)
    ensures var (state, r) := BeforeStepChain(mws, from.messages, from.state);
            match r
            case Ok(messages) => Shown(mws, StepHook, stages, from, Stage(messages, state))
            case Err(e) => HookFails(mws, StepHook, stages, from, state, e)
    decreases |mws|
  {
    stages := [from];
    if mws != [] {
      var (state, r) := mws[0].beforeProviderStep(from.messages, from.state);
      if r.Ok? {
        var rest := StepIsTrail(mws[1..], Stage(r.value, state));
        stages := [from] + rest;
        TrailExtends(mws, StepHook, from, rest);
      }
    }
  }

  /** So do the hooks before the first run. */
  lemma {:induction false} StartIsTrail<S>(mws: seq<Middleware<S>>, from: Stage<S>) returns (stages: seq<Stage<S>>)
    ensures var (state, r) := BeforeRunChain(mws, from.messages, from.state);
            match r
            case Ok(messages) => Shown(mws, StartHook, stages, from, Stage(messages, state))
            case Err(e) => HookFails(mws, StartHook, stages, from, state, e)
    decreases |mws|
  {
    stages := [from];
    if mws != [] {
      var (state, r) := mws[0].beforeRun(from.messages, from.state);
      if r.Ok? {
        var rest := StartIsTrail(mws[1..], Stage(r.value, state));
        stages := [from] + rest;
        TrailExtends(mws, StartHook, from, rest);
      }
    }
  }

  lemma TrailExtends<S>(mws: seq<Middleware<S>>, hook: Middleware<S> -> Hook<S>, from: Stage<S>, rest: seq<Stage<S>>)
    requires mws != [] && Trail(mws[1..], hook, rest)
    requires var r := hook(mws[0])(from.messages, from.state);
             r.0 == rest[0].state && r.1 == Ok(rest[0].messages)
    ensures Trail(mws, hook, [from] + rest)
  {
    var stages := [from] + rest;
    forall i | 0 <= i < |stages| - 1
      ensures var r := hook(mws[i])(stages[i].messages, stages[i].state);
              r.0 == stages[i + 1].state && r.1 == Ok(stages[i + 1].messages)
    {
      if i > 0 {
        assert stages[i] == rest[i - 1] && stages[i + 1] == rest[i] && mws[i] == mws[1..][i - 1];
      }
    }
  }

  // ----- hooks that patch a provider step -----

  /** The same for the hooks that patch a step of the provider. */
  datatype Patch = Patch(step: ProviderStep, nextId: nat)

  ghost predicate PatchTrail<S>(mws: seq<Middleware<S>>, patches: seq<Patch>) {
    && 0 < |patches| <= |mws| + 1
    && forall i :: 0 <= i < |patches| - 1 ==>
         var r := mws[i].patchProviderStep(patches[i].step, patches[i].nextId);
         r.0 == patches[i + 1].nextId && r.1 == Ok(patches[i + 1].step)
  }

  ghost predicate PatchedTo<S>(mws: seq<Middleware<S>>, patches: seq<Patch>, from: Patch, to: Patch) {
    PatchTrail(mws, patches) && |patches| == |mws| + 1 && patches[0] == from && patches[|mws|] == to
  }

  ghost predicate PatchFails<S>(mws: seq<Middleware<S>>, patches: seq<Patch>, from: Patch, nextId: nat, e: string) {
    && PatchTrail(mws, patches) && |patches| <= |mws| && patches[0] == from
    && var last := patches[|patches| - 1];
       var r := mws[|patches| - 1].patchProviderStep(last.step, last.nextId);
       r.0 == nextId && r.1 == Err(e)
  }

  /** And the hooks that patch what the provider replied. */
  lemma {:induction false} PatchChainIsTrail<S>(mws: seq<Middleware<S>>, from: Patch) returns (patches: seq<Patch>)
    ensures var (nextId, r) := PatchStepChain(mws, from.step, from.nextId);
            match r
            case Ok(step) => PatchedTo(mws, patches, from, Patch(step, nextId))
            case Err(e) => PatchFails(mws, patches, from, nextId, e)
    decreases |mws|
  {
    patches := [from];
    if mws != [] {
      var (nextId, r) := mws[0].patchProviderStep(from.step, from.nextId);
      if r.Ok? {
        var rest := PatchChainIsTrail(mws[1..], Patch(r.value, nextId));
        patches := [from] + rest;
        PatchTrailExtends(mws, from, rest);
      }
    }
  }

  lemma PatchTrailExtends<S>(mws: seq<Middleware<S>>, from: Patch, rest: seq<Patch>)
    requires mws != [] && PatchTrail(mws[1..], rest)
    requires var r := mws[0].patchProviderStep(from.step, from.nextId);
             r.0 == rest[0].nextId && r.1 == Ok(rest[0].step)
    ensures PatchTrail(mws, [from] + rest)
  {
    var patches := [from] + rest;
    forall i | 0 <= i < |patches| - 1
      ensures var r := mws[i].patchProviderStep(patches[i].step, patches[i].nextId);
              r.0 == patches[i + 1].nextId && r.1 == Ok(patches[i + 1].step)
    {
      if i > 0 {
        assert patches[i] == rest[i - 1] && patches[i + 1] == rest[i] && mws[i] == mws[1..][i - 1];
      }
    }
  }

  // ----- offers -----

  /** Each middleware is offered the call as the one before it has left history and state, and passes it on. */
  ghost predicate PassedOn<S>(mws: seq<Middleware<S>>, call: ProviderToolCall, stages: seq<Stage<S>>) {
    && 0 < |stages| <= |mws| + 1
    && forall i :: 0 <= i < |stages| - 1 ==>
         var r := mws[i].handleToolCall(call, stages[i].messages, stages[i].state);
         r.0 == stages[i + 1].messages && r.1 == stages[i + 1].state && r.2 == Ok(None)
  }

  /** The middleware after the last stage takes the call, or fails at it. */
  ghost predicate TakenAfter<S>(mws: seq<Middleware<S>>, call: ProviderToolCall, stages: seq<Stage<S>>,
                                to: Stage<S>, h: HandledToolCall)
  {
    && PassedOn(mws, call, stages) && |stages| <= |mws|
    && var last := stages[|stages| - 1];
       var r := mws[|stages| - 1].handleToolCall(call, last.messages, last.state);
       && r.0 == to.messages && r.1 == to.state
       && match r.2
          case Ok(answer) => answer == Some(h)
          case Err(e) => h == HandledToolCall(Null, Some("middleware_error: " + e))
  }

  /** A call is offered to every middleware in order, up to the first that takes it or fails. */
  lemma {:induction false} OfferIsTrail<S>(mws: seq<Middleware<S>>, call: ProviderToolCall, from: Stage<S>)
    returns (stages: seq<Stage<S>>)
    ensures var (messages, state, answer) := HandleChain(mws, call, from.messages, from.state);
            && stages != [] && stages[0] == from
            && match answer
               case Some(h) => TakenAfter(mws, call, stages, Stage(messages, state), h)
               case None =>
                 PassedOn(mws, call, stages) && |stages| == |mws| + 1 && stages[|mws|] == Stage(messages, state)
    decreases |mws|
  {
    stages := [from];
    if mws != [] {
      var (messages, state, answer) := mws[0].handleToolCall(call, from.messages, from.state);
      if answer == Ok(None) {
        var rest := OfferIsTrail(mws[1..], call, Stage(messages, state));
        stages := [from] + rest;
        OfferExtends(mws, call, from, rest);
      }
    }
  }

  lemma OfferExtends<S>(mws: seq<Middleware<S>>, call: ProviderToolCall, from: Stage<S>, rest: seq<Stage<S>>)
    requires mws != [] && PassedOn(mws[1..], call, rest)
    requires var r := mws[0].handleToolCall(call, from.messages, from.state);
             r.0 == rest[0].messages && r.1 == rest[0].state && r.2 == Ok(None)
    ensures PassedOn(mws, call, [from] + rest)
  {
    var stages := [from] + rest;
    forall i | 0 <= i < |stages| - 1
      ensures var r := mws[i].handleToolCall(call, stages[i].messages, stages[i].state);
              r.0 == stages[i + 1].messages && r.1 == stages[i + 1].state && r.2 == Ok(None)
    {
      if i > 0 {
        assert stages[i] == rest[i - 1] && stages[i + 1] == rest[i] && mws[i] == mws[1..][i - 1];
      }
    }
  }

  // ----- the first run -----

  /** A first run starts from what the start hooks make of the normalised history, and from its results. */
  lemma FirstRunPrepares<S>(env: Env<S>, r: Runner<S>) returns (stages: seq<Stage<S>>)
    ensures var from := Stage(Normalized(env.codec, r.conv.messages), r.conv.state);
            match Initialize(env, r)
            case Go(r1) =>
              && Shown(env.middlewares, StartHook, stages, from, Stage(r1.opening, r1.conv.state))
              && r1.initialized && r1.conv.messages == r1.opening
              && r1.conv.results == ResultsOf(env.codec, r1.opening)
            case Stop(r1, out) =>
              && out.error.Some? && out.error.value.code == "middleware_error"
              && HookFails(env.middlewares, StartHook, stages, from, r1.conv.state, out.error.value.message)
              && r1 == r.(conv := r.conv.(messages := [], state := r1.conv.state))
  {
    stages := StartIsTrail(env.middlewares, Stage(Normalized(env.codec, r.conv.messages), r.conv.state));
  }
}
