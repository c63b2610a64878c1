/** Conversations of several runs: approving every run to its end is invisible in all of them. */
module HitlConversations {
  import opened Types
  import opened RunnerSpec
  import opened RunnerTheorems
  import opened HitlTransparency
  import opened HitlRuns

  // ----- one run from runners that are alike -----

  /** The run from here without interrupts starts, and ends before the step limit. */
  ghost predicate EndsInTime<S>(env: Env<S>, b: Runner<S>) {
    var start := LoopStart(WithoutInterrupts(env), b);
    start.Some? ==> Ends(WithoutInterrupts(env), start.value, 0)
  }

  /** The first run starts alike or fails alike. */
  lemma StartsAlike<S(!new)>(env: Env<S>, r: Runner<S>, b: Runner<S>)
    requires SameRunner(r, b) && !r.initialized
    ensures var i, j := Initialize(env, r), Initialize(WithoutInterrupts(env), b);
            && (i.Go? <==> j.Go?) && SameRunner(i.runner, j.runner) && i.runner.initialized == i.Go?
            && (i.Stop? ==> i.output == j.output)
  {
  }

  /** What can be seen at the end of a run, and whether the history has been prepared. */
  ghost function Sight<S>(x: (Runner<S>, RunOutput<S>)): (End<S>, bool) {
    (EndOf(x), x.0.initialized)
  }

  lemma AlikeInSight<S(!new)>(x: (Runner<S>, RunOutput<S>), y: (Runner<S>, RunOutput<S>))
    requires Sight(x) == Sight(y) && y.0.pending.None?
    ensures EndOf(x) == EndOf(y) && SameRunner(x.0, y.0)
  {
    assert EndOf(x).held == EndOf(y).held;
  }

  lemma LoopFromAlike<S(!new)>(env: Env<S>, r: Runner<S>, b: Runner<S>) returns (n: nat)
    requires Transparent(env) && SameRunner(r, b) && r.initialized && Ends(WithoutInterrupts(env), b, 0)
    ensures var x, y := ApproveTimes(env, RunLoop(env, r, 0), n), RunLoop(WithoutInterrupts(env), b, 0);
            EndOf(x) == EndOf(y) && SameRunner(x.0, y.0)
  {
    var view := (x: (Runner<S>, RunOutput<S>)) => Sight(x);
    n := ApprovedLoopIsTransparent(env, view, r, b, 0, 0);
    PlainLoopHoldsNothing(env, b, 0);
    var x, y := ApproveTimes(env, RunLoop(env, r, 0), n), RunLoop(WithoutInterrupts(env), b, 0);
    assert view(x) == view(y);
    AlikeInSight(x, y);
  }

  lemma RunFromAlike<S(!new)>(env: Env<S>, r: Runner<S>, b: Runner<S>) returns (n: nat)
    requires Transparent(env) && SameRunner(r, b) && EndsInTime(env, b)
    ensures var x, y := ApproveTimes(env, Run(env, r), n), Run(WithoutInterrupts(env), b);
            EndOf(x) == EndOf(y) && SameRunner(x.0, y.0)
  {
    if r.initialized {
      n := LoopFromAlike(env, r, b);
    } else {
      StartsAlike(env, r, b);
      var i, j := Initialize(env, r), Initialize(WithoutInterrupts(env), b);
      if i.Go? {
        n := LoopFromAlike(env, i.runner, j.runner);
      } else {
        n := 0;
        NoApproval(env, (i.runner, i.output));
      }
    }
  }

  // ----- conversations -----

  /** The runner after the user has said all this. */
  ghost function Say<S>(r: Runner<S>, said: seq<string>): Runner<S> {
    if said == [] then r else PushUserInput(Say(r, said[..|said| - 1]), said[|said| - 1])
  }

  lemma {:induction false} SayAlike<S(!new)>(r: Runner<S>, b: Runner<S>, said: seq<string>)
    requires SameRunner(r, b)
    ensures SameRunner(Say(r, said), Say(b, said))
  {
    if said != [] {
      SayAlike(r, b, said[..|said| - 1]);
    }
  }

  /** How the runs of a conversation end without interrupts; before each run the user says something, or nothing. */
  ghost function PlainEnds<S>(env: Env<S>, b: Runner<S>, talk: seq<seq<string>>): seq<End<S>>
    decreases |talk|
  {
    if talk == [] then []
    else
      var y := Run(WithoutInterrupts(env), Say(b, talk[0]));
      [EndOf(y)] + PlainEnds(env, y.0, talk[1..])
  }

  /** How they end with interrupts and so many approvals after each run. */
  ghost function ReviewedEnds<S>(env: Env<S>, r: Runner<S>, talk: seq<seq<string>>, approvals: seq<nat>): seq<End<S>>
    requires |approvals| == |talk|
    decreases |talk|
  {
    if talk == [] then []
    else
      var x := ApproveTimes(env, Run(env, Say(r, talk[0])), approvals[0]);
      [EndOf(x)] + ReviewedEnds(env, x.0, talk[1..], approvals[1..])
  }

  /** Every run of the conversation without interrupts ends before the step limit. */
  ghost predicate EachEndsInTime<S>(env: Env<S>, b: Runner<S>, talk: seq<seq<string>>)
    decreases |talk|
  {
    talk != [] ==>
      && EndsInTime(env, Say(b, talk[0]))
      && EachEndsInTime(env, Run(WithoutInterrupts(env), Say(b, talk[0])).0, talk[1..])
  }

  lemma {:induction false} TalkFromAlike<S(!new)>(env: Env<S>, r: Runner<S>, b: Runner<S>, talk: seq<seq<string>>)
    returns (approvals: seq<nat>)
    requires Transparent(env) && SameRunner(r, b) && EachEndsInTime(env, b, talk)
    ensures |approvals| == |talk| && ReviewedEnds(env, r, talk, approvals) == PlainEnds(env, b, talk)
    decreases |talk|
  {
    approvals := [];
    if talk != [] {
      SayAlike(r, b, talk[0]);
      var n := RunFromAlike(env, Say(r, talk[0]), Say(b, talk[0]));
      var x := ApproveTimes(env, Run(env, Say(r, talk[0])), n);
      var y := Run(WithoutInterrupts(env), Say(b, talk[0]));
      var more := TalkFromAlike(env, x.0, y.0, talk[1..]);
      approvals := [n] + more;
      assert approvals[1..] == more;
    }
  }

  /**
   * Transparency of conversations: if each of several runs, with whatever the user says before it, ends
   * before the step limit without interrupts, then so many approvals after each run bring every one of
   * them to the same end: same messages, ledgers, id counter, state, dispatches and output.
   */
  lemma ApprovedConversationIsTransparent<S(!new)>(env: Env<S>, messages: seq<Message>, state: S,
                                                   talk: seq<seq<string>>) returns (approvals: seq<nat>)
    requires Transparent(env) && EachEndsInTime(env, Fresh(messages, state), talk)
    ensures |approvals| == |talk|
    ensures ReviewedEnds(env, Fresh(messages, state), talk, approvals) == PlainEnds(env, Fresh(messages, state), talk)
  {
    approvals := TalkFromAlike(env, Fresh(messages, state), Fresh(messages, state), talk);
  }
}
