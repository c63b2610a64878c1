/** `write_todos` is a transaction, merge is a per-id, per-field override, and the summary gate is exact. */
module TodoListTheorems {
  import opened Wrappers
  import opened Json
  import opened Listings
  import opened Text
  import opened Types
  import opened RunnerSpec
  import opened RunnerInvariants
  import opened TodoLists

  // ----- validation -----

  /** Every id shows something, and no two agree once trimmed. */
  ghost predicate ProperIds(items: seq<TodoPatch>, n: nat)
    requires n <= |items|
  {
    && (forall i :: 0 <= i < n ==> Trim(items[i].id) != "")
    && (forall i, j :: 0 <= i < j < n ==> Trim(items[i].id) != Trim(items[j].id))
  }

  lemma {:induction false} IdsAcceptedIff(items: seq<TodoPatch>, n: nat)
    requires n <= |items|
    ensures IdComplaint(items, n).None? <==> ProperIds(items, n)
  {
    if n > 0 {
      IdsAcceptedIff(items, n - 1);
    }
  }

  ghost predicate UniqueIds(todos: seq<TodoItem>) {
    forall i, j :: 0 <= i < j < |todos| ==> todos[i].id != todos[j].id
  }

  // ----- merge in closed form -----

  /** The patch for this id among the first `n`. */
  function PatchFor(items: seq<TodoPatch>, n: nat, id: string): (r: Option<nat>)
    requires n <= |items|
    ensures r.Some? ==> r.value < n && Trim(items[r.value].id) == id
    ensures r.None? ==> forall j :: 0 <= j < n ==> Trim(items[j].id) != id
  {
    if n == 0 then None
    else if Trim(items[n - 1].id) == id then Some(n - 1)
    else PatchFor(items, n - 1, id)
  }

  /** An old item after the merge: overridden by the patch for its id, if it is the one that id stands for. */
  function Overlaid(before: seq<TodoItem>, items: seq<TodoPatch>, n: nat, i: nat): TodoItem
    requires n <= |items| && i < |before|
  {
    var at := PatchFor(items, n, before[i].id);
    if LastIndex(before, before[i].id) == Some(i) && at.Some? then Override(before[i], items[at.value]) else before[i]
  }

  function Overlay(before: seq<TodoItem>, items: seq<TodoPatch>, n: nat): seq<TodoItem>
    requires n <= |items|
  {
    seq(|before|, i requires 0 <= i < |before| => Overlaid(before, items, n, i))
  }

  /** The items made from patches whose id was not there. */
  function Added(before: seq<TodoItem>, items: seq<TodoPatch>, n: nat): seq<TodoItem>
    requires n <= |items|
  {
    if n == 0 then []
    else
      Added(before, items, n - 1)
      + (if LastIndex(before, Trim(items[n - 1].id)).None? then [NewItem(items[n - 1])] else [])
  }

  function MergeResult(before: seq<TodoItem>, items: seq<TodoPatch>, n: nat): seq<TodoItem>
    requires n <= |items|
  {
    Overlay(before, items, n) + Added(before, items, n)
  }

  /** Each old item meets at most one patch. */
  lemma OverlaidNext(before: seq<TodoItem>, items: seq<TodoPatch>, n: nat, i: nat)
    requires n < |items| && ProperIds(items, n + 1) && i < |before|
    ensures var hit := LastIndex(before, Trim(items[n].id)) == Some(i);
            && (hit ==> Overlaid(before, items, n, i) == before[i])
            && Overlaid(before, items, n + 1, i) == if hit then Override(before[i], items[n])
               else Overlaid(before, items, n, i)
  {
  }

  /** One more patch changes the closed form as it changes the list. */
  lemma OverlayNext(before: seq<TodoItem>, items: seq<TodoPatch>, n: nat)
    requires n < |items| && ProperIds(items, n + 1)
    ensures var now, at := Overlay(before, items, n), LastIndex(before, Trim(items[n].id));
            Overlay(before, items, n + 1) == if at.Some? then now[at.value := Override(now[at.value], items[n])]
              else now
  {
    var now, next, at := Overlay(before, items, n), Overlay(before, items, n + 1), LastIndex(before, Trim(items[n].id));
    var wanted := if at.Some? then now[at.value := Override(now[at.value], items[n])] else now;
    forall i: nat | i < |before| ensures next[i] == wanted[i] {
      OverlaidNext(before, items, n, i);
      assert now[i] == Overlaid(before, items, n, i) && next[i] == Overlaid(before, items, n + 1, i);
    }
    assert next == wanted;
  }

  lemma MergeOneOnParts(before: seq<TodoItem>, kept: seq<TodoItem>, added: seq<TodoItem>, transition: bool,
                        p: TodoPatch)
    requires |kept| == |before|
    ensures var at := LastIndex(before, Trim(p.id));
            MergeOne(before, kept + added, transition, p).0 ==
              if at.Some? then kept[at.value := Override(kept[at.value], p)] + added else kept + (added + [NewItem(p)])
  {
  }

  lemma MergeResultNext(before: seq<TodoItem>, items: seq<TodoPatch>, n: nat, transition: bool)
    requires n < |items| && ProperIds(items, n + 1)
    ensures MergeOne(before, MergeResult(before, items, n), transition, items[n]).0 == MergeResult(before, items, n + 1)
  {
    var kept, added := Overlay(before, items, n), Added(before, items, n);
    OverlayNext(before, items, n);
    MergeOneOnParts(before, kept, added, transition, items[n]);
    var at := LastIndex(before, Trim(items[n].id));
    assert Added(before, items, n + 1) == if at.Some? then added else added + [NewItem(items[n])];
  }

  lemma MergeNext(before: seq<TodoItem>, items: seq<TodoPatch>, n: nat)
    requires 0 < n <= |items|
    ensures var r := Merge(before, items, n - 1); Merge(before, items, n) == MergeOne(before, r.0, r.1, items[n - 1])
  {
  }

  /**
   * A merge overrides existing items field by field where they stand and appends the others
   * in patch order; no item is moved or dropped.
   */
  lemma {:induction false} MergeIsOverride(before: seq<TodoItem>, items: seq<TodoPatch>, n: nat)
    requires n <= |items| && ProperIds(items, n)
    ensures Merge(before, items, n).0 == MergeResult(before, items, n)
  {
    if n == 0 {
      assert MergeResult(before, items, 0) == before;
    } else {
      var m, r := n - 1, Merge(before, items, n - 1);
      MergeNext(before, items, n);
      MergeIsOverride(before, items, m);
      MergeResultNext(before, items, m, r.1);
      assert Merge(before, items, n).0 == MergeOne(before, MergeResult(before, items, m), r.1, items[m]).0;
    }
  }

  /** A field after a patch: what was given, trimmed, if it shows anything, and what was there before if not. */
  predicate Takes(after: string, before: string, given: Option<string>) {
    after == if given.Some? && Trim(given.value) != "" then Trim(given.value) else before
  }

  /** An item after the patch for it. */
  predicate PatchedBy(after: TodoItem, before: TodoItem, p: TodoPatch) {
    && after.id == before.id && Takes(after.content, before.content, p.content)
    && Takes(after.status, before.status, p.status) && Takes(after.priority, before.priority, p.priority)
    && after.activeForm == if p.activeForm.Some? && Trim(p.activeForm.value) != "" then Some(Trim(p.activeForm.value))
                           else before.activeForm
  }

  /** A new item: the fields of its patch, trimmed, where one that was not given is empty. */
  predicate MadeFrom(t: TodoItem, p: TodoPatch) {
    && t.id == Trim(p.id) && Takes(t.content, "", p.content) && Takes(t.status, "", p.status)
    && Takes(t.priority, "", p.priority) && t.activeForm == p.activeForm
  }

  /** The patches whose id no old item has. */
  ghost function Newcomers(before: seq<TodoItem>, items: seq<TodoPatch>): nat -> bool {
    (j: nat) => j < |items| && forall i :: 0 <= i < |before| ==> before[i].id != Trim(items[j].id)
  }

  lemma NewItemIsMade(p: TodoPatch)
    ensures MadeFrom(NewItem(p), p)
  {
  }

  /** Items made from these patches. */
  ghost predicate AllMade(made: seq<TodoItem>, items: seq<TodoPatch>, at: seq<nat>) {
    && |made| == |at| && Within(at, |items|)
    && forall k :: 0 <= k < |at| ==> MadeFrom(made[k], items[at[k]])
  }

  lemma OneMoreMade(made: seq<TodoItem>, items: seq<TodoPatch>, at: seq<nat>, j: nat)
    requires AllMade(made, items, at) && j < |items|
    ensures AllMade(made + [NewItem(items[j])], items, at + [j])
  {
    NewItemIsMade(items[j]);
  }

  lemma NewcomerIsAbsent(before: seq<TodoItem>, items: seq<TodoPatch>, j: nat)
    requires j < |items|
    ensures LastIndex(before, Trim(items[j].id)).None? <==> Newcomers(before, items)(j)
  {
  }

  lemma AddedLast(before: seq<TodoItem>, items: seq<TodoPatch>, n: nat, m: nat, isNew: bool)
    requires 0 < n <= |items| && m == n - 1 && isNew == Newcomers(before, items)(m)
    ensures Added(before, items, n) == Added(before, items, m) + if isNew then [NewItem(items[m])] else []
  {
    NewcomerIsAbsent(before, items, m);
  }

  lemma {:induction false} AddedAreNewcomers(before: seq<TodoItem>, items: seq<TodoPatch>, n: nat)
    returns (at: seq<nat>)
    requires n <= |items|
    ensures Lists(at, n, Newcomers(before, items)) && AllMade(Added(before, items, n), items, at)
  {
    if n == 0 {
      at := [];
    } else {
      var m := n - 1;
      var isNew := Newcomers(before, items)(m);
      var init := AddedAreNewcomers(before, items, m);
      at := SnocLists(init, m, Newcomers(before, items));
      AddedLast(before, items, n, m, isNew);
      if isNew {
        OneMoreMade(Added(before, items, m), items, init, m);
      } else {
        assert Added(before, items, n) == Added(before, items, m) && at == init;
      }
    }
  }

  /** The last item with its id, which is the one that the id stands for. */
  ghost predicate StandsForItsId(before: seq<TodoItem>, i: nat)
    requires i < |before|
  {
    forall k :: i < k < |before| ==> before[k].id != before[i].id
  }

  /** An old item after the first `n` patches: changed by the one that has its id, if it stands for that id. */
  ghost predicate PatchedWhereAddressed(before: seq<TodoItem>, items: seq<TodoPatch>, n: nat, i: nat, after: TodoItem)
    requires n <= |items| && i < |before|
  {
    var addressed := StandsForItsId(before, i) && exists j :: 0 <= j < n && Trim(items[j].id) == before[i].id;
    if addressed then
      exists j :: 0 <= j < n && Trim(items[j].id) == before[i].id && PatchedBy(after, before[i], items[j])
    else after == before[i]
  }

  lemma OverlaidTells(before: seq<TodoItem>, items: seq<TodoPatch>, n: nat, i: nat)
    requires n <= |items| && i < |before|
    ensures PatchedWhereAddressed(before, items, n, i, Overlaid(before, items, n, i))
  {
    var last, at := LastIndex(before, before[i].id), PatchFor(items, n, before[i].id);
    assert last.Some?;
    assert StandsForItsId(before, i) <==> last == Some(i);
    if at.Some? {
      OverrideIsPatched(before[i], items[at.value]);
    }
  }

  lemma OverrideIsPatched(t: TodoItem, p: TodoPatch)
    ensures PatchedBy(Override(t, p), t, p)
  {
  }

  /**
   * Field by field: the old items stay where they are, each changed by the one patch that has its id, if it
   * stands for that id; and then come the patches with new ids as items, in order.
   */
  lemma MergeTells(before: seq<TodoItem>, items: seq<TodoPatch>, n: nat) returns (at: seq<nat>)
    requires n <= |items| && ProperIds(items, n)
    ensures var after := Merge(before, items, n).0;
            && Lists(at, n, Newcomers(before, items))
            && |after| >= |before| && AllMade(after[|before|..], items, at)
            && forall i :: 0 <= i < |before| ==> PatchedWhereAddressed(before, items, n, i, after[i])
  {
    MergeIsOverride(before, items, n);
    at := AddedAreNewcomers(before, items, n);
    var after := Merge(before, items, n).0;
    assert after[|before|..] == Added(before, items, n);
    forall i | 0 <= i < |before| ensures PatchedWhereAddressed(before, items, n, i, after[i]) {
      assert after[i] == Overlaid(before, items, n, i);
      OverlaidTells(before, items, n, i);
    }
  }

  /** The ids of the old items stay where they are; the others are new and come from the patches. */
  ghost predicate IdsAfterMerge(before: seq<TodoItem>, items: seq<TodoPatch>, n: nat, after: seq<TodoItem>)
    requires n <= |items|
  {
    && |before| <= |after|
    && (forall i :: 0 <= i < |before| ==> after[i].id == before[i].id)
    && (forall i :: |before| <= i < |after| ==> LastIndex(before, after[i].id).None? && IdAmong(items, n, after[i].id))
  }

  lemma MergeOneKeepsIds(before: seq<TodoItem>, items: seq<TodoPatch>, n: nat, todos: seq<TodoItem>, transition: bool)
    requires n < |items| && ProperIds(items, n + 1)
    requires UniqueIds(todos) && IdsAfterMerge(before, items, n, todos)
    ensures var after := MergeOne(before, todos, transition, items[n]).0;
            UniqueIds(after) && IdsAfterMerge(before, items, n + 1, after)
  {
    var after := MergeOne(before, todos, transition, items[n]).0;
    forall i | |before| <= i < |todos| ensures IdAmong(items, n + 1, todos[i].id) && todos[i].id != Trim(items[n].id) {
      IdAmongNext(items, n, todos[i].id);
    }
    IdAmongNext(items, n, Trim(items[n].id));
  }

  lemma {:induction false} MergeKeepsIds(before: seq<TodoItem>, items: seq<TodoPatch>, n: nat)
    requires n <= |items| && ProperIds(items, n) && UniqueIds(before)
    ensures UniqueIds(Merge(before, items, n).0) && IdsAfterMerge(before, items, n, Merge(before, items, n).0)
  {
    if n == 0 {
      assert Merge(before, items, 0).0 == before;
    } else {
      MergeKeepsIds(before, items, n - 1);
      var r := Merge(before, items, n - 1);
      MergeOneKeepsIds(before, items, n - 1, r.0, r.1);
      assert Merge(before, items, n) == MergeOne(before, r.0, r.1, items[n - 1]);
    }
  }

  // ----- the summary gate -----

  lemma UniqueStandsForItself(before: seq<TodoItem>, i: nat)
    requires UniqueIds(before) && i < |before|
    ensures LastIndex(before, before[i].id) == Some(i)
  {
    var at := LastIndex(before, before[i].id);
  }

  lemma NothingCompletedYet(before: seq<TodoItem>)
    requires UniqueIds(before)
    ensures !Completes(before, before)
  {
    forall i | 0 <= i < |before| ensures !CompletesAt(before, before[i]) {
      UniqueStandsForItself(before, i);
    }
  }

  /** A merge notices a completion exactly when an item is completed that was absent or not completed before. */
  lemma {:induction false} MergeNoticesCompletion(before: seq<TodoItem>, items: seq<TodoPatch>, n: nat)
    requires n <= |items| && ProperIds(items, n) && UniqueIds(before)
    ensures Merge(before, items, n).1 <==> Completes(before, Merge(before, items, n).0)
  {
    if n == 0 {
      NothingCompletedYet(before);
    } else {
      var m := n - 1;
      MergeNoticesCompletion(before, items, m);
      MergeIsOverride(before, items, m);
      OneMoreCompletion(before, items, n);
    }
  }

  lemma OneMoreCompletion(before: seq<TodoItem>, items: seq<TodoPatch>, n: nat)
    requires 0 < n <= |items| && ProperIds(items, n) && UniqueIds(before)
    requires Merge(before, items, n - 1).1 <==> Completes(before, Merge(before, items, n - 1).0)
    requires Merge(before, items, n - 1).0 == MergeResult(before, items, n - 1)
    ensures Merge(before, items, n).1 <==> Completes(before, Merge(before, items, n).0)
  {
    var r, r', p := Merge(before, items, n - 1), Merge(before, items, n), items[n - 1];
    var at := LastIndex(before, Trim(p.id));
    if at.Some? {
      var i := at.value;
      OverlaidNext(before, items, n - 1, i);
      assert r.0[i] == before[i] && !CompletesAt(before, r.0[i]);
      assert forall k :: 0 <= k < |r.0| && k != i ==> r'.0[k] == r.0[k];
      assert CompletesAt(before, r'.0[i]) <==> before[i].status != COMPLETED && r'.0[i].status == COMPLETED;
    } else {
      assert forall k :: 0 <= k < |r.0| ==> r'.0[k] == r.0[k];
      assert CompletesAt(before, r'.0[|r.0|]) <==> NewItem(p).status == COMPLETED;
    }
  }

  // ----- the transaction -----

  /** Whatever is refused leaves nothing behind. */
  lemma RefusalChangesNothing(before: seq<TodoItem>, extra: map<string, Value>, input: WriteTodosInput)
    ensures WriteTodos(before, extra, input).2.Err? ==>
              WriteTodos(before, extra, input).0 == before && WriteTodos(before, extra, input).1 == extra
    ensures WriteTodos(before, extra, input).2.Ok? ==>
              WriteTodos(before, extra, input).2.value == WriteTodos(before, extra, input).0
    ensures var after := WriteTodos(before, extra, input).1;
            forall key :: key != SUMMARY_KEY
              ==> (key in after <==> key in extra) && (key in extra ==> after[key] == extra[key])
  {
  }

  /** The list the input asks for. */
  function Wanted(before: seq<TodoItem>, input: WriteTodosInput): seq<TodoItem> {
    if input.merge then MergeResult(before, input.todos, |input.todos|)
    else seq(|input.todos|, i requires 0 <= i < |input.todos| =>
               var p := input.todos[i];
               TodoItem(Trim(p.id), Given(p.content).GetOr(""), Given(p.status).GetOr(""),
                        Given(p.priority).GetOr(""), p.activeForm))
  }

  predicate AllFieldsGiven(items: seq<TodoPatch>) {
    forall i :: 0 <= i < |items| ==>
      && Given(items[i].content).Some? && Given(items[i].status).Some?
      && Given(items[i].priority).Some?
  }

  lemma ReplacementIsWanted(before: seq<TodoItem>, input: WriteTodosInput)
    requires !input.merge
    ensures Replacement(input.todos, |input.todos|).Ok? <==> AllFieldsGiven(input.todos)
    ensures AllFieldsGiven(input.todos) ==> Replacement(input.todos, |input.todos|).value == Wanted(before, input)
  {
    forall i | 0 <= i < |input.todos|
      ensures var p := input.todos[i];
              ReplacementItem(p).Ok? <==> Given(p.content).Some? && Given(p.status).Some? && Given(p.priority).Some?
    {
    }
  }

  /**
   * Exactly when a `write_todos` succeeds, and what it then leaves: the ids are proper, a replacement
   * gives every field, and a summary comes with an item that is completed now and was absent or not completed before.
   */
  lemma WriteSucceedsIff(before: seq<TodoItem>, extra: map<string, Value>, input: WriteTodosInput)
    requires UniqueIds(before)
    ensures WriteTodos(before, extra, input).2.Ok? <==>
              && ProperIds(input.todos, |input.todos|)
              && (input.merge || AllFieldsGiven(input.todos))
              && (Given(input.summary).Some? ==> Completes(before, Wanted(before, input)))
    ensures WriteTodos(before, extra, input).2.Ok? ==>
              && WriteTodos(before, extra, input).0 == Wanted(before, input)
              && WriteTodos(before, extra, input).1 ==
                   if Given(input.summary).Some? then extra[SUMMARY_KEY := Str(Given(input.summary).value)] else extra
  {
    var n := |input.todos|;
    IdsAcceptedIff(input.todos, n);
    if ProperIds(input.todos, n) {
      if input.merge {
        MergeIsOverride(before, input.todos, n);
        MergeNoticesCompletion(before, input.todos, n);
      } else {
        ReplacementIsWanted(before, input);
      }
    }
  }

  /** Ids stay unique, whatever is written. */
  lemma WriteKeepsIdsUnique(before: seq<TodoItem>, extra: map<string, Value>, input: WriteTodosInput)
    requires UniqueIds(before)
    ensures UniqueIds(WriteTodos(before, extra, input).0)
  {
    var n := |input.todos|;
    IdsAcceptedIff(input.todos, n);
    if ProperIds(input.todos, n) {
      if input.merge {
        MergeKeepsIds(before, input.todos, n);
      } else {
        ReplacementIsWanted(before, input);
      }
    }
  }

  ghost function TodosAfter(inputs: seq<WriteTodosInput>): (seq<TodoItem>, map<string, Value>) {
    if inputs == [] then ([], map[])
    else
      var s := TodosAfter(inputs[..|inputs| - 1]);
      var r := WriteTodos(s.0, s.1, inputs[|inputs| - 1]);
      (r.0, r.1)
  }

  /** From an empty list, every run of the tool keeps ids unique. */
  lemma {:induction false} EveryRunKeepsIdsUnique(inputs: seq<WriteTodosInput>)
    ensures UniqueIds(TodosAfter(inputs).0)
  {
    if inputs != [] {
      var s := TodosAfter(inputs[..|inputs| - 1]);
      EveryRunKeepsIdsUnique(inputs[..|inputs| - 1]);
      WriteKeepsIdsUnique(s.0, s.1, inputs[|inputs| - 1]);
    }
  }

  // ----- as a middleware of the runner -----

  /** How an agent state holds todos, extra values and call counters; and serde for the tool's input and output. */
  datatype Slots<!S> = Slots(
    todos: S -> seq<TodoItem>,
    extra: S -> map<string, Value>,
    store: (S, seq<TodoItem>, map<string, Value>) -> S,
    bump: (S, string) -> S,
    parse: Value -> Result<WriteTodosInput, string>,
    show: seq<TodoItem> -> Value)

  /** What `handle_tool_call` does with the state, and the output or error it reports. */
  function HandleWriteTodos<S>(slots: Slots<S>, arguments: Value, s: S): (S, HandledToolCall) {
    var input := slots.parse(arguments);
    if input.Err? then (s, HandledToolCall(Null, Some("invalid_tool_call: " + input.error)))
    else
      var (todos, extra, r) := WriteTodos(slots.todos(s), slots.extra(s), input.value);
      (slots.store(s, todos, extra),
       if r.Ok? then HandledToolCall(slots.show(r.value), None) else HandledToolCall(Null, Some(ErrorText(r.error))))
  }

  function TodoListMiddleware<S>(slots: Slots<S>): Middleware<S> {
    Middleware(
      (ms, s) => (slots.bump(s, "_mw_todolist_before_run"), Ok(ms)),
      (ms, s) => (slots.bump(s, "_mw_todolist_before_provider_step"), Ok(ms)),
      (step: ProviderStep, n: nat) => (n, Ok(step)),
      (call: ProviderToolCall, ms: seq<Message>, s: S) =>
        if call.toolName != "write_todos" then (ms, s, Ok(None))
        else
          var (s', handled) := HandleWriteTodos(slots, call.arguments, s);
          (ms, s', Ok(Some(handled))))
  }

  /** Writing back what was read changes nothing. */
  ghost predicate StoresWhatItLoads<S(!new)>(slots: Slots<S>) {
    forall s: S :: slots.store(s, slots.todos(s), slots.extra(s)) == s
  }

  /** A failed `write_todos` leaves the whole agent state as it was and reports no output. */
  lemma FailedCallChangesNothing<S(!new)>(slots: Slots<S>, arguments: Value, s: S)
    requires StoresWhatItLoads(slots)
    ensures var (s', handled) := HandleWriteTodos(slots, arguments, s);
            handled.error.Some? ==> s' == s && handled.output == Null
  {
    var input := slots.parse(arguments);
    if input.Ok? {
      RefusalChangesNothing(slots.todos(s), slots.extra(s), input.value);
    }
  }

  /** It meets what the runner's theorems ask of a middleware, whatever others are installed with it. */
  lemma TodoListIsTidy<S(!new)>(slots: Slots<S>)
    ensures Tidy(TodoListMiddleware(slots))
  {
    var m := TodoListMiddleware(slots);
    forall call: ProviderToolCall, ms: seq<Message>, s: S
      ensures var (messages, _, answer) := m.handleToolCall(call, ms, s);
              && messages == ms
              && (answer.Ok? && answer.value.Some? && answer.value.value.error.Some?
                  ==> answer.value.value.output == Null)
    {
      assert HandleWriteTodos(slots, call.arguments, s).1.error.Some?
             ==> HandleWriteTodos(slots, call.arguments, s).1.output == Null;
    }
  }
}
