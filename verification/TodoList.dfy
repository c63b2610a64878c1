/** The `write_todos` tool: validation, replace, merge by id, and the summary gate. */
module TodoLists {
  import opened Wrappers
  import opened Json
  import opened Text

  datatype TodoItem = TodoItem(id: string, content: string, status: string, priority: string,
                               activeForm: Option<string>)

  datatype TodoPatch = TodoPatch(
    id: string,
    content: Option<string>,
    status: Option<string>,
    priority: Option<string>,
    activeForm: Option<string>)

  datatype WriteTodosInput = WriteTodosInput(todos: seq<TodoPatch>, merge: bool, summary: Option<string>)

  const COMPLETED := "completed"
  const SUMMARY_KEY := "_todo_summary"

  datatype TodoField = ContentField | StatusField | PriorityField

  datatype TodoError = MissingId | DuplicateId(id: string) | MissingField(field: TodoField) | SummaryRefused

  function FieldName(f: TodoField): string {
    match f
    case ContentField => "content"
    case StatusField => "status"
    case PriorityField => "priority"
  }

  /** The text the tool reports. */
  function ErrorText(e: TodoError): string {
    match e
    case MissingId => "invalid_request: todo id is required"
    case DuplicateId(id) => "invalid_request: duplicate todo id: " + id
    case MissingField(field) => "invalid_request: todo " + FieldName(field) + " is required for merge=false"
    case SummaryRefused => "invalid_request: summary is only allowed when a todo transitions to completed"
  }

  /** A field that was given and is not blank, trimmed. */
  function Given(field: Option<string>): Option<string> {
    if field.Some? && !Blank(field.value) then Some(Trim(field.value)) else None
  }

  // ----- validation -----

  /** Some patch before `n` has this trimmed id. */
  predicate IdAmong(items: seq<TodoPatch>, n: nat, id: string)
    requires n <= |items|
  {
    exists j :: 0 <= j < n && Trim(items[j].id) == id
  }

  function ComplaintAt(items: seq<TodoPatch>, n: nat): Option<TodoError>
    requires n < |items|
  {
    var id := Trim(items[n].id);
    if id == "" then Some(MissingId)
    else if IdAmong(items, n, id) then Some(DuplicateId(id))
    else None
  }

  /** The first complaint about the ids of the first `n` patches. */
  function IdComplaint(items: seq<TodoPatch>, n: nat): Option<TodoError>
    requires n <= |items|
  {
    if n == 0 then None else IdComplaint(items, n - 1).Or(ComplaintAt(items, n - 1))
  }

  lemma {:induction false} ComplaintStays(items: seq<TodoPatch>, n: nat, m: nat)
    requires n <= m <= |items| && IdComplaint(items, n).Some?
    ensures IdComplaint(items, m) == IdComplaint(items, n)
    decreases m
  {
    if n < m {
      ComplaintStays(items, n, m - 1);
    }
  }

  lemma IdAmongNext(items: seq<TodoPatch>, n: nat, id: string)
    requires n < |items|
    ensures IdAmong(items, n + 1, id) <==> id == Trim(items[n].id) || IdAmong(items, n, id)
  {
    assert id == Trim(items[n].id) ==> Trim(items[n].id) == id;
  }

  /** The ids the validator has seen after `n` patches. */
  ghost predicate Saw(items: seq<TodoPatch>, n: nat, seen: set<string>)
    requires n <= |items|
  {
    forall id :: id in seen <==> IdAmong(items, n, id)
  }

  lemma SeesOneMore(items: seq<TodoPatch>, n: nat, seen: set<string>)
    requires n < |items| && Saw(items, n, seen)
    ensures Saw(items, n + 1, seen + {Trim(items[n].id)})
    ensures Trim(items[n].id) in seen <==> IdAmong(items, n, Trim(items[n].id))
  {
    forall id ensures IdAmong(items, n + 1, id) <==> id == Trim(items[n].id) || IdAmong(items, n, id) {
      IdAmongNext(items, n, id);
    }
  }

  method ValidateNoDuplicateIds(items: seq<TodoPatch>) returns (complaint: Option<TodoError>)
    ensures complaint == IdComplaint(items, |items|)
  {
    var seen: set<string> := {};
    for i := 0 to |items|
      invariant IdComplaint(items, i) == None
      invariant Saw(items, i, seen)
    {
      SeesOneMore(items, i, seen);
      var id := Trim(items[i].id);
      complaint := if id == "" then Some(MissingId)
                   else if id in seen then Some(DuplicateId(id))
                   else None;
      assert complaint == ComplaintAt(items, i);
      if complaint.Some? {
        ComplaintStays(items, i + 1, |items|);
        return;
      }
      seen := seen + {id};
    }
    complaint := None;
  }

  function ReplacementItem(p: TodoPatch): Result<TodoItem, TodoError> {
    if Given(p.content).None? then Err(MissingField(ContentField))
    else if Given(p.status).None? then Err(MissingField(StatusField))
    else if Given(p.priority).None? then Err(MissingField(PriorityField))
    else Ok(TodoItem(Trim(p.id), Given(p.content).value, Given(p.status).value, Given(p.priority).value, p.activeForm))
  }

  /** The items of the first `n` patches, or the first missing field. */
  function Replacement(items: seq<TodoPatch>, n: nat): (r: Result<seq<TodoItem>, TodoError>)
    requires n <= |items|
    ensures r.Ok? <==> forall i :: 0 <= i < n ==> ReplacementItem(items[i]).Ok?
    ensures r.Ok? ==> |r.value| == n && forall i :: 0 <= i < n ==> r.value[i] == ReplacementItem(items[i]).value
  {
    if n == 0 then Ok([])
    else
      var init := Replacement(items, n - 1);
      if init.Err? then init
      else
        var item := ReplacementItem(items[n - 1]);
        if item.Err? then Err(item.error) else Ok(init.value + [item.value])
  }

  lemma {:induction false} RefusalStays(items: seq<TodoPatch>, n: nat, m: nat)
    requires n <= m <= |items| && Replacement(items, n).Err?
    ensures Replacement(items, m) == Replacement(items, n)
    decreases m
  {
    if n < m {
      RefusalStays(items, n, m - 1);
    }
  }

  method RequireFieldsForReplace(items: seq<TodoPatch>) returns (r: Result<seq<TodoItem>, TodoError>)
    ensures r == Replacement(items, |items|)
  {
    var out := [];
    for i := 0 to |items|
      invariant Replacement(items, i) == Ok(out)
    {
      var p := items[i];
      var content, status, priority := Given(p.content), Given(p.status), Given(p.priority);
      if content.None? || status.None? || priority.None? {
        RefusalStays(items, i + 1, |items|);
        return Err(MissingField(
          if content.None? then ContentField else if status.None? then StatusField else PriorityField));
      }
      out := out + [TodoItem(Trim(p.id), content.value, status.value, priority.value, p.activeForm)];
    }
    r := Ok(out);
  }

  // ----- merge -----

  /** The index a map filled from left to right ends up with for this id. */
  function LastIndex(todos: seq<TodoItem>, id: string): (r: Option<nat>)
    ensures r.Some? ==>
              && r.value < |todos| && todos[r.value].id == id
              && forall j :: r.value < j < |todos| ==> todos[j].id != id
    ensures r.None? ==> forall j :: 0 <= j < |todos| ==> todos[j].id != id
  {
    if todos == [] then None
    else if todos[|todos| - 1].id == id then Some(|todos| - 1)
    else LastIndex(todos[..|todos| - 1], id)
  }

  ghost predicate IndexesById(idx: map<string, nat>, todos: seq<TodoItem>) {
    forall id: string :: LastIndex(todos, id) == if id in idx then Some(idx[id]) else None
  }

  function Override(t: TodoItem, p: TodoPatch): TodoItem {
    t.(content := Given(p.content).GetOr(t.content),
       status := Given(p.status).GetOr(t.status),
       priority := Given(p.priority).GetOr(t.priority),
       activeForm := Given(p.activeForm).Or(t.activeForm))
  }

  function NewItem(p: TodoPatch): TodoItem {
    TodoItem(Trim(p.id), Trim(p.content.GetOr("")), Trim(p.status.GetOr("")), Trim(p.priority.GetOr("")), p.activeForm)
  }

  /** One patch: override the item that had its id before the merge, or append a new one. */
  function MergeOne(before: seq<TodoItem>, todos: seq<TodoItem>, transition: bool, p: TodoPatch):
    (r: (seq<TodoItem>, bool))
    requires |todos| >= |before|
    ensures |r.0| >= |before|
  {
    var at := LastIndex(before, Trim(p.id));
    if at.Some? then
      var t := Override(todos[at.value], p);
      (todos[at.value := t], transition || (todos[at.value].status != COMPLETED && t.status == COMPLETED))
    else (todos + [NewItem(p)], transition || NewItem(p).status == COMPLETED)
  }

  /** The list after the first `n` patches, and whether one of them completed an item. */
  function Merge(before: seq<TodoItem>, items: seq<TodoPatch>, n: nat): (r: (seq<TodoItem>, bool))
    requires n <= |items|
    ensures |r.0| >= |before|
  {
    if n == 0 then (before, false)
    else
      var r := Merge(before, items, n - 1);
      MergeOne(before, r.0, r.1, items[n - 1])
  }

  // ----- the whole transaction -----

  predicate WasCompleted(before: seq<TodoItem>, id: string) {
    var at := LastIndex(before, id);
    at.Some? && before[at.value].status == COMPLETED
  }

  predicate CompletesAt(before: seq<TodoItem>, t: TodoItem) {
    t.status == COMPLETED && !WasCompleted(before, t.id)
  }

  /** Some item is completed that was absent or not completed before. */
  predicate Completes(before: seq<TodoItem>, after: seq<TodoItem>) {
    exists i :: 0 <= i < |after| && CompletesAt(before, after[i])
  }

  /** The new list and whether it made something completed, or why there is none. */
  function Proposal(before: seq<TodoItem>, input: WriteTodosInput): Result<(seq<TodoItem>, bool), TodoError> {
    var complaint := IdComplaint(input.todos, |input.todos|);
    if complaint.Some? then Err(complaint.value)
    else if input.merge then Ok(Merge(before, input.todos, |input.todos|))
    else
      var next := Replacement(input.todos, |input.todos|);
      if next.Err? then Err(next.error) else Ok((next.value, Completes(before, next.value)))
  }

  function WriteTodos(before: seq<TodoItem>, extra: map<string, Value>, input: WriteTodosInput):
    (seq<TodoItem>, map<string, Value>, Result<seq<TodoItem>, TodoError>)
  {
    var proposal := Proposal(before, input);
    var summary := Given(input.summary);
    if proposal.Err? then (before, extra, Err(proposal.error))
    else if summary.None? then (proposal.value.0, extra, Ok(proposal.value.0))
    else if proposal.value.1 then (proposal.value.0, extra[SUMMARY_KEY := Str(summary.value)], Ok(proposal.value.0))
    else (before, extra, Err(SummaryRefused))
  }

  class TodoState {
    var todos: seq<TodoItem>
    var extra: map<string, Value>

    constructor ()
      ensures todos == [] && extra == map[]
    {
      todos, extra := [], map[];
    }

    method IndexById() returns (idx: map<string, nat>)
      ensures IndexesById(idx, todos)
    {
      idx := map[];
      for i := 0 to |todos|
        invariant IndexesById(idx, todos[..i])
      {
        assert todos[..i + 1][..i] == todos[..i];
        idx := idx[todos[i].id := i];
      }
      assert todos[..|todos|] == todos;
    }

    /** One patch to an item that is there. */
    method Patch(i: nat, p: TodoPatch) returns (completed: bool)
      requires i < |todos|
      modifies this`todos
      ensures todos == old(todos)[i := Override(old(todos)[i], p)]
      ensures completed <==> old(todos)[i].status != COMPLETED && todos[i].status == COMPLETED
    {
      var t := todos[i];
      var beforeCompleted := t.status == COMPLETED;
      var content, status, priority, activeForm := Given(p.content), Given(p.status), Given(p.priority),
        Given(p.activeForm);
      if content.Some? {
        t := t.(content := content.value);
      }
      if status.Some? {
        t := t.(status := status.value);
      }
      if priority.Some? {
        t := t.(priority := priority.value);
      }
      if activeForm.Some? {
        t := t.(activeForm := activeForm);
      }
      todos := todos[i := t];
      completed := !beforeCompleted && t.status == COMPLETED;
    }

    /** The next patch of a merge; `idx` was filled before the first one. */
    method ApplyPatch(idx: map<string, nat>, items: seq<TodoPatch>, k: nat, transition: bool,
                      ghost before: seq<TodoItem>)
      returns (now: bool)
      requires k < |items| && IndexesById(idx, before)
      requires (todos, transition) == Merge(before, items, k)
      modifies this`todos
      ensures (todos, now) == Merge(before, items, k + 1)
    {
      var p := items[k];
      var id := Trim(p.id);
      assert Merge(before, items, k + 1) == MergeOne(before, todos, transition, p);
      if id in idx {
        assert LastIndex(before, id) == Some(idx[id]);
        var completed := Patch(idx[id], p);
        now := transition || completed;
      } else {
        todos := todos + [NewItem(p)];
        now := transition || todos[|todos| - 1].status == COMPLETED;
      }
    }

    method ApplyMerge(items: seq<TodoPatch>) returns (transition: bool)
      modifies this`todos
      ensures (todos, transition) == Merge(old(todos), items, |items|)
    {
      var idx := IndexById();
      transition := false;
      ghost var before := todos;
      for k := 0 to |items|
        invariant (todos, transition) == Merge(before, items, k)
      {
        transition := ApplyPatch(idx, items, k, transition, before);
      }
    }

    /** Does the replacement complete anything? */
    method FindCompletion(before: seq<TodoItem>, next: seq<TodoItem>) returns (transition: bool)
      requires before == todos
      ensures transition <==> Completes(before, next)
    {
      var prev := IndexById();
      transition := false;
      for i := 0 to |next|
        invariant transition <==> exists k :: 0 <= k < i && CompletesAt(before, next[k])
      {
        var t := next[i];
        var prevStatus := if t.id in prev then todos[prev[t.id]].status else "pending";
        assert prevStatus == COMPLETED <==> WasCompleted(before, t.id);
        if prevStatus != COMPLETED && t.status == COMPLETED {
          assert CompletesAt(before, next[i]);
          transition := true;
        }
      }
    }

    method ApplyWriteTodos(input: WriteTodosInput) returns (r: Result<seq<TodoItem>, TodoError>)
      modifies this
      ensures (todos, extra, r) == WriteTodos(old(todos), old(extra), input)
    {
      var complaint := ValidateNoDuplicateIds(input.todos);
      if complaint.Some? {
        return Err(complaint.value);
      }
      var before := todos;
      var transition;
      if input.merge {
        transition := ApplyMerge(input.todos);
      } else {
        var next := RequireFieldsForReplace(input.todos);
        if next.Err? {
          return Err(next.error);
        }
        transition := FindCompletion(before, next.value);
        todos := next.value;
      }
      var summary := Given(input.summary);
      if summary.Some? {
        if !transition {
          todos := before;
          return Err(SummaryRefused);
        }
        extra := extra[SUMMARY_KEY := Str(summary.value)];
      }
      r := Ok(todos);
    }
  }
}
