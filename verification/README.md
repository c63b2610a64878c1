# Verification of the agent runtime

This project models the part of the repository that decides what an agent does with a tool call and
what its model gets to see, and proves properties of that model with Dafny. `dafny verify dfyconfig.toml`
checks all of it. Every inductive proof is written out, so `--manual-lemma-induction` may be added.

## What is modelled

**The interruptible runner.** `ResumableRunner` holds messages, a call ledger, a result ledger, an id
counter, the agent state and at most one pending interrupt that carries the rest of its batch. Tools,
middlewares, the provider, skills, offloading and the approval policy are arbitrary deterministic
functions over an arbitrary state `S`, which stands for the agent state together with everything outside
that they read or change. `RunnerSpec` says what each step does to a conversation value; the methods of
the class in `ResumableRunner` are proved to do exactly that; `RunnerInvariants` and `RunnerTheorems`
prove what holds after any sequence of run, resume and user input. A log of offers, dispatches, pauses
and decisions makes gating and "at most once" expressible. It is read by no operation. `ToolReports` says
for every result where it comes from and what its record and its message say. `HookTrails` has the
middlewares' hooks as trails of histories and states, `ProviderRequests` says what the provider is sent at
every turn, and `RunOutputs` what a turn writes and a run reports.

**Its surroundings.** `ToolCompat` and `PatchToolCalls` are the normalisers, the index recomputed from a
history, and the repair of dangling calls. `SimpleRuntime` is the second implementation, and
`RuntimeAgreement` relates the two. `HitlTransparency` compares reviewing a batch with not reviewing it,
`HitlRuns` does so for whole runs, `HitlLimit` for those that reach the step limit and `HitlConversations`
for several runs in a row. `TodoGuard` is the guard against parallel `write_todos`.
`ConversationInvariants` turns what survives each step of the surroundings into what holds over every run.

**Windowing.** `Summarization` has the cutoff loops, argument truncation and the hook and tool of the
summarization middleware, over state that is updated in place. `SummarizationTheorems` folds cutoffs,
bounds the visible window and conserves the history, over any sequence of uses and over runs of the runner.
`WindowLaws` says when a history is compacted, what is archived and what is shown, and `RequestSizes` bounds
the requests of a runner that has the middleware installed.

**Prompt cache.** `CacheStore` is the map with its last-touch queue and `CacheHistory` explains every
reachable cache from its operations. `StableHash` canonicalises JSON. `PromptCache` and
`PromptCacheTheorems` are the keys, the two levels around the provider, and transparency.

**Bounded stores.** `MemoryStore` is put, get, query and eviction of the file memory store and
`MemoryStoreTheorems` gives greedy eviction a closed form. `TodoList` is the `write_todos` transaction
and `TodoListTheorems` says exactly when it succeeds and what it leaves.

## How to read the theorems

Results about the runner are stated for `After(env, messages, state, inputs)`, a fresh runner driven by
any sequence of inputs. Their hypotheses are named predicates:

- `Recomputable`: JSON text round-trips, no handler edits the history, and a handler that reports an
  error reports no output with it. `TidyMiddlewares` reduces the last two to each middleware by itself;
  `SummarizationIsTidy` and `TodoListIsTidy` show that two of the repository's middlewares meet them.
- `Records`: the state has a record to which the provider adds each request it gets and which nothing else
  changes. `RecordingRecords` adds one to any surroundings.
- `Injective`: the digest is injective, and two lists of messages have one canonical encoding just when the
  messages are alike, that is, equal up to the order of fields in the arguments of their calls.
- `Answering`: no handler edits the history and no provider id is blank. What dangles in the history that
  the first run starts from is recorded as the runner's `opening`; results that need a clean start say so.
- `Transparent`: the policy never asks for a reviewer, no middleware handles a tool that is interrupted on,
  and no batch holds two `write_todos`. Approving every pause is then invisible, except that each resume
  starts the step limit anew. `ApprovedRunIsTransparentIff` says exactly which runs show it, and
  `StepLimitIsNotTransparent` is one.
- `TurnsShow`: no handler edits the history and no skill expands to an empty batch, so every turn that goes
  on adds a message.
- `PolicyIgnoresState`: the approval policy answers alike in every state. It is given the command, the root
  and the mode; policies that keep a memory of their own are not covered where this is asked.
- `Comparable`: nothing is interrupted, the policy never asks for a reviewer, no handler touches
  `execute` when there is a policy, and the batches that reach the runner are normalised.

## Where the code and its documentation differ

The model follows the code.

- The acceptance document for todos (TD-04) says that of several `write_todos` in one assistant message
  all must be refused. The guard is recounted after a pause (resumable_runner.rs:901-904, called again at
  :697), so a pause can let one through. `AlwaysRefusedIff` says exactly when the promise holds under every
  reviewer: when no call that pauses has exactly one `write_todos` behind it. A call pauses when its tool is
  interrupted on and the policy allows it, or when the policy asks. A lone `write_todos` whose arguments are
  malformed does not count, as it gets an argument error anyway. `ParallelTodosAllRefusedIff` is the same
  for one reviewer, who may still refuse a `write_todos` that is itself held. `PauseLetsATodoThrough` and
  `ReviewedExecuteLetsATodoThrough` are batches that break the promise.
- The two runtimes differ in one place: when the provider overflows and a middleware fails during the
  forced retry, the simple runtime leaves `_summarization_force` in the state it reports
  (simple.rs:278-302) while the resumable one removes it (resumable_runner.rs:360). `RuntimesAgreeIff`
  is the exact condition and `RuntimesCanDisagree` an instance; without failing hooks they agree
  (`RuntimesAgreeFully`).
- The acceptance document for summarization (S-03) speaks of cutoffs that increase and never go back.
  They never go back, but a compaction whose effective cutoff is 1 stores the same cutoff again with an
  empty archived range; `CutoffFolds` says that this is the only case, and `SummaryAloneIsCompacted` is one.
- Counting turns backwards and forwards agrees only when both ends of the counted range have a role or
  both lack one (`BackwardEqualsForwardIff`); `TurnCutoffIsExact` therefore asks for named roles.
- A memory store can exceed its byte limit after a get or a query, because access stamps may grow and neither
  evicts (`GetKeepsLimitsIff` and `QueryKeepsLimitsIff`, with `GetCanBreakLimit` and `QueryCanBreakLimit` as instances).

## Model

| member | source | states |
|---|---|---|
| `RunnerTheorems.IndexEqualsRecomputation` | crates/deepagents/src/runtime/resumable_runner.rs:191-1809 | after any mix of run, resume and user input on a fresh runner, the incrementally kept `tool_results` equal the records recomputed from `messages`, for every tool, provider and policy, given JSON text round-trips, handlers that leave the history alone, and no output beside an error |
| `RunnerTheorems.HandledKeepsIndexIff` | crates/deepagents/src/runtime/resumable_runner.rs:1123-1163 | one handled call keeps that equality if and only if an error comes without output |
| `ToolReports.EveryResultIsExplained` | crates/deepagents/src/runtime/resumable_runner.rs:898-1809 | in every reachable state each result after the opening history comes with its explanation and its tool message: the answer of the tool that was dispatched for its row, offloaded, or of the middleware that took the call, or the exact error of unreadable arguments, of the guard, of the policy's verdict on stated arguments or of the reviewer's rejection; every dispatch and every call a middleware took has a row of its own |
| `ToolReports.ToolAnswersAreReported` | crates/deepagents/src/runtime/resumable_runner.rs:1384-1455 | for each dispatch in any run, the result of its row has the offloaded output of what the tool answered and no error, or its error; and the tool message at the same place carries the blocks it answered with and prints the same content and output |
| `ToolReports.DispatchTold` | crates/deepagents/src/runtime/resumable_runner.rs:1384-1778 | running a call adds the row with what the tool answered; a reviewer's arguments are marked as such, beside the original ones |
| `ToolReports.HandledTold` | crates/deepagents/src/runtime/resumable_runner.rs:1092-1163 | a call that a middleware takes gets its answer: the output, offloaded, or the error |
| `ToolReports.ForbiddenTold` | crates/deepagents/src/runtime/resumable_runner.rs:982-1036 | what the policy forbids gets its code and reason, whether it denies the call, or asks again after a review |
| `ToolReports.PreparingComplains` | crates/deepagents/src/runtime/tool_compat.rs:169-214 | the error of a call with unusable arguments says what is wrong with exactly those |
| `ProviderRequests.EveryRequestIsTheView` | crates/deepagents/src/runtime/resumable_runner.rs:236-485 | over any mix of run, resume and user input, what a provider that keeps a record has been sent is one request for each turn, a second one where the first was too long, and no other; each satisfies the relation of the next row |
| `ProviderRequests.AskingAsks` | crates/deepagents/src/runtime/resumable_runner.rs:243-485 | whatever the surroundings, a turn sends what the installed hooks, one after another, make of the runner's history, with all results so far; after an overflow once more with summarization forced, the mark of which is gone by then; what the provider replies, as the hooks patch it, is what the runner goes on with; a failing hook ends the turn with its error |
| `ProviderRequests.EveryTurnAsksTheView` | crates/deepagents/src/runtime/resumable_runner.rs:236-485 | the same at every turn of every run at once |
| `ProviderRequests.RecordingRecords` | crates/deepagents/src/runtime/resumable_runner.rs:280-300 | any surroundings can be given such a record beside their state |
| `RequestSizes.FirstRequestsAreBounded` | crates/deepagents/src/runtime/summarization_middleware.rs:134-214 | with summarization as the last hook, a character budget and the other hooks handing the history on, every first request of every turn of every run measures at most budget plus summary limit plus marker length, unless it has only a summary and the messages that are always kept, or nothing is protected and the last message alone is over the budget |
| `HookTrails.StepIsTrail` | crates/deepagents/src/runtime/resumable_runner.rs:243-276 | the hooks before a provider step run in order, each on what the one before it left, up to one that fails |
| `HookTrails.OfferIsTrail` | crates/deepagents/src/runtime/resumable_runner.rs:1092-1163 | a call is offered to every middleware in order, each with history and state as the one before left them, up to the first that takes it or fails |
| `HookTrails.PatchChainIsTrail` | crates/deepagents/src/runtime/resumable_runner.rs:450-485 | the hooks that patch a provider step run in order with the id counter, up to one that fails |
| `HookTrails.FirstRunPrepares` | crates/deepagents/src/runtime/resumable_runner.rs:196-234 | a first run starts from what the start hooks, one after another, make of the normalised history, and from the results found in it |
| `RunOutputs.RunReports` | crates/deepagents/src/runtime/resumable_runner.rs:236-620 | a run that starts with nothing held reports the ledgers and the state it ends with and the held call if there is one; it completes with the text of a final-text step, fails with the error and step number of the turn that failed, or ends at the step limit when every turn went on |
| `RunOutputs.TurnWrites` | crates/deepagents/src/runtime/resumable_runner.rs:487-600 | a turn adds the assistant's text, or announces the batch in one assistant message with each call in its normal form before anything else is added; no other answer of the provider adds a message by itself |
| `RunnerTheorems.EditAcceptedIff` | crates/deepagents/src/runtime/resumable_runner.rs:1812-1851 | edited arguments are accepted if and only if they are an object that has, as strings, all the fields the tool demands |
| `RunnerTheorems.EveryCallHasOneResult` | crates/deepagents/src/runtime/resumable_runner.rs:898-1455 | in every reachable state each ledger row has exactly one result under the same id and tool, in order, except the single row of a held call, which carries the interrupt's id and arguments |
| `RunnerTheorems.NoCallIsDispatchedTwice` | crates/deepagents/src/runtime/resumable_runner.rs:898-1778 | over any run no ledger row is dispatched twice and a held call has not been dispatched |
| `RunnerTheorems.DispatchesAreGated` | crates/deepagents/src/runtime/resumable_runner.rs:982-1090 | every dispatch in any run ran on arguments the policy allowed, asked with the text under `command`; if the tool is one to interrupt on or the arguments differ from the proposed ones, the two events before it are the pause for that id and an approval, or an edit with all the fields the tool demands, naming it |
| `RunnerTheorems.OffersAreGated` | crates/deepagents/src/runtime/resumable_runner.rs:1092-1165 | middlewares are never offered a tool to interrupt on, nor an `execute` whose command text the policy does not allow |
| `RunnerTheorems.ResumeChangesNothingIffRefused` | crates/deepagents/src/runtime/resumable_runner.rs:622-702 | a resume leaves the whole runner unchanged exactly when nothing is pending, the id does not match, or the edit is invalid, with the matching error code; otherwise the decision is logged and a result added |
| `RunnerTheorems.RunWhileHeldOnlyReports` | crates/deepagents/src/runtime/resumable_runner.rs:191-194 | running while a call is held changes nothing and reports that interrupt, whose pause is the last thing logged |
| `RunnerTheorems.RepairIsNoOp` | crates/deepagents/src/runtime/resumable_runner.rs:582-599 | under `Answering`, a call that dangles in a reachable history was dangling in the history the first run started from, or belongs to the held call or one that waits behind it; so from a clean start, whenever nothing is held, the repair changes nothing |
| `RunnerTheorems.EveryTurnStartsRepaired` | crates/deepagents/src/runtime/resumable_runner.rs:236-285 | under `Answering`, whenever a runner that started from a clean history asks the provider, in a run or after a resume has finished the held batch, patching the history it asks with changes nothing |
| `RunnerTheorems.CleanRunsStayRepaired` | crates/deepagents/src/runtime/resumable_runner.rs:196-285 | so no turn at all needs the repair when the history given is clean and the start hooks keep it so, or the start hooks patch it |
| `RunnerTheorems.NoMiddlewaresStayRepaired` | crates/deepagents/src/runtime/resumable_runner.rs:196-285 | without middlewares, ids that are not blank and a clean history suffice for that |
| `RunnerTheorems.CleanHistoryStaysClean` | crates/deepagents/src/runtime/resumable_runner.rs:191-234 | with start hooks that keep clean histories clean, a runner given a history without dangling calls starts clean and never needs the repair while nothing is held |
| `RunnerTheorems.PatchedStartsAreClean` | crates/deepagents/src/runtime/patch_tool_calls.rs:132-140 | so does one given any history when its start hooks patch it, as PatchToolCalls does |
| `RunnerTheorems.BatchIsConserved` | crates/deepagents/src/runtime/resumable_runner.rs:657-702 | after any decisions at any number of pauses the processed, the held and the waiting calls are the original batch in order |
| `RunnerTheorems.HeldBatchIsWhole` | crates/deepagents/src/runtime/resumable_runner.rs:657-702 | in every reachable state with a held call, the batch of the last turn that asked the provider is its ledger rows, ending in the held call, followed by the calls that wait, in order |
| `RunnerTheorems.BatchSurvivesSettling` | crates/deepagents/src/runtime/resumable_runner.rs:697-699 | settling a held call and draining the remainder keeps the batch whole |
| `RunnerTheorems.QueueKeepsBatch` | crates/deepagents/src/runtime/resumable_runner.rs:906-1090 | draining any remainder of a batch adds one row per call taken and leaves the rest waiting behind the held call |
| `RunnerTheorems.RunLoopGrows` | crates/deepagents/src/runtime/resumable_runner.rs:236-620 | ledgers and log are only ever appended to, and so is the history when no handler edits it |
| `RunnerInvariants.DriveSound` | crates/deepagents/src/runtime/resumable_runner.rs:86-105 | the runner's invariant (ledger, index, audit and open calls) holds after every sequence of inputs |
| `RunnerInvariants.ExecQueueSound` | crates/deepagents/src/runtime/resumable_runner.rs:898-1455 | a batch keeps the invariant; what it owed is answered or waits in the pending interrupt |
| `RunnerInvariants.SettleSound` | crates/deepagents/src/runtime/resumable_runner.rs:657-695 | each of approve, reject and edit answers the held call and keeps the invariant |
| `RunnerInvariants.TurnSound` | crates/deepagents/src/runtime/resumable_runner.rs:236-601 | one provider turn keeps the invariant |
| `RunnerInvariants.InitializeSound` | crates/deepagents/src/runtime/resumable_runner.rs:196-234 | normalising, the start hooks and indexing establish the invariant |
| `RunnerInvariants.HandledReadsBack` | crates/deepagents/src/runtime/resumable_runner.rs:1146-1162 | the message of a handled call reads back as its record if and only if an error comes without output |
| `RunnerInvariants.ErrorReadsBack` | crates/deepagents/src/runtime/resumable_runner.rs:922-944 | the message of a refused or failed call reads back as its record |
| `RunnerInvariants.SuccessReadsBack` | crates/deepagents/src/runtime/resumable_runner.rs:1402-1425 | the message of a successful call reads back as its record |
| `RunnerInvariants.EditedReadsBack` | crates/deepagents/src/runtime/resumable_runner.rs:1713-1749 | the message of an edited call reads back as its record, with or without the original arguments |
| `RunnerInvariants.RejectedReadsBack` | crates/deepagents/src/runtime/resumable_runner.rs:1780-1809 | the message of a rejected call reads back as its record |
| `RunnerInvariants.TidyMiddlewares` | crates/deepagents/src/runtime/resumable_runner.rs:1092-1163 | what the index theorem asks of the middlewares holds of a list of them exactly when it holds of each by itself |
| `ConversationInvariants.EveryRunKeeps` | crates/deepagents/src/runtime/resumable_runner.rs:191-1809 | whatever claim about history and state survives a further message, each outside step, each middleware offered a call, and the hooks before a provider step, and follows from the start hooks, holds after any mix of run, resume and user input |
| `ConversationInvariants.EveryTurnKeeps` | crates/deepagents/src/runtime/resumable_runner.rs:236-285 | such a claim also holds whenever the provider is about to be asked |
| `HitlTransparency.ApprovingIsTransparent` | crates/deepagents/src/runtime/resumable_runner.rs:657-702 | with at most one `write_todos`, a policy that never asks and interrupted tools no middleware handles, approving at every pause ends in the same messages, ledgers, id counter, state and dispatches as never pausing |
| `HitlRuns.ApprovedRunIsTransparent` | crates/deepagents/src/runtime/resumable_runner.rs:191-702 | under `Transparent`, for whole runs of a fresh runner whose run without interrupts ends before the step limit: some number of approvals brings the run with interrupts to the same messages, ledgers, id counter, state, dispatches and output, with nothing held |
| `HitlConversations.ApprovedConversationIsTransparent` | crates/deepagents/src/runtime/resumable_runner.rs:179-702 | the same for conversations of several runs with user input before each: if every run ends before the step limit without interrupts, so many approvals after each run bring every one to the same end |
| `HitlLimit.ApprovedRunIsTransparentIff` | crates/deepagents/src/runtime/resumable_runner.rs:191-702 | under `Transparent`, and where every turn that goes on adds a message: some number of approvals brings a run to the end of the run without interrupts if and only if that one ends before the step limit or nothing is held during the run |
| `HitlLimit.TransparentUnlessHeld` | crates/deepagents/src/runtime/resumable_runner.rs:191-702 | the if half under `Transparent` alone, runs that reach the limit without a pause included |
| `HitlLimit.HeldGetsBeyond` | crates/deepagents/src/runtime/resumable_runner.rs:236-701 | a run that holds a call where the run without interrupts reaches the limit restarts its step count, so approvals take it past the length of history at which the other stopped, or to another end |
| `HitlRuns.ApprovedLoopIsTransparent` | crates/deepagents/src/runtime/resumable_runner.rs:236-620 | the same from any point of the step loop, for every observation that is blind to the review |
| `HitlRuns.ApprovedBatchRunsOn` | crates/deepagents/src/runtime/resumable_runner.rs:657-702 | some number of approvals brings a paused batch to its end, and the run goes on from there with a fresh step count |
| `HitlRuns.StepLimitIsNotTransparent` | crates/deepagents/src/runtime/resumable_runner.rs:236-701 | a provider with which the run without interrupts stops at the step limit while no number of approvals ever ends the run with interrupts, because each resume counts its steps anew |
| `HitlTransparency.ResumeIsOneReviewStep` | crates/deepagents/src/runtime/resumable_runner.rs:622-702 | an accepted resume settles the held call and executes the remainder, exactly one step of reviewing the batch |
| `TodoGuard.GuardRefusesTodos` | crates/deepagents/src/runtime/resumable_runner.rs:954-980 | under the guard a `write_todos` gets an error and nothing is offered, dispatched or changed |
| `TodoGuard.GuardCountsTodos` | crates/deepagents/src/runtime/resumable_runner.rs:901-904 | the guard counts the `write_todos` of a batch, wherever they stand |
| `TodoGuard.ParallelTodosAllRefusedIff` | docs/acceptance/todo.md:89-105 | for every batch with at least two `write_todos`, every conversation, every interrupt table, every policy that ignores the state and every reviewer that treats `write_todos` alike: all of them get error results and none is offered or run, if and only if no call of the batch that pauses has exactly one `write_todos`, with accepted arguments, behind it, or that one is itself held for review and rejected |
| `TodoGuard.AlwaysRefusedIff` | crates/deepagents/src/runtime/resumable_runner.rs:657-702 | the same for all reviewers at once: whatever may be decided, call by call, all are refused if and only if no pause leaves an accepted `write_todos` alone |
| `TodoGuard.ReviewedExecuteLetsATodoThrough` | crates/deepagents-acp/src/server.rs:591-609 | with the tools interrupted that the ACP server and the command line interrupt on, an `execute` between two `write_todos` lets the second one through, whatever the reviewer decides, unless the policy denies its command; a policy that asks does so as one that allows |
| `TodoGuard.RefusedTodosChangeNothing` | docs/acceptance/todo.md:89-105 | in a batch that is refused nothing changes that only `write_todos` can change, so the todos stay as they were, again under any interrupt table and any policy that ignores the state |
| `TodoGuard.PauseLetsATodoThrough` | crates/deepagents/src/runtime/resumable_runner.rs:697 | a concrete batch of two `write_todos` around a reviewed call dispatches the second one after the pause |
| `TodoGuard.UnpausedBatchRefusesBothTodos` | crates/deepagents/src/runtime/resumable_runner.rs:901-904 | the same batch without the pause refuses both with error results and dispatches only the call between them |
| `ResumableRunners.ResumableRunner.constructor` | crates/deepagents/src/runtime/resumable_runner.rs:108-134 | a fresh runner holds the given history and state and nothing else |
| `ResumableRunners.ResumableRunner.PushUserText` | crates/deepagents/src/runtime/resumable_runner.rs:179-189 | appends one user message and changes nothing else |
| `ResumableRunners.ResumableRunner.ExecuteOne` | crates/deepagents/src/runtime/resumable_runner.rs:906-1090 | one call: ledger row first, then refusal, denial, hold or service, each leaving exactly the specified state |
| `ResumableRunners.ResumableRunner.OfferAndDispatch` | crates/deepagents/src/runtime/resumable_runner.rs:1092-1455 | middlewares, the second policy check and the tool, in this order |
| `ResumableRunners.ResumableRunner.CallTool` | crates/deepagents/src/runtime/resumable_runner.rs:1384-1455 | the tool runs once on the given arguments and its outcome is posted, as specified; `ToolAnswersAreReported` says what is posted then |
| `ResumableRunners.ResumableRunner.Execute` | crates/deepagents/src/runtime/resumable_runner.rs:898-1455 | the queue loop equals the recursive account of a batch, and a held call is stored with what remains |
| `ResumableRunners.ResumableRunner.ExecutePendingCall` | crates/deepagents/src/runtime/resumable_runner.rs:1457-1778 | a reviewed call skips the middlewares and asks the policy about the final arguments; a policy that asks for approval again refuses it |
| `ResumableRunners.ResumableRunner.InjectRejectedToolMessage` | crates/deepagents/src/runtime/resumable_runner.rs:1780-1809 | a rejection posts one result and one message and runs nothing |
| `ResumableRunners.ResumableRunner.Ask` | crates/deepagents/src/runtime/resumable_runner.rs:243-485 | view hooks, the provider, one forced retry after an overflow, and the step hooks, with the reason when the run ends, as specified; `AskingAsks` says what is sent then |
| `ResumableRunners.ResumableRunner.Perform` | crates/deepagents/src/runtime/resumable_runner.rs:487-600 | what each kind of provider step does to the conversation, and whether it ends the run |
| `ResumableRunners.ResumableRunner.PrepareHistory` | crates/deepagents/src/runtime/resumable_runner.rs:196-234 | the first run normalises the history, lets the start hooks rewrite it and indexes its results, or loses it when a hook fails |
| `ResumableRunners.ResumableRunner.Run` | crates/deepagents/src/runtime/resumable_runner.rs:191-620 | the step loop equals its recursive account, including first-run initialisation and the step limit; the state in the output is the runner's own |
| `ResumableRunners.ResumableRunner.Resume` | crates/deepagents/src/runtime/resumable_runner.rs:622-702 | refusals keep the state; an accepted decision settles the held call, executes the remainder and runs on |
| `RuntimeAgreement.RuntimesAgree` | crates/deepagents/src/runtime/simple.rs:142-529 | on comparable surroundings one run of either runtime ends with the same messages, ledgers, id counter, dispatches and output, for every provider behaviour; the states are equal too unless a middleware fails while summarization is being forced |
| `RuntimeAgreement.RuntimesAgreeIff` | crates/deepagents/src/runtime/simple.rs:278-302 | conversations and outputs are equal if and only if such a failing forced hook does not end the run, or clearing its flag changes nothing |
| `RuntimeAgreement.RuntimesAgreeFully` | crates/deepagents/src/runtime/simple.rs:278-302 | if no hook before a provider step fails while summarization is forced, conversations, states and outputs of the two runtimes are equal |
| `RuntimeAgreement.RuntimesCanDisagree` | crates/deepagents/src/runtime/resumable_runner.rs:345-383 | a concrete provider and middleware after which one runtime has cleared the force flag and the other still has it |
| `RuntimeAgreement.PatchInstalled` | crates/deepagents/src/runtime/patch_tool_calls.rs:132-163 | with PatchToolCalls installed, and behind it only hooks that keep history and step, every run starts repaired and every batch is normalised |
| `RuntimeAgreement.LoopAgrees` | crates/deepagents/src/runtime/simple.rs:177-529 | the step loops of both runtimes agree from any equal conversations |
| `RuntimeAgreement.OneAgrees` | crates/deepagents/src/runtime/simple.rs:711-1148 | one call ends alike in both runtimes although they ask policy and middlewares in different orders |
| `RuntimeAgreement.AskAgrees` | crates/deepagents/src/runtime/simple.rs:184-393 | both runtimes get the same step or end with the same error |
| `SimpleRuntimes.SimpleRuntime.ExecuteCalls` | crates/deepagents/src/runtime/simple.rs:711-1148 | the loop over a batch equals its recursive account |
| `SimpleRuntimes.SimpleRuntime.Run` | crates/deepagents/src/runtime/simple.rs:142-529 | the run equals its recursive account, from the given messages and initial state |
| `ToolCompat.NormalizeMessages` | crates/deepagents/src/runtime/tool_compat.rs:32-89 | every message is unpacked on its own; their number and order stay |
| `ToolCompat.NormalizingOnlyFills` | crates/deepagents/src/runtime/tool_compat.rs:32-89 | fields that are present stay; the text changes only when tool calls are unpacked from it |
| `ToolCompat.TextRecoversCalls` | crates/deepagents/src/runtime/tool_compat.rs:35-51 | an assistant message reduced to its JSON text gets its text and calls back |
| `ToolCompat.TextIsUnpacked` | crates/deepagents/src/runtime/tool_compat.rs:53-84 | a tool message that is only text gets id, name and status from the JSON object in it; without a status, an error that is not null decides |
| `RunnerTheorems.TextRecoversRefusal` | crates/deepagents/src/runtime/tool_compat.rs:53-84 | a refused, failed or rejected call reduced to role and text gets id, tool and status back |
| `RunnerTheorems.TextRecoversHandled` | crates/deepagents/src/runtime/tool_compat.rs:53-84 | so does the answer of a middleware |
| `RunnerTheorems.TextRecoversOutput` | crates/deepagents/src/runtime/tool_compat.rs:53-84 | so does the answer of a tool, edited or not |
| `ToolCompat.NormalizeIdempotent` | crates/deepagents/src/runtime/tool_compat.rs:32-89 | normalising twice is normalising once |
| `ToolCompat.ToolResultsFromMessages` | crates/deepagents/src/runtime/tool_compat.rs:91-159 | the record of each tool message with a usable id, in message order |
| `ToolCompat.OtherTextIsNoOutput` | crates/deepagents/src/runtime/tool_compat.rs:139-148 | a tool message whose text is no JSON object stands for a result without output, whose error is that text if the status says so |
| `ToolCompat.ErrorIsRead` | crates/deepagents/src/runtime/tool_compat.rs:5-18 | the error of a result is the text in its JSON, or code and message joined, or else the JSON as it is printed |
| `ToolCompat.ResultsOfAppend` | crates/deepagents/src/runtime/tool_compat.rs:91-159 | the index of a history extended at the end is the old index followed by the new records |
| `ToolCompat.NormalizeToolCallForExecution` | crates/deepagents/src/runtime/tool_compat.rs:169-214 | names, ids and arguments are filled in or rejected as specified, bumping the counter only for a fresh id |
| `ToolCompat.PreparedIsRunnable` | crates/deepagents/src/runtime/tool_compat.rs:169-214 | a prepared call has a name and a usable id, keeps a usable id, and is accepted only with object arguments |
| `ToolCompat.PreparingReads` | crates/deepagents/src/runtime/tool_compat.rs:169-214 | nothing is read as an empty object, the text of a JSON object as that object, and all else is left as given; the call runs if and only if that is an object; a missing name is `unknown`, a blank id the next number |
| `ToolCompat.FirstStringIsFirst` | crates/deepagents/src/runtime/tool_compat.rs:20-30 | a field looked up under several keys is the string under the first key that has one |
| `PatchToolCalls.PatchDanglingToolCalls` | crates/deepagents/src/runtime/patch_tool_calls.rs:36-85 | the nested loops compute the repaired history |
| `PatchToolCalls.PatchCompletes` | crates/deepagents/src/runtime/patch_tool_calls.rs:36-85 | in the repaired history every tool call has a later tool message with its id |
| `PatchToolCalls.StandInReadsBack` | crates/deepagents/src/runtime/patch_tool_calls.rs:59-81 | a stand-in reads back as a result of its call with the cancellation error and status `patched` |
| `PatchToolCalls.PatchFixesOnlyDangling` | crates/deepagents/src/runtime/patch_tool_calls.rs:36-85 | the repair leaves a history as it is if and only if nothing dangles |
| `PatchToolCalls.PatchInsertsOnlyStandIns` | crates/deepagents/src/runtime/patch_tool_calls.rs:46-82 | each input message is kept, and between it and the next stand exactly the stand-ins of its unanswered calls, in call order |
| `PatchToolCalls.PositionsAscend` | crates/deepagents/src/runtime/patch_tool_calls.rs:36-85 | the positions of the input messages ascend and end at the end of the output, so nothing else is inserted |
| `PatchToolCalls.PatchIdempotent` | crates/deepagents/src/runtime/patch_tool_calls.rs:36-85 | repairing twice is repairing once |
| `PatchToolCalls.RepairedViewIdempotent` | crates/deepagents/src/runtime/patch_tool_calls.rs:132-149 | normalising and then repairing, done twice, is doing it once |
| `PatchToolCalls.NormalizeProviderToolCalls` | crates/deepagents/src/runtime/patch_tool_calls.rs:87-115 | missing ids are filled from the counter in order and string arguments parsed |
| `PatchToolCalls.NormalizedCallsAreSettled` | crates/deepagents/src/runtime/patch_tool_calls.rs:87-115 | every normalised call has an id and settled arguments |
| `PatchToolCalls.NormalizedCallsAreRead` | crates/deepagents/src/runtime/patch_tool_calls.rs:87-115 | each normalised call has the arguments as they are read, its name, and its id, or the number that counts the calls without one before it; the counter moves by their number |
| `PatchToolCalls.SettledCallsAreFixed` | crates/deepagents/src/runtime/patch_tool_calls.rs:87-115 | normalisation changes nothing and draws no id if and only if every call is settled |
| `SummarizationTheorems.HistoryIsConserved` | crates/deepagents/src/runtime/summarization_middleware.rs:134-290 | after any run of steps and `compact_conversation` calls over a growing history the archived sections tile it up to the cutoff without gap or overlap, and archive plus visible tail is the whole history, summaries aside |
| `SummarizationTheorems.RunnerHistoryIsConserved` | crates/deepagents/src/runtime/summarization_middleware.rs:134-290 | the same over real runs: with the middleware installed behind hooks that show it the history itself, and nothing else writing its event and list of events, after any mix of run, resume and user input archive plus visible tail is the runner's whole history |
| `SummarizationTheorems.ChildMergeConservesIff` | crates/deepagents/src/subagents/protocol.rs:69-87 | when a child agent that starts from the parent's state is merged back, archive plus visible tail remains the parent's whole history if and only if only summaries stand between the parent's cutoff and the child's; the events stay in step with the archive if and only if the child never compacts |
| `SummarizationTheorems.ChildCompactionLosesAMessage` | crates/deepagents/src/subagents/protocol.rs:79-87 | one compaction of a child leaves the parent's first message neither archived nor visible |
| `SummarizationTheorems.CutoffFolds` | crates/deepagents/src/runtime/summarization_middleware.rs:162-184 | the messages past the new stored cutoff are those past the effective cutoff of the previous view; the stored cutoff never goes back and stays exactly when the effective cutoff is 1 |
| `SummarizationTheorems.SummaryAloneIsCompacted` | crates/deepagents/src/runtime/summarization_middleware.rs:162-184 | two steps over the same three messages reach an effective cutoff of 1: the second stores cutoff 1 again with an empty section |
| `SummarizationTheorems.CutoffsNeverDecrease` | docs/acceptance/summarization.md:92-106 | the first stored cutoff is positive and later ones are never smaller, over any run |
| `SummarizationTheorems.VisibleWindowIsBounded` | crates/deepagents/src/runtime/summarization_middleware.rs:139-214 | a budget compaction that leaves more than the protected messages hands on at most budget plus summary limit plus marker length, counted in the characters of all texts and of all printed tool calls, redaction on or off; any other hands on the summary and exactly the protected messages |
| `WindowLaws.BudgetStepCompactsIff` | crates/deepagents/src/runtime/summarization_middleware.rs:139-184 | a step under a character budget compacts if and only if it is enabled and the view measures more than the budget, or it is forced, and the least sufficient cutoff, folded back, lies inside the history; that is the cutoff it stores |
| `WindowLaws.EveryViewIsBounded` | crates/deepagents/src/runtime/summarization_middleware.rs:134-214 | whatever an enabled step under a budget shows, compacted or not, is within budget, summary limit and marker, unless it has only a summary and the protected messages, or nothing is protected and the last message alone is over the budget |
| `WindowLaws.TurnStepCompactsIff` | crates/deepagents/src/runtime/summarization_middleware.rs:422-428 | under a limit on turns what decides is the number of places where another role takes over |
| `WindowLaws.ToolCompactsIff` | crates/deepagents/src/runtime/summarization_middleware.rs:217-290 | `compact_conversation` compacts if and only if the view is large enough and the folded cutoff lies inside the history, enabled or not |
| `WindowLaws.CompactionStores` | crates/deepagents/src/runtime/summarization_middleware.rs:162-214 | what a compaction hands to the history store are the messages since the last cutoff that are no summaries, in order; the event has the new cutoff, the path the store gave back and a summary message of them; a failing store leaves only the thread id behind |
| `WindowLaws.ViewIsSummaryAndRest` | crates/deepagents/src/runtime/summarization_middleware.rs:304-316 | whatever is shown is the stored summary, if any, and the history past the stored cutoff, redacted |
| `WindowLaws.WithoutSummariesIsPick` | crates/deepagents/src/runtime/summarization_middleware.rs:350-352 | summaries are the messages that bear the name, or have the marker anywhere in their text; all others are kept, in order |
| `WindowLaws.EveryStringIsShortened` | crates/deepagents/src/runtime/summarization_middleware.rs:510-557 | shortening reaches every string at any depth, keeps both its ends around the notice, and changes nothing else |
| `WindowLaws.RedactionIsNarrow` | crates/deepagents/src/runtime/summarization_middleware.rs:480-508 | redaction changes only arguments of `write_file`, `edit_file` and `execute` calls in messages before the last ones |
| `SummarizationTheorems.CompactedView` | crates/deepagents/src/runtime/summarization_middleware.rs:186-214 | the view after a compaction is the bounded summary of the pruned range followed by the redacted tail of the full history |
| `SummarizationTheorems.SummarizationIsTidy` | crates/deepagents/src/runtime/summarization_middleware.rs:217-290 | as one of any list of middlewares it meets what the runner's index theorem asks of each |
| `Summarization.BudgetCutoffIsLeast` | crates/deepagents/src/runtime/summarization_middleware.rs:445-457 | the budget cutoff is the least one whose suffix fits, in the characters of texts and printed calls, but not past the recency floor |
| `Summarization.TotalIsMeasure` | crates/deepagents/src/runtime/summarization_middleware.rs:559-571 | the size of a history is the characters of its texts plus the characters of its tool calls as they are printed |
| `Summarization.CutoffForBudget` | crates/deepagents/src/runtime/summarization_middleware.rs:445-457 | the budget loop computes that cutoff |
| `Summarization.TurnCutoffIsExact` | crates/deepagents/src/runtime/summarization_middleware.rs:459-478 | with named roles and too many turns the cut is at the largest index whose suffix still has the allowed turns, or at the recency floor if that comes first |
| `WindowLaws.TurnsAreTakeovers` | crates/deepagents/src/runtime/summarization_middleware.rs:573-583 | turns are the places where another role than before takes over |
| `Summarization.BackwardEqualsForwardIff` | crates/deepagents/src/runtime/summarization_middleware.rs:459-583 | counting turns backwards agrees with `count_turns` if and only if both ends of the suffix are alike in having a role |
| `Summarization.CutoffForTurns` | crates/deepagents/src/runtime/summarization_middleware.rs:459-478 | the backward scan computes the turn cutoff |
| `Summarization.TruncationCommutesWithDrop` | crates/deepagents/src/runtime/summarization_middleware.rs:480-504 | shortening old arguments commutes with dropping a prefix |
| `Summarization.TruncatedLength` | crates/deepagents/src/runtime/summarization_middleware.rs:541-557 | a shortened text is exactly the limit plus the marker long, a short one is untouched |
| `Summarization.TruncateToolArgs` | crates/deepagents/src/runtime/summarization_middleware.rs:480-504 | all but the last messages have the arguments of their write and execute calls shortened |
| `Summarization.SummaryState.BeforeProviderStep` | crates/deepagents/src/runtime/summarization_middleware.rs:134-214 | the hook updates event, event list and thread id as specified and returns the specified view; `BudgetStepCompactsIff`, `CompactionStores` and `ViewIsSummaryAndRest` say what these are |
| `Summarization.SummaryState.HandleCompactConversation` | crates/deepagents/src/runtime/summarization_middleware.rs:217-290 | the tool compacts or reports that it was skipped |
| `CacheHistory.MissNeedsPressure` | crates/deepagents/src/runtime/cache_store.rs:67-114 | when the clock does not run backwards, an unexpired key is missed only if at least `max_entries` other keys were inserted or hit since it was |
| `CacheHistory.HitReturnsLatestInsert` | crates/deepagents/src/runtime/cache_store.rs:67-92 | every hit returns the value of the latest insert of its key, within its time to live |
| `CacheHistory.QueueIsLastTouchOrder` | crates/deepagents/src/runtime/cache_store.rs:51-114 | after any operations the queue is free of duplicates, lists exactly the map's keys from least to most recently touched, and is no longer than `max_entries` |
| `CacheHistory.EveryCacheIsExplained` | crates/deepagents/src/runtime/cache_store.rs:66-115 | in every reachable cache a resident entry is the latest insert of its key with its time of expiry, keys stand in the order of their last touch, and an inserted key that is absent has run out or had enough other keys touched since |
| `CacheStore.MemoryCacheStore.Get` | crates/deepagents/src/runtime/cache_store.rs:67-92 | an expired entry is purged, a live one moved to the end of the queue |
| `CacheStore.MemoryCacheStore.Insert` | crates/deepagents/src/runtime/cache_store.rs:94-114 | stores with a fresh time to live, touches and evicts; the store stays consistent and at most one key goes |
| `CacheStore.EvictAtMostOne` | crates/deepagents/src/runtime/cache_store.rs:100-109 | the eviction loop removes at most the oldest key, and only when a new key came in |
| `StableHash.CanonicalDecidesEquality` | crates/deepagents/src/runtime/stable_hash.rs:21-37 | canonical forms are equal if and only if the trees are equal up to the order of object fields at every depth |
| `StableHash.CanonicalIdempotent` | crates/deepagents/src/runtime/stable_hash.rs:21-37 | canonicalising twice is canonicalising once |
| `StableHash.CanonicalizeJson` | crates/deepagents/src/runtime/stable_hash.rs:21-37 | the recursion with its local maps computes the canonical form |
| `PromptCacheTheorems.CachingIsTransparent` | crates/deepagents/src/runtime/prompt_cache_runtime.rs:160-305 | with an injective digest and encoding and a provider determined by the request, any sequence of cached steps returns what uncached steps would |
| `PromptCacheTheorems.AnswersAreSourced` | crates/deepagents/src/runtime/prompt_cache_runtime.rs:180-292 | every answer is the provider's own or replays an earlier non-error reply to the same request in the same partition, within its time to live |
| `PromptCacheTheorems.EntriesAreSourced` | crates/deepagents/src/runtime/prompt_cache_runtime.rs:206-280 | every resident second-level entry is the non-error reply of an earlier call with that key in that partition |
| `PromptCacheTheorems.LiveEntryIsReplayed` | crates/deepagents/src/runtime/prompt_cache_runtime.rs:206-280 | a call whose key has a live entry in its partition gets that entry's step; any other gets the provider's reply |
| `PromptCacheTheorems.RepeatIsReplayed` | crates/deepagents/src/runtime/prompt_cache_runtime.rs:206-280 | what a call got from the provider and is no error is replayed to the next call with the same request in its partition, within its time to live |
| `PromptCacheTheorems.KeysDecideRequests` | crates/deepagents/src/runtime/prompt_cache_runtime.rs:79-144 | second-level keys are equal if and only if provider name, the messages of role `system` in order, all other messages in order, skills, tool specifications and summarization event agree, up to the order of object fields; messages are compared by position |
| `PromptCacheTheorems.EveryMessageIsInTheKey` | crates/deepagents/src/runtime/prompt_cache_runtime.rs:79-85 | putting another message of the same kind in the place of any message changes the key |
| `PromptCacheTheorems.FurtherMessageIsInTheKey` | crates/deepagents/src/runtime/prompt_cache_runtime.rs:79-85 | so does a further message of any role |
| `PromptCacheTheorems.PartitionKeyInjective` | crates/deepagents/src/runtime/prompt_cache_runtime.rs:146-158 | partition keys are equal if and only if name, backend, time to live and size agree, although names may contain the separator |
| `PromptCache.PartitionedPromptCache.Use` | crates/deepagents/src/runtime/prompt_cache_runtime.rs:180-292 | both levels of one partition: the first is counted, the second replays or stores |
| `PromptCache.PromptCacheRegistry.GetPartition` | crates/deepagents/src/runtime/prompt_cache_runtime.rs:40-53 | a partition is created on first use with limits of at least one and kept from then on |
| `PromptCache.PromptCacheRegistry.Step` | crates/deepagents/src/runtime/prompt_cache_runtime.rs:160-305 | one cached step: answer, events and the one partition that changed |
| `MemoryStoreTheorems.EvictionIsDeclarative` | crates/deepagents/src/memory/store_file.rs:282-346 | for all three policies an entry survives eviction if and only if it fits together with everything that would go after it; survivors keep their order and fit both limits. `EvictionFollowsStamps` says what goes after what |
| `MemoryStoreTheorems.EvictedAreTheRest` | crates/deepagents/src/memory/store_file.rs:292-333 | the evicted keys are those of all other entries, in eviction order, each before every survivor |
| `MemoryStoreTheorems.EvictionFollowsStamps` | crates/deepagents/src/memory/store_file.rs:302-331 | by the time stamps themselves: survivors are a part of the list in order, and whatever is evicted was accessed (LRU) or created (FIFO) no later than what is evicted later and than every survivor, earlier in the list among equals; under a time to live, entries not updated for longer than that go first, the longest first, and then the others in list order |
| `MemoryStoreTheorems.TotalCountsText` | crates/deepagents/src/memory/store_file.rs:132-144 | what the byte limit is compared with is the UTF-8 length of the text of all entries and 16 for each of them |
| `MemoryStoreTheorems.OneFewerBreaksALimit` | crates/deepagents/src/memory/store_file.rs:292-300 | with the last evicted entry put back a limit is broken |
| `MemoryStoreTheorems.KeptIsLongest` | crates/deepagents/src/memory/store_file.rs:282-346 | any other upward closed set of entries that fits is contained in the survivors |
| `MemoryStoreTheorems.ClockDoesNotMatter` | crates/deepagents/src/memory/store_file.rs:303-320 | with readable stamps, LRU and FIFO eviction do not depend on when the clock is read |
| `MemoryStoreTheorems.EveryRunIsTidy` | crates/deepagents/src/memory/store_file.rs:85-346 | in every run from whatever was loaded, no key gets more entries than it was loaded with, or one; the list stays within the limit from the first put or eviction on and is never longer than the limit or the loaded list; right after a put or an eviction both limits hold |
| `MemoryStoreTheorems.PutIsKeptIff` | crates/deepagents/src/memory/store_file.rs:210-240 | a put writes value and tags to the first entry with its key, or a new one, and touches no other; the key is still there if and only if some entry with it fits together with what would be evicted after it, and with unique keys that is the entry written |
| `MemoryStoreTheorems.GetKeepsLimitsIff` | crates/deepagents/src/memory/store_file.rs:242-252 | a get keeps the byte limit if and only if the new access stamp leaves room for itself |
| `MemoryStoreTheorems.GetCanBreakLimit` | crates/deepagents/src/memory/store_file.rs:210-252 | a put of a 21-byte entry under a limit of 21 bytes fits, and a get with any stamp longer than one byte then breaks the limit |
| `MemoryStoreTheorems.QueryKeepsLimitsIff` | crates/deepagents/src/memory/store_file.rs:254-280 | a query keeps the byte limit if and only if the new stamps of the entries it touches fit in place of the old ones |
| `MemoryStoreTheorems.QueryCanBreakLimit` | crates/deepagents/src/memory/store_file.rs:254-280 | the same put followed by a query for everything breaks the limit too |
| `MemoryStoreTheorems.QueryAnswersNewest` | crates/deepagents/src/memory/store_file.rs:254-272 | a query answers with entries that have the prefix and the tag it names, newest access first and up to its limit, and whatever else has them was accessed no later than any answer |
| `MemoryStoreTheorems.ByAccessIsStableSort` | crates/deepagents/src/memory/store_file.rs:264-268 | answers come newest access first, ties in list order, none lost or invented |
| `MemoryStoreTheorems.GetsAreCounted` | crates/deepagents/src/memory/store_file.rs:242-252 | any number of gets of a key counts the first entry with it up, to the largest 64-bit number at most, leaves the stamp of the last one, and changes nothing else |
| `MemoryStores.FileMemoryStore.EvictIfNeeded` | crates/deepagents/src/memory/store_file.rs:282-346 | the removal loop equals its recursive account, whose order `EvictionFollowsStamps` states, the report counts are exact, and the break for an empty list is never taken |
| `MemoryStores.FileMemoryStore.Put` | crates/deepagents/src/memory/store_file.rs:210-240 | fills missing stamps, overwrites or appends, then evicts |
| `MemoryStores.FileMemoryStore.Get` | crates/deepagents/src/memory/store_file.rs:242-252 | touches and returns the first entry with the key, or changes nothing |
| `MemoryStores.FileMemoryStore.RunQuery` | crates/deepagents/src/memory/store_file.rs:254-280 | returns the hits as they were and touches exactly the entries with their keys |
| `MemoryStores.Oldest` | crates/deepagents/src/memory/store_file.rs:302-331 | the index chosen for removal: the first of the soonest due, or 0 when nothing is due |
| `TodoListTheorems.WriteSucceedsIff` | crates/deepagents/src/runtime/todolist_middleware.rs:166-209 | with unique ids before, which every run keeps, a `write_todos` succeeds if and only if ids are proper, a replacement gives every field, and a summary comes with an item completed now and absent or not completed before; it then leaves exactly the wanted list and summary |
| `TodoListTheorems.RefusalChangesNothing` | crates/deepagents/src/runtime/todolist_middleware.rs:166-209 | any error leaves todos and extra unchanged; a success reports the stored list and leaves every other extra key with its value |
| `TodoListTheorems.MergeIsOverride` | crates/deepagents/src/runtime/todolist_middleware.rs:104-164 | a merge overrides existing items field by field where they stand and appends the others in patch order |
| `TodoListTheorems.MergeTells` | crates/deepagents/src/runtime/todolist_middleware.rs:104-164 | field by field: an item with a patch takes each field that shows something, trimmed, and keeps the others; patches with new ids become items in patch order, trimmed, with missing fields empty; everything else stays as it is where it is |
| `TodoListTheorems.MergeNoticesCompletion` | crates/deepagents/src/runtime/todolist_middleware.rs:104-164 | with unique ids before, a merge notices a completion if and only if an item is completed that was absent or not completed before |
| `TodoListTheorems.IdsAcceptedIff` | crates/deepagents/src/runtime/todolist_middleware.rs:52-64 | ids are accepted if and only if all show something and no two agree once trimmed |
| `Text.TrimSplits` | crates/deepagents/src/runtime/todolist_middleware.rs:52-102 | trimming takes all white space off both ends and nothing else |
| `TodoListTheorems.EveryRunKeepsIdsUnique` | crates/deepagents/src/runtime/todolist_middleware.rs:166-209 | from an empty list every sequence of writes keeps ids unique |
| `TodoListTheorems.FailedCallChangesNothing` | crates/deepagents/src/runtime/todolist_middleware.rs:231-257 | a failed tool call leaves the whole agent state as it was and reports no output |
| `TodoListTheorems.TodoListIsTidy` | crates/deepagents/src/runtime/todolist_middleware.rs:212-258 | as one of any list of middlewares it meets what the runner's index theorem asks of each |
| `TodoLists.ValidateNoDuplicateIds` | crates/deepagents/src/runtime/todolist_middleware.rs:52-64 | the first complaint about an id, in patch order |
| `TodoLists.RequireFieldsForReplace` | crates/deepagents/src/runtime/todolist_middleware.rs:66-102 | the trimmed items, or the first missing field |
| `TodoLists.TodoState.ApplyMerge` | crates/deepagents/src/runtime/todolist_middleware.rs:104-164 | the in-place merge equals its account patch by patch |
| `TodoLists.TodoState.ApplyWriteTodos` | crates/deepagents/src/runtime/todolist_middleware.rs:166-209 | the transaction with its rollback leaves exactly the specified todos, extra and answer |

## Left out

- ResumableRunners.ResumableRunner.Run: does not model tool and skill specifications in the request, audit records, or the copy of `_summarization_events` in the output; they do not influence any step. Nor does it model that the provider-cache events are moved from the copied state in the output to its trace (resumable_runner.rs:63-67); the runner's own state keeps them.
- ResumableRunners.ResumableRunner.CallTool: offloading of large results is an arbitrary function of tool, id, output and state (`Env.offload`), so the two runtimes are compared with the same one although only one of them creates the directory it writes to.
- RuntimeAgreement.RuntimesAgree: is about one run of a fresh runner, since the simple runtime has neither pauses nor further user input.
- HitlLimit.ApprovedRunIsTransparentIff: the only-if half asks for `TurnsShow`. A skill that expands to no call lets a turn go on without a trace in the history, and runs with such skills are covered by `TransparentUnlessHeld` alone.
- ToolCompat.ToolResultsFromMessages: JSON text is an arbitrary `Codec` of printing and parsing functions; that parsing undoes printing is a hypothesis where it is needed. `Value` also has objects with repeated keys, which serde has not; the hypothesis speaks of them too, as if they printed as text that is not JSON. Reading the `tool_calls` field through its serde aliases is the codec's `decodeCalls`.
- PatchToolCalls.PatchDanglingToolCalls: does not model `sanitize_tool_call_id`, which the repair does not use.
- SummarizationTheorems.HistoryIsConserved: the archive is what is handed to the history store. The file store reports success without a path when it cannot write, which the model allows but does not count as a loss. It also takes the stored event to belong to the conversation that is stepped, from its first compaction on.
- SummarizationTheorems.RunnerHistoryIsConserved: asks that nothing else writes the stored event and the list of events. `SubAgentMiddleware` does when a child agent has compacted (subagents/protocol.rs:79-87); `ChildMergeConservesIff` says when nothing of the parent's history is lost by such a merge, and `ChildCompactionLosesAMessage` shows what can be.
- TodoGuard.AlwaysRefusedIff: policies with a memory of their own, whose answer to a command changes during a run, are not covered.
- SummarizationTheorems.VisibleWindowIsBounded: the text of a summary is an arbitrary function cut to its length bound.
- Summarization.SummaryState.HandleCompactConversation: the `f32` ratio test is an arbitrary threshold (`minCompactChars`).
- PromptCache.PromptCacheRegistry.Step: partitions are held as values, so sharing one partition between threads or runtimes is not modelled; the stores themselves are objects (`PartitionedPromptCache`). Calls run one after the other, and the provider's reply, timeouts included, is an input. The events are returned rather than appended to the state.
- PromptCacheTheorems.CachingIsTransparent: SHA-256 over the canonical text is an arbitrary injective function of the canonical tree. The encoding of messages is an arbitrary function that keeps all their fields apart.
- ProviderRequests.EveryRequestIsTheView: is about surroundings that keep a record; that a run with the record of `Recording` ends as the run without it is not proved. `EveryTurnAsksTheView` needs no record.
- CacheStore.MemoryCacheStore.Insert: time is an integer that is passed in; overflow of the expiry instant is not modelled.
- MemoryStores.FileMemoryStore.EvictIfNeeded: one eviction sees one clock reading, while the source reads the clock again for each unreadable stamp (`ClockDoesNotMatter` says when that is no difference); parsing of RFC 3339 stamps is an arbitrary function, and conversion of a time to live beyond the range of `i64` is not modelled.
- MemoryStores.FileMemoryStore.Put: reading, flushing and rendering files are not modelled; a store starts with any list of entries that its file may hold.
- TodoLists.TodoState.ApplyWriteTodos: decoding of the tool input is a parameter, and the call counters the middleware keeps are an arbitrary function of the state.
- The width of counters: the id counter and step counts are unbounded.
- Concurrency: mutexes, shared pointers and cancellation are left out; every operation runs to its end.
- HTTP server, command line, audit sinks, sandboxed tools, sub-agents, skill loading, middleware assembly and the prompt texts.
