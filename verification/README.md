# Verified model of CBrain's governed execution core

CBrain runs AI agents whose tool calls go through a governed runtime. This project models the
parts of it whose correctness is spread over several functions, several workers or several
calls, and proves what they promise:

- **Durable runs.** An agent run is a versioned record in a run store. Several workers may
  drive the same run, and any of them may crash between any two store operations and be
  restarted. The store offers `create`, `load`, a compare-and-swap `save` and
  `claim_tool_dispatch`; `save` checks a version and nothing else. `DurableWorker` is the
  program of one worker cut at its store operations, `DurableProtocol` is any number of workers
  with crashes, `DurableInvariant` is what every step keeps, and `DurableSafety`, `ModelTurns`,
  `TurnLimit`, `CrashTransparency`, `CrashCorner` and `CrashByModel` are the results over every
  execution. `RunEndings` and `DispatchedCalls` say what each step writes, how runs end and what
  their histories hold; `ReferenceAnswers` is the plain run turn by turn. `FoundationLoop` holds the two loops as they are written, over local variables and over the store, with their
  checks for cancellation and deadline, proved to compute the same run and, for the durable one,
  to take exactly the steps of a protocol worker.
- **Review store.** `ReviewStore` is the six-state machine with leases, approvals, expiry,
  freeze, version and event log, one transaction per operation; `ReviewSafety` is what holds
  over every sequence of operations, and `ReviewAnswers` is how each is answered, exactly.
- **Approval gate.** `GovernedRuntime` is the runtime against a gateway that may do anything;
  `ApprovalGate` composes it with the approval inbox and the risk gateway; `ApprovalSafety` is
  what holds over every sequence of execute, approve and freeze calls, and `ApprovalAnswers` is
  how each is answered, exactly.
- **Single-use authorizations.** `AuthorizationClaims` interleaves any number of coordinators
  over one consumption ledger.
- **Learning.** `LearningStore`, `Insights` and `Personalization` are the append-only store with
  its two indexes, the insights engine, and the approval and compilation of guidance;
  `SnapshotOrder` is what the order of appends can change, and `LearningAnswers` is what is stored,
  proposed, trusted and written into a profile, exactly.
- **Release gates.** `RouteInvariance` and `ReleaseGates` are the counting loops of an evaluation
  suite and what their zero counts imply about pairs of runs; `GateAnswers` reads them off the runs.

Digests are modelled in one of two ways. Where the source only compares a digest for equality
(profile fingerprint, idempotency digest) the digested value stands for it. Where it sorts by
digest or uses it as a name, the digest is a number from an unknown function. A result that needs
two digests to differ asks it of the values at hand and never of all values: of the signals
appended (`OneSignalPerName`) or of the groups reported for one window (`Collisionless`). Clocks,
the model, the tool handler, the reviewer verifier, text normalisation, the checks for
cancellation and deadline and the validation of an action are parameters, so every result holds
for whatever they return.

## Findings

Four properties one would expect do not hold of the code in general. Each has an exact condition.

- *Restarting a run does not always leave it unchanged.* On resume the context limit is
  checked again with the open tool call already counted (`cbrain/agent/foundation.py:590-598`), so a
  run that would have gone on can end with `LIMIT_REACHED` after a restart.
  `CrashTransparencyExactly`, for every deployment and profile: restarts are invisible for every
  model, runtime and schedule if and only if no conversation is overfull (`NeverOverfull`), that is,
  no sequence of permitted calls the deployment makes actions of, with observations it can render
  within the limit, has one message more than the context allows while a call is open.
  `RestartChangesTheRun` turns any such conversation into one run with two ends: the worker that is
  never restarted claims the call, and the worker that resumes at that point ends the run. For a
  deployment that accepts calls with fresh ids and renders an empty output within the limit
  (`Hospitable`), the condition can be read off the profile (`CrashTransparencyByLimits`,
  `SafeLimits`): the context limit is odd or below two, or half of it exceeds `max_tool_calls` or
  `max_model_turns`, or the run can never reach a tool. Safe limits are safe for every deployment.
  For one given model and runtime `InvisibleExactly` says the same of the uninterrupted run alone:
  no schedule makes a restart show if and only if that run never prepares a call in an overfull
  context.
- *The learning store can depend on the order of appends.* The digest that decides whether an
  append is a retry leaves out the observation time (`cbrain/agent/insights.py:604-622`).
  `OrderIndependentExactly`: all append orders leave the same store if and only if no two
  different genuine signals share an idempotency key or a digest. `AppendOrderChangesTheSnapshot`:
  for any feedback recorded twice under one key, once inside and once outside the window, and
  the same feedback under another key, one order yields a candidate and another yields nothing;
  `SuchSignalsExist` names three such signals. Not every clash of keys shows in the insights:
  `SnapshotOrderExactly` says which do, namely those by which a group of at least the threshold
  in the window can change.
- *The limit on model turns is not kept over restarts.* A worker that resumes a RUNNING record
  asks the model again (`cbrain/agent/foundation.py:603-644`). `TurnsAreBoundedByStarts`, over every
  execution: the stored count is at most the limit plus the number of starts less one.
  `TurnLimitExactly`: with `n` starts the limit is kept in all executions if and only if at no turn
  the run can get to are there fewer turns left than starts; one start always keeps it, and where
  the last turn can be reached any further start can break it (`OneStartKeepsTheLimit`). At the
  first turn `n` starts store `n` turns for every `n` (`StartsRepeatTurns`, `FirstTurnReachable`).
- *The durable loop and the ephemeral one do not always agree.* The durable loop checks for
  cancellation and the deadline once more before a dispatch (`cbrain/agent/foundation.py:776-779`).
  `LoopsAgreeExactly`: they give the same result if and only if the run never comes to such a
  check that finds something.

Also proved, because one could read the code otherwise: a freeze of the durable review store does
not reach requests parked later (`FreezeReachesExistingRows`).

## Model

| member | source | states |
|---|---|---|
| `DurableSafety.AtMostOnceDispatch` | cbrain/agent/foundation.py:747-878 | over every interleaving of workers, crashes and restarts each step is claimed at most once, the k-th dispatch belongs to the k-th claim and its winner, and request ids never repeat if the id factory is injective in the step |
| `DurableSafety.ExactAccounting` | cbrain/agent/foundation.py:712-878 | successful claims equal stored tool calls plus one while a call is in flight, and never exceed either limit of the profile, however often the run restarts |
| `DurableSafety.WritesAreGuarded` | cbrain/agent/store_memory.py:34-119 | although `save` checks only the version, a stored run is never overwritten by a new one, a terminal record never changes, and a record in flight is changed only by the worker that claimed it |
| `DurableSafety.HistoryOnlyGrows` | cbrain/agent/durable_loop.py:175-301 | over any continuation of any execution, messages, events, claims and dispatches only grow and terminal records stay |
| `DurableSafety.LostFlightIsNeverRetried` | cbrain/agent/durable_loop.py:123-132 | once the worker holding a claim is gone, the run is never written or dispatched again |
| `DurableSafety.StoredRecordsAreSound` | cbrain/agent/durable.py:482-505 | every stored record passes the load check; in RUNNING nothing is pending and every call is answered; in the pending states exactly the last message is the open call and it restores |
| `DurableSafety.RestoredExecutionIsThePerformedOne` | cbrain/agent/durable_loop.py:388-410 | resuming a completed call restores the status, flag, output and reason of the execution performed for that step |
| `RunEndings.RunsEndForACause` | cbrain/agent/foundation.py:880-961 | over every interleaving only the last tool call of a run can have been refused or have failed; a completed run executed every call, a rejected one ends with a call that was blocked or sent to review, a run that ends with a call that failed is a TOOL_FAILURE and never REJECTED; the stored state is completed, cancelled or failed as the status says |
| `RunEndings.StartAnswers` | cbrain/agent/durable_loop.py:46-152 | what a worker that starts does, for every store: raise, refuse, report a finished or in-flight run, create, or enter the loop in its phase |
| `RunEndings.TopEnds` | cbrain/agent/foundation.py:565-598 | the terminal record written at the top of the loop, status and state spelled out: unregistered tools, turn limit, cancellation, deadline, context limit, in this order |
| `RunEndings.TopAsks` | cbrain/agent/foundation.py:612-644 | a model error ends the run as MODEL_FAILURE; a reply is counted and noted |
| `RunEndings.TopResumes` | cbrain/agent/foundation.py:603-779 | a resumed prepared call goes on to its claim and a resumed completed one to its merge with the stored status and output, unless blocked, cancelled or late |
| `RunEndings.TextEnds` | cbrain/agent/foundation.py:646-689 | a text within the limit completes the run with exactly that text; any other end of a turn without a call, with its status |
| `RunEndings.CallEnds` | cbrain/agent/foundation.py:691-851 | a proposed call ends the run with the spelled-out status, or is stored with the agent, tool, registered capability, arguments, run and the step's request id as both id and key |
| `RunEndings.ClaimAndCompletionStore` | cbrain/agent/foundation.py:855-878 | the claim changes state and version only; the completion adds the three facts of the execution and one call |
| `RunEndings.MergeEnds` | cbrain/agent/foundation.py:728-961 | BLOCKED and REVIEW_REQUIRED end the run as REJECTED, CONTROL_FAILURE and INDETERMINATE as TOOL_FAILURE, an over-long observation as LIMIT_REACHED; otherwise the observation is appended |
| `RunEndings.FirstStored` | cbrain/agent/durable.py:436-461 | the record a new run starts with, field by field |
| `RunEndings.LostClaimIsReported` | cbrain/agent/durable_loop.py:155-172 | a worker that loses a claim reports the stored run, finished or in flight, and changes nothing |
| `DispatchedCalls.HistoryIsTheLog` | cbrain/agent/foundation.py:747-961 | over every interleaving each claimed action is a permitted call of the stored history with its arguments and the step's own request id, and the result of every step the run went past is the rendered output of that step's executed dispatch, right after its call |
| `DispatchedCalls.CapabilityIsTheRegisteredOne` | cbrain/agent/foundation.py:791-851 | where all workers have the same tools, every claim has the capability registered for its tool |
| `ModelTurns.TurnsAreBoundedByStarts` | cbrain/agent/foundation.py:582-644 | over every interleaving, with any crashes and inputs, the stored count of model turns is at most the limit plus the number of starts less one |
| `ModelTurns.StartsPayForTurns` | cbrain/agent/foundation.py:582-644 | the count is paid for by starts: those used up, those of waiting workers, and one about to be used |
| `ModelTurns.StepEffect` | cbrain/agent/foundation.py:582-961 | every step of every worker has one of five effects on the count and the step number |
| `TurnLimit.TurnLimitExactly` | cbrain/agent/foundation.py:582-644 | for every deployment and session the limit is kept in all executions with n starts if and only if at no turn the run can get to are there fewer turns left than starts |
| `TurnLimit.OneStartKeepsTheLimit` | cbrain/agent/foundation.py:582-644 | where the last turn can be reached, the limit is kept exactly for at most one start |
| `TurnLimit.StartsRepeatTurns` | cbrain/agent/foundation.py:603-644 | at any turn the run can get to, n starts store exactly n model turns there, for every n |
| `TurnLimit.FirstTurnReachable` | cbrain/agent/foundation.py:582-644 | the first turn can always be reached, so no bound on turns holds for all numbers of starts |
| `TurnLimit.TurnsComeFromAReachableTurn` | cbrain/agent/foundation.py:582-961 | behind every stored count there is a turn the run got to, and the starts bound the turns beyond it |
| `DurableProtocol.ExecInv` | cbrain/agent/foundation.py:504-961 | the invariant of all workers, the store and the audit logs holds after every execution: a worker's version is at most the store's, and if equal its copy is the stored record |
| `DurableProtocol.StepKeepsInv` | cbrain/agent/foundation.py:504-961 | one worker's step keeps that invariant for all the others |
| `DurableInvariant.WorkerStepKeeps` | cbrain/agent/foundation.py:582-961 | every step of every worker, whatever it reads from outside, turns a sound store and stage into a sound successor |
| `DurableInvariant.LoopTopKeeps` | cbrain/agent/foundation.py:582-644 | the same for the top of the loop: cancellation, deadline, context limit, resumption, model turn |
| `DurableInvariant.ModelReturnedKeeps` | cbrain/agent/foundation.py:646-713 | the same for checking the model's output |
| `DurableInvariant.PrepareKeeps` | cbrain/agent/foundation.py:760-851 | the same for preparing a tool call |
| `DurableInvariant.ClaimKeeps` | cbrain/agent/foundation.py:853-862 | the same for the claim, won or lost |
| `DurableInvariant.MergeKeeps` | cbrain/agent/foundation.py:880-961 | the same for merging a result or ending on a rejected one |
| `DurableInvariant.FinishKeeps` | cbrain/agent/foundation.py:963-1008 | the same for writing a terminal record |
| `DurableInvariant.FirstRecordGood` | cbrain/agent/durable.py:436-461 | the record a run starts with is sound |
| `DurableInvariant.EnterLoopOK` | cbrain/agent/durable_loop.py:110-152 | a resumed record becomes a sound context in the right phase |
| `DurableInvariant.PendingRestores` | cbrain/agent/durable_loop.py:354-385 | the saved turn of a sound pending record restores to its open call |
| `CrashTransparency.CrashTransparent` | cbrain/agent/foundation.py:582-745 | where no conversation is overfull, every stored record and every claim, under any interleaving and any crashes, is the uninterrupted run at some point |
| `CrashTransparency.RunNeverGoesBack` | cbrain/agent/foundation.py:582-745 | that point never moves back: each move stays or takes the next step |
| `CrashTransparency.UnrestartedRunIsOnReference` | cbrain/agent/foundation.py:582-745 | a run whose worker is never restarted is on the reference, whatever the limits and whenever it crashes |
| `CrashTransparency.FaithfulRunSteady` | cbrain/agent/foundation.py:582-961 | whatever the limits, every stored history is a conversation of accepted calls and rendered answers in turn |
| `CrashTransparency.CrashedRunEndsLikeThePlainLoop` | cbrain/agent/foundation.py:97-502 | where no conversation is overfull, a crashed and resumed run that ends has the status, final text and tool calls of the plain loop |
| `CrashTransparency.RefReaches` | cbrain/agent/foundation.py:97-745 | the uninterrupted durable run ends, and as the plain loop does |
| `CrashCorner.RestartChangesTheRun` | cbrain/agent/foundation.py:590-598 | for every deployment and overfull conversation one run with two ends: unrestarted it claims the open call, on the reference; resumed at that point it is ended for the context limit, off the reference |
| `CrashCorner.CrashTransparencyExactly` | cbrain/agent/foundation.py:590-598 | for every deployment and profile, restarts are invisible for all models, runtimes and schedules if and only if no conversation is overfull |
| `CrashCorner.CrashTransparencyByLimits` | cbrain/agent/foundation.py:590-598 | for a hospitable deployment that holds if and only if the limits are safe |
| `CrashByModel.InvisibleExactly` | cbrain/agent/foundation.py:590-598 | for every deployment, profile, model and runtime, no schedule makes a restart show if and only if the uninterrupted run never prepares a call in an overfull context |
| `CrashByModel.LoneWorkerReaches` | cbrain/agent/foundation.py:582-961 | a lone worker gets to every point of the reference |
| `FullContext.HospitableExactly` | cbrain/agent/foundation.py:590-598 | a hospitable deployment has an overfull conversation exactly outside the safe limits |
| `FullContext.SafeLimitsSuffice` | cbrain/agent/foundation.py:590-598 | under safe limits no deployment has an overfull conversation |
| `DurableRefinement.StepKeepsRest` | cbrain/agent/foundation.py:582-961 | every step of a lone worker, whatever its checks find, leaves the result it is bound to return unchanged |
| `DurableRefinement.EnterExpects` | cbrain/agent/durable_loop.py:110-152 | a resumed worker is bound to the rest of the stored run |
| `DurableRefinement.FreshRunExpects` | cbrain/agent/durable_loop.py:46-107 | a new run is bound to the result of the reference run |
| `FoundationLoop.RunEphemeral` | cbrain/agent/foundation.py:97-502 | for any model, runtime and signals the loop over local variables computes the reference run of a loop without the check before a dispatch; a blank task raises and an over-long one is refused |
| `FoundationLoop.RunTurn` | cbrain/agent/foundation.py:152-492 | one pass of that loop: cancellation and deadline before and after the model, context limit, model turn, output |
| `FoundationLoop.ExecuteProposal` | cbrain/agent/foundation.py:290-492 | the execution of a proposed call in that loop; a dispatched call that is blocked or sent to review ends it as REJECTED, one that failed or is unknown as TOOL_FAILURE, and the messages after an executed one are spelled out |
| `AgentReference.LoopsAgreeExactly` | cbrain/agent/foundation.py:776-779 | for every run the loop with the check before a dispatch and the loop without it give the same result if and only if the run never comes to such a check that finds something |
| `AgentReference.CheckShowsExactly` | cbrain/agent/foundation.py:776-779 | the same from any turn on |
| `ReferenceAnswers.CallDispatched` | cbrain/agent/foundation.py:388-493 | a dispatched call, the action spelled out: blocked or sent to review the run is REJECTED, failed or unknown it is TOOL_FAILURE, an over-long observation is LIMIT_REACHED, else the next turn follows with the call and its result appended |
| `ReferenceAnswers.CallRefused` | cbrain/agent/foundation.py:290-387 | why a proposed call ends the run, with each status, in order |
| `ReferenceAnswers.TurnSpeaks` | cbrain/agent/foundation.py:196-288 | model failure, cancellation and deadline after the model, text, over-long text and unsupported output, with each status |
| `ReferenceAnswers.TurnStops` | cbrain/agent/foundation.py:152-185 | turn limit, cancellation, deadline and context limit before the model, with each status |
| `ReferenceAnswers.RunOpens` | cbrain/agent/foundation.py:119-150 | the first messages of a run; unregistered tools end it as MODEL_FAILURE |
| `ReferenceAnswers.RunResumes` | cbrain/agent/foundation.py:582-745 | what a worker makes of a stored prepared or completed call, with each status |
| `FoundationLoop.RunDurable` | cbrain/agent/foundation.py:504-745 | for any model, runtime and signals the durable loop takes exactly the steps of one protocol worker, touches no other run, returns the reference run's status, text, tool calls and turns for a new run, continues a stored one, reports a finished or in-flight one as it is stored, refuses an over-long task, and raises on a blank task or on another profile or task |
| `FoundationLoop.RunLoop` | cbrain/agent/foundation.py:582-745 | the loop with its checks stays on the worker's track to the expected end |
| `FoundationLoop.FreshTurn` | cbrain/agent/foundation.py:612-743 | one turn with a model call stays on track |
| `FoundationLoop.HandleOutput` | cbrain/agent/foundation.py:646-743 | the rest of a turn, from the model's output on, stays on track |
| `FoundationLoop.ResumedTurn` | cbrain/agent/foundation.py:603-743 | one turn that resumes a pending call stays on track |
| `FoundationLoop.FinishJob` | cbrain/agent/foundation.py:853-961 | claim, dispatch, record and merge stay on track |
| `FoundationLoop.PersistTerminal` | cbrain/agent/foundation.py:963-1008 | writes the terminal record of the context, or raises on a conflict |
| `FoundationLoop.PersistContext` | cbrain/agent/durable_loop.py:175-301 | writes the updated record where None means keep, or raises on a conflict |
| `FoundationLoop.AskModel` | cbrain/agent/foundation.py:612-644 | records the turn and its count, or ends on a model error |
| `FoundationLoop.ActOnOutput` | cbrain/agent/foundation.py:646-713 | ends if cancelled or late, ends with the text, refuses a bad output or call, or prepares the call |
| `FoundationLoop.PrepareTool` | cbrain/agent/foundation.py:760-851 | stores the action and the open call, or ends on a blocked tool, a cancellation, the deadline or an invalid action |
| `FoundationLoop.ClaimTool` | cbrain/agent/foundation.py:855-862 | wins the claim on the stored version, or loses it without a change |
| `FoundationLoop.CompleteTool` | cbrain/agent/foundation.py:864-878 | stores the four facts of the execution and the new count |
| `FoundationLoop.MergeTool` | cbrain/agent/foundation.py:880-961 | appends the observation and clears the pending fields, or ends and stores REJECTED for a blocked or reviewed call, TOOL_FAILURE for a failed or unknown one, LIMIT_REACHED for an over-long observation |
| `FoundationLoop.RestoreCall` | cbrain/agent/durable_loop.py:354-385 | returns the saved call exactly when turn, pending fields and action agree |
| `History.ValidateHistory` | cbrain/models/contracts.py:262-287 | accepts exactly the histories in which every call is answered at once by its own result, but for one allowed open call at the end |
| `History.PairedMeaning` | cbrain/models/contracts.py:262-287 | the same position by position, in both directions, with distinct call ids |
| `History.HistoryMeaning` | cbrain/models/contracts.py:262-287 | a history is valid exactly when every message is in place, call ids differ, and an unanswered call is last and allowed |
| `History.ResultClosesHistory` | cbrain/models/contracts.py:262-287 | answering the open call completes the history |
| `RunStores.InMemoryRunStore.Create` | cbrain/agent/store_memory.py:21-25 | succeeds exactly for a new run |
| `RunStores.InMemoryRunStore.Load` | cbrain/agent/store_memory.py:27-32 | the stored record, or an error |
| `RunStores.InMemoryRunStore.Save` | cbrain/agent/store_memory.py:34-74 | a compare-and-swap on the version alone |
| `RunStores.InMemoryRunStore.ClaimToolDispatch` | cbrain/agent/store_memory.py:76-119 | moves a prepared record of that version to in flight; a lost race is no error and no change |
| `RunStores.SQLiteRunStore.Create` | cbrain/agent/store_sqlite.py:49-66 | the same register as in memory |
| `RunStores.SQLiteRunStore.Load` | cbrain/agent/store_sqlite.py:68-89 | the same register; a row that fails its checks is reported as corrupted |
| `RunStores.SQLiteRunStore.Save` | cbrain/agent/store_sqlite.py:91-141 | the same compare-and-swap, and the columns keep mirroring the record |
| `RunStores.SQLiteRunStore.ClaimToolDispatch` | cbrain/agent/store_sqlite.py:143-225 | the same claim, and the columns keep mirroring the record |
| `ReviewSafety.ConsumedAtMostOnce` | cbrain/company/durable_approval.py:310-358 | over every sequence of operations a request is consumed at most once |
| `ReviewSafety.ConsumptionIsEarned` | cbrain/company/durable_approval.py:262-358 | a consumption follows an approval by a directory actor of the required role, for the digest and role first parked, with a lifetime within the maximum, and the clock read in the check is before the expiry |
| `ReviewSafety.LeasesAreExclusive` | cbrain/company/durable_approval.py:180-260 | two leases by different workers are separated by a release of the earlier owner or the expiry of its latest lease; with a clock that never goes back the later one is granted after that expiry |
| `ReviewSafety.LogIsFaithful` | cbrain/company/durable_approval.py:477-587 | the log is as long as the version, replaying it gives the state, and lease fields are set exactly while leased |
| `ReviewSafety.RaisedCallsChangeNothing` | cbrain/company/durable_approval.py:176-236 | an operation that raises leaves row and log unchanged even if it had expired a lease first |
| `ReviewSafety.RowsOnlyAdvance` | cbrain/company/durable_approval.py:505-587 | rows stay, logs grow, digest and role are fixed and the rank of the state never falls |
| `ReviewSafety.FreezeReachesExistingRows` | cbrain/company/durable_approval.py:360-388 | every existing row is frozen for good; for a request without a row all later calls go as if there had been no freeze, and it can be parked |
| `ReviewSafety.PerformOK` | cbrain/company/durable_approval.py:123-400 | every operation keeps a row in order, and changes nothing if it raises |
| `ReviewAnswers.ConsumedExactly` | cbrain/company/durable_approval.py:262-358 | over every sequence of calls a consumption succeeds if and only if it names the digest and role the request was first parked with, after an approval that nothing has ended since (no freeze, no check at or past the expiry, no other consumption with its digest and role), before the expiry in both checks |
| `ReviewAnswers.ApprovesExactly` | cbrain/company/durable_approval.py:262-308 | an approval is given if and only if the lifetime is within the maximum, the request is parked or leased, the role is the parked one and the directory lists the actor for it; it clears the lease and records actor, time and expiry |
| `ReviewAnswers.LeasesExactly` | cbrain/company/durable_approval.py:180-236 | a lease is granted or renewed if and only if worker and length are in order and the request is parked, its lease has run out, or the worker holds it in time; the new expiry is the clock plus the length asked for, by default the maximum |
| `ReviewAnswers.ReleasesExactly` | cbrain/company/durable_approval.py:238-260 | released by the owner only, with nothing asked where no lease is left |
| `ReviewAnswers.ParksExactly` | cbrain/company/durable_approval.py:123-178 | parked if and only if the digest is not blank and a row, if there is one, says the same and is parked, leased or approved |
| `ReviewAnswers.ConsumesExactly` | cbrain/company/durable_approval.py:310-358 | the answer and the new row of a consumption, whatever the row before |
| `ReviewAnswers.LooksExactly` | cbrain/company/durable_approval.py:390-400 | a look shows the row with a lease or an approval ended that is over |
| `ReviewAnswers.FreezesExactly` | cbrain/company/durable_approval.py:360-388 | a freeze with a reason ends each row that is not frozen, once |
| `ReviewAnswers.StandsUntilEnded` | cbrain/company/durable_approval.py:310-400 | an approval stands until exactly such a call |
| `ReviewStore.DurableReviewStore.ParkRequest` | cbrain/company/durable_approval.py:123-178 | performs the park transition on its row and leaves all others |
| `ReviewStore.DurableReviewStore.ClaimLeaseOf` | cbrain/company/durable_approval.py:180-236 | performs the lease transition, or rolls back; the holder and the expiry of a granted lease |
| `ReviewStore.DurableReviewStore.ReleaseLeaseOf` | cbrain/company/durable_approval.py:238-260 | performs the release transition, or rolls back |
| `ReviewStore.DurableReviewStore.ApproveRequest` | cbrain/company/durable_approval.py:262-308 | performs the approval transition, or rolls back; it answers if and only if lifetime, state, role and directory allow it, a leased request included |
| `ReviewStore.DurableReviewStore.ConsumeIfApproved` | cbrain/company/durable_approval.py:310-358 | performs the consumption transition; it answers true if and only if digest and role match an approved row before its expiry in both checks; a refusal may still expire the approval |
| `ReviewStore.DurableReviewStore.Freeze` | cbrain/company/durable_approval.py:360-388 | freezes every row that exists, each once |
| `ReviewStore.DurableReviewStore.GetRequest` | cbrain/company/durable_approval.py:390-400 | reports the row after expiring what is over |
| `GovernedRuntime.Execute` | cbrain/runtime.py:16-90 | against any gateway the tool is entered at most once; a reply that fits what happened is passed on unchanged, any other becomes INDETERMINATE after an entry and CONTROL_FAILURE before one, each with its reason; the result carries the action's request id |
| `GovernedRuntime.Conclude` | cbrain/runtime.py:33-112 | an honest reply is passed on unchanged, any other becomes a failure that says no more than is known |
| `GovernedRuntime.OnceHandler.Invoke` | cbrain/runtime.py:24-31 | only the first attempt enters the real handler |
| `ApprovalSafety.ReviewEnteredAtMostOnce` | cbrain/company/approval.py:180-313 | over any sequence of calls a REVIEW-class tool is entered at most once per request id, whatever it did |
| `ApprovalSafety.EntryIsRefusedLater` | cbrain/company/approval.py:277-311 | after an entry, even one that raised, later calls are blocked or fail before the tool; blocked whenever the inbox is not frozen, a role is configured and the refusal has a reason that is not blank |
| `ApprovalSafety.ReviewEntryIsEarned` | cbrain/company/approval.py:113-213 | an entry follows a park with the same digest and role and an unexpired approval by an accredited actor of that role |
| `ApprovalSafety.EarnedReviewEnters` | cbrain/company/approval.py:180-291 | conversely, with the approval given, unspent and unexpired and no freeze, a valid call enters the tool |
| `ApprovalSafety.FrozenInboxNeverDispatches` | cbrain/company/approval.py:107-261 | no call after a freeze enters any tool, parks or approves |
| `ApprovalSafety.ResultsAreTruthful` | cbrain/runtime.py:33-90 | executed exactly when the tool was entered and returned, indeterminate exactly when it was entered and raised |
| `ApprovalSafety.InboxOnlyAdvances` | cbrain/company/approval.py:69-217 | parked requests and approvals never change, consumption and freeze are never undone |
| `ApprovalAnswers.EntersExactly` | cbrain/company/approval.py:247-313 | over every sequence of calls the tool is entered if and only if no freeze came before, the attempt is valid, its tool is known, and its risk is ALLOW, or REVIEW and the call holds an approval; a BLOCK-class tool is never entered |
| `ApprovalAnswers.PlainAnswers` | cbrain/evaluation/company_gateway.py:40-90 | the answer to a call whose tool needs no review: frozen, invalid, unknown tool, BLOCK (blocked_by_policy, not entered) and ALLOW (executed or indeterminate), each with status and reason |
| `ApprovalAnswers.ReviewAnswers` | cbrain/company/approval.py:247-313 | the answer to a valid call whose tool needs a review: entered, waiting for a review, or blocked |
| `ApprovalAnswers.ParksExactly` | cbrain/company/approval.py:113-137 | a call parks its request if and only if it asks for a review with a digest, nobody approved the request yet and it was never parked differently |
| `ApprovalAnswers.ApprovesExactly` | cbrain/company/approval.py:139-178 | an approval is recorded if and only if nothing froze the inbox, the lifetime is within the maximum, the request was parked for the role of the principal, the directory lists the principal and nobody approved before |
| `ApprovalAnswers.SpentExactly` | cbrain/company/approval.py:180-213 | an approval is spent if and only if the tool of its request was entered before |
| `ApprovalAnswers.FrozenExactly` | cbrain/company/approval.py:107-111 | the inbox is frozen if and only if a freeze with a reason was called |
| `ApprovalAnswers.FrozenAnswer` | cbrain/company/approval.py:107-111 | the reason a frozen inbox gives is that of the last freeze that had one |
| `ApprovalGate.ApprovalInbox.Freeze` | cbrain/company/approval.py:107-111 | freezes for any reason that is not blank |
| `ApprovalGate.ApprovalInbox.Park` | cbrain/company/approval.py:113-137 | parks a request, or raises if frozen, without digest or parked differently |
| `ApprovalGate.ApprovalInbox.Approve` | cbrain/company/approval.py:139-178 | records one approval exactly for an accredited actor of the parked role and a lifetime within the maximum |
| `ApprovalGate.ApprovalInbox.ConsumeIfApproved` | cbrain/company/approval.py:180-213 | spends the approval exactly when it matches, is unspent and has not expired |
| `ApprovalGate.ApprovalInbox.RecordFor` | cbrain/company/approval.py:215-217 | the approval on record |
| `ApprovalGate.CompanyRiskGateway.DecideAndExecute` | cbrain/evaluation/company_gateway.py:40-90 | the decision by validation and risk, and what it notes; what it answers for each risk is in `PlainAnswers` |
| `ApprovalGate.ApprovalBoundedGateway.DecideAndExecute` | cbrain/company/approval.py:247-313 | the decision on the inbox, the entry and the reply; the handler calls of both gateways and the last status are noted exactly as they happened |
| `ApprovalGate.ApprovalBoundedGateway.RunApproved` | cbrain/company/approval.py:277-291 | an approved call is noted only after the tool returned |
| `ApprovalGate.ApprovalBoundedGateway.Execute` | cbrain/runtime.py:16-90 | the runtime over this gateway |
| `AuthorizationClaims.AtMostOneClaim` | cbrain/adapters/privatevault_claim.py:40-94 | for any interleaving of lookups, verifications, claims and deaths at most one call returns of those whose uses clash |
| `AuthorizationClaims.OneClaimPerAuthorization` | cbrain/adapters/privatevault_claim.py:40-94 | at most one call returns per organisation and authorization id of the request, and at most one per digest of its authorization |
| `AuthorizationClaims.RowNamesTheAuthorization` | cbrain/adapters/privatevault_consumption.py:39-85 | the row a claim adds has the organisation, id and digest of the request's authorization |
| `AuthorizationClaims.ClaimReturnsExactly` | cbrain/adapters/privatevault_claim.py:81-94 | a checked claim whose commit is acknowledged returns if and only if no row has that organisation and id, or that digest |
| `AuthorizationClaims.UseNamesItsAuthorization` | cbrain/adapters/privatevault_consumption.py:39-85 | when a use can be built, and what it says |
| `AuthorizationClaims.BeginsExactly` | cbrain/adapters/privatevault_claim.py:48-67 | which requests get as far as the lookup |
| `AuthorizationClaims.LooksExactly` | cbrain/adapters/privatevault_claim.py:69-79 | a lookup finds a use if and only if a row has its authorization or its digest |
| `AuthorizationClaims.VerifiesExactly` | cbrain/adapters/privatevault_claim.py:71-89 | which verdicts lead on to the claim |
| `AuthorizationClaims.ClaimIsTheVerifiedUse` | cbrain/adapters/privatevault_claim.py:52-94 | a returned claim is the use verified at the claim time, and is the row it added |
| `AuthorizationClaims.RowsComeFromClaims` | cbrain/consumption.py:145-173 | every ledger row was put there by the claim of a job that had it verified |
| `AuthorizationClaims.LedgerIsUnique` | migrations/postgres/001_execution_authorization_uses.sql:1-22 | no two rows share an authorization or a digest |
| `AuthorizationClaims.LedgerOnlyGrows` | cbrain/consumption.py:94-105 | rows are never changed or removed |
| `AuthorizationClaims.VerifyAndClaim` | cbrain/adapters/privatevault_claim.py:40-94 | one coordinator alone succeeds exactly on a well-formed, unused, unchanged and committed authorization, adds exactly its use, says that it is consumed if and only if a row has its authorization or digest, and takes the moves of the interleaved model |
| `AuthorizationClaims.ConsumptionStore.IsConsumed` | cbrain/consumption.py:117-143 | whether a row has the same key or digest |
| `AuthorizationClaims.ConsumptionStore.ClaimOnce` | cbrain/consumption.py:145-173 | inserts unless a row clashes; an error may hide a commit |
| `LearningStore.InMemoryLearningStore.AppendSignal` | cbrain/agent/insights_store.py:157-169 | accepts exactly a genuine signal under a new key and name, or one that agrees with the recorded one on all but name and time, which is then returned; both indexes keep agreeing and nothing recorded changes |
| `LearningStore.InMemoryLearningStore.AppendApproval` | cbrain/agent/insights_store.py:198-210 | the same for approvals |
| `LearningStore.InMemoryLearningStore.ListSignals` | cbrain/agent/insights_store.py:171-188 | exactly the selected signals, in order of time and id |
| `LearningStore.InMemoryLearningStore.ListApprovals` | cbrain/agent/insights_store.py:212-223 | exactly the agent's approvals, in order of id |
| `LearningStore.InMemoryLearningStore.LoadSignals` | cbrain/agent/insights_store.py:190-196 | the named signals once each, in order of first mention, or an error if one is missing |
| `LearningStore.InMemoryLearningStore.LoadApprovals` | cbrain/agent/insights_store.py:225-231 | the named approvals once each, or an error if one is missing |
| `LearningStore.UniqueIds` | cbrain/agent/insights_store.py:66-76 | the ids in order of first occurrence |
| `LearningStore.UniqueKeepsOrder` | cbrain/agent/insights_store.py:66-76 | each id keeps the place of its first occurrence |
| `LearningStore.SelectedExactly` | cbrain/agent/insights_store.py:171-188 | what is listed: the stored signals of the agent within the bounds given |
| `LearningStore.ApprovalsOfExactly` | cbrain/agent/insights_store.py:212-223 | what is listed: the stored approvals of the agent |
| `LearningAnswers.StoredExactly` | cbrain/agent/insights.py:636-671 | a signal is stored if and only if it was appended, has one of the three shapes, is named by its digest and came before all others of its key |
| `LearningStore.GrowOnlyExtends` | cbrain/agent/insights_store.py:147-231 | no run of appends, accepted or refused, changes or loses a record |
| `LearningStore.FirstAppendWins` | cbrain/agent/insights_store.py:157-169 | of the genuine signals with one key the first appended is kept, if no two different ones share a digest |
| `LearningStore.OrderIndependentExactly` | cbrain/agent/insights_store.py:157-169 | for every digest function and all signals: every append order leaves the same store if and only if no two different genuine signals share a key or a digest |
| `LearningStore.OrderMatters` | cbrain/agent/insights.py:604-622 | two different genuine signals with one key, or one digest, make the store depend on the order |
| `LearningStore.StoredWasAppended` | cbrain/agent/insights_store.py:157-169 | after any appends the indexes agree and hold only what was appended |
| `Insights.RequireHomogeneousHumanGroup` | cbrain/agent/insights.py:171-211 | accepts exactly evidence of at least two distinct human signals of one agent, kind and text, and returns it sorted |
| `Insights.SortKeepsHomogeneous` | cbrain/agent/insights.py:171-211 | whether evidence is accepted does not depend on its order |
| `Insights.CandidateDependsOnElements` | cbrain/agent/insights.py:1160-1197 | a candidate depends on its evidence as a set only |
| `Insights.ReconstructsFromEvidence` | cbrain/agent/insights.py:1160-1197 | loading a candidate's evidence ids and rebuilding gives the candidate back |
| `Insights.GroupSignals` | cbrain/agent/insights.py:1249-1281 | the dictionaries hold exactly the non-empty groups |
| `Insights.ReportGroup` | cbrain/agent/insights.py:1283-1342 | one more group adds exactly its finding and, if human, its candidate; no group is refused |
| `Insights.AnalyzeSignals` | cbrain/agent/insights.py:1242-1369 | one finding per group of at least the threshold, one candidate per human one, nothing else, in digest order |
| `Insights.Analyze` | cbrain/agent/insights.py:1221-1240 | the same for the signals of the store in the window |
| `Insights.CandidateIffGroup` | cbrain/agent/insights.py:1283-1301 | a candidate is proposed if and only if a human group of at least the threshold makes it |
| `Insights.CandidatesTellGroups` | cbrain/agent/insights.py:1283-1301 | different human groups of the threshold make candidates with different hashes |
| `Insights.CandidateNamesItsGroup` | cbrain/agent/insights.py:1283-1301 | a candidate names exactly the evidence of its group |
| `LearningAnswers.CandidateExactly` | cbrain/agent/insights.py:1160-1197 | evidence makes a candidate if and only if it is two or more signals of people with ids of their own, about one agent, of one kind and text; the candidate has the words of the earliest, all ids in order, and is a skill exactly for workflows |
| `LearningAnswers.ProposalExactly` | cbrain/agent/insights.py:1283-1301 | a candidate is proposed if and only if feedback was repeated in the window as often as requested and at least twice, and it rests on all repetitions |
| `LearningAnswers.FindingExactly` | cbrain/agent/insights.py:1119-1158 | a finding is reported if and only if its group has at least as many signals as requested and at least two; its kind, its ids and whether it proposes a candidate |
| `LearningAnswers.WindowExactly` | cbrain/agent/insights.py:1119-1121 | the window: the agent's stored signals of the last days, none from later |
| `LearningAnswers.ReportsAreSorted` | cbrain/agent/insights.py:1344-1349 | findings by the name of their kind and digest, candidates by digest |
| `LearningAnswers.SnapshotDigestExactly` | cbrain/agent/insights.py:1350-1359 | the digest of a snapshot covers its scope and the digests of all it holds |
| `Insights.SnapshotUnique` | cbrain/agent/insights.py:1344-1369 | an exact snapshot is determined by its signals |
| `Insights.SnapshotIgnoresAppendOrder` | cbrain/agent/insights.py:1242-1369 | with one signal per key and per digest every append order gives the same findings and candidates |
| `Insights.AppendOrderChangesTheSnapshot` | cbrain/agent/insights.py:604-622 | for all such signals: one order of three appends gives an exact snapshot with a candidate, another an empty one |
| `Insights.SuchSignalsExist` | cbrain/agent/insights.py:604-622 | three concrete signals of that kind |
| `SnapshotOrder.SnapshotOrderExactly` | cbrain/agent/insights.py:1242-1369 | all append orders yield the same findings and candidates if and only if, whichever signal of each key is kept, the same groups reach the threshold in the window with the same signals |
| `SnapshotOrder.SameSnapshotExactly` | cbrain/agent/insights.py:1242-1369 | two listings give the same snapshot if and only if the same groups reach the threshold with the same signals |
| `SnapshotOrder.StoreIsChoice` | cbrain/agent/insights_store.py:157-169 | every append order leaves exactly one genuine signal for every key |
| `SnapshotOrder.ChoiceIsStored` | cbrain/agent/insights_store.py:157-169 | every such choice is left by some append order |
| `Personalization.Approve` | cbrain/agent/insights.py:1619-1672 | succeeds exactly for a verified reviewer, a current clock, a matching profile, a current snapshot if one is presented and a candidate the store proposes, unless the review is on record with other content; the record names the reviewer, the attestation, the profile, the candidate's words and evidence and, if new, this time; it can be trusted and is bound to the profile |
| `Personalization.Record` | cbrain/agent/insights.py:1461-1493 | the record of an approval field by field, new or as it was stored before |
| `Personalization.FindOffer` | cbrain/agent/insights.py:1632-1662 | finds the presented candidate exactly if the store proposes it now and the presented snapshot is current |
| `LearningAnswers.ApprovedRuleIsCompiled` | cbrain/agent/insights.py:1674-1754 | a rule approved for a profile is in every later compilation of that profile, in the approved words on a line of their own, whatever was appended since |
| `LearningAnswers.ApprovedSkillIsCompiled` | cbrain/agent/insights.py:1674-1754 | the same for an approved skill wherever it is activated, under its heading |
| `LearningAnswers.InstructionsExactly` | cbrain/agent/insights.py:1728-1745 | the instructions of a compiled profile letter by letter |
| `LearningAnswers.CompiledInOrder` | cbrain/agent/insights.py:1706-1727 | rules and skills stand in the order of their candidates' digests |
| `LearningAnswers.TrustedExactly` | cbrain/agent/insights.py:1584-1617 | an approval is trusted if and only if its reviewer verifies, it is about the agent, and its words, kind, digest and skill id rest on two or more stored signals it names |
| `Personalization.VerifySnapshot` | cbrain/agent/insights.py:1545-1558 | accepts exactly the snapshot the store yields for its scope and time |
| `Personalization.ClockCheck` | cbrain/agent/insights.py:1560-1566 | refuses a clock behind any recorded time |
| `Personalization.ProposalIsSound` | cbrain/agent/insights.py:1654-1662 | every proposed candidate equals its reconstruction, so that check never refuses one |
| `Personalization.ApprovalSurvivesAppends` | cbrain/agent/insights.py:1584-1617 | an approval that revalidates still does after any appends |
| `Personalization.RevalidateApproval` | cbrain/agent/insights.py:1584-1617 | accepts exactly if the reviewer verifies and the stored evidence rebuilds what was approved |
| `Personalization.CompileProfile` | cbrain/agent/insights.py:1674-1754 | succeeds exactly if every approval of the agent can be trusted and every active skill is approved; adds exactly the stored rules and active skills of this agent and profile, with the text and metadata made of them |
| `Personalization.Assemble` | cbrain/agent/insights.py:1728-1745 | the sections, their joined text and the metadata |
| `Personalization.ListAndLoad` | cbrain/agent/insights.py:1686-1691 | listing and loading agree, so that check never fails |
| `Personalization.Choose` | cbrain/agent/insights.py:1694-1727 | the rules and active skills of this profile, by candidate digest |
| `Personalization.InstructionsHaveHumanEvidence` | cbrain/agent/insights.py:1674-1754 | every text added to a profile comes from at least two distinct stored human signals of that agent saying the same |
| `RouteInvariance.AssessRouteInvariance` | cbrain/evaluation/company_harness.py:769-817 | the three counters are the tally of the verdicts on the cohorts |
| `RouteInvariance.AssessCounts` | cbrain/evaluation/company_harness.py:769-817 | each counter is the number of cases with that verdict |
| `RouteInvariance.VerdictMeans` | cbrain/evaluation/company_harness.py:784-812 | the verdict found by counts and sets is the one that holds of every pair of runs in the cohort |
| `RouteInvariance.Compare` | cbrain/evaluation/company_harness.py:784-812 | the comparison within one cohort |
| `RouteInvariance.Cohorts` | cbrain/evaluation/company_harness.py:778-780 | the cases in order and their runs |
| `RouteInvariance.AssessmentIgnoresOrder` | cbrain/evaluation/company_harness.py:769-817 | the assessment is invariant under permuting the runs |
| `ReleaseGates.EvaluateReleaseGates` | cbrain/evaluation/company_gates.py:25-143 | passes exactly if no run has a counted fault, usage is measured and every case is settled; the list names every fault |
| `ReleaseGates.CountersAreExact` | cbrain/evaluation/company_gates.py:26-86 | each counter is the number of runs with its fault, or of judged answers |
| `ReleaseGates.CountRuns` | cbrain/evaluation/company_gates.py:42-86 | the counting loop |
| `ReleaseGates.PassMeansInvariance` | cbrain/evaluation/company_gates.py:116-141 | after a pass every case ran on exactly the expected routes, and two runs of a case of which either decided agree on intent and decision |
| `ReleaseGates.GateIgnoresOrder` | cbrain/evaluation/company_gates.py:25-143 | whether the gates pass does not depend on the order of the runs |
| `GateAnswers.ReleasableExactly` | cbrain/evaluation/company_gates.py:25-143 | a suite passes if and only if no run is unauthorized, bypasses an approval, violates safety, dispatches too often, fails to recover or answers wrongly, every model turn has its usage record, and every case is settled on exactly the expected routes |
| `GateAnswers.CountersExactly` | cbrain/evaluation/company_gates.py:26-86 | each counter is the number of runs that commit its fault, each score the number judged and the number without fault |
| `GateAnswers.ReportsEveryFault` | cbrain/evaluation/company_gates.py:42-86 | a fault is listed under a case if and only if a run of that case commits it |
| `GateAnswers.SummaryLinesExactly` | cbrain/evaluation/company_gates.py:88-131 | each summary line stands in the list if and only if its number is not what a release needs |
| `GateAnswers.RoutesExactly` | cbrain/evaluation/company_harness.py:784-788 | the routes of a case are counted over its runs |
| `GateAnswers.SumsExactly` | cbrain/evaluation/company_gates.py:84-86 | turns and usage records are summed over all runs |

## Left out

- Timestamps, metadata, event details and reasons of terminal results: carried along by the source and never read by the logic modelled here.
- JSON text, SHA-256, regular expressions, credential patterns and Unicode: payloads are values and digests are numbers or the values themselves; stripping knows space, tab and line ends.
- The SQL engine, connections and file migration: a table is a map, a transaction is one atomic step, and an error around a commit may hide it. `SQLiteLearningStore` is the same two tables as the in-memory store and would repeat its members.
- Threads inside one process: locks are taken as atomic operations; the interleavings modelled are those of durable workers, review operations and claim coordinators.
- RunDurable: takes a stored record that some execution of the protocol could have written, as every record in a store only this code writes is (`ExecInv`); what a worker does with any other record is in the worker's step functions.
- ExecInv: assumes a request-id factory whose ids are not blank, which the source demands when it builds an action.
- Cancellation, deadlines and knowledge sources in the crash-transparency results: each of them makes a restarted run differ by design (a knowledge message is appended again on resume); the safety results and both loops cover them.
- Decision ids, policy context and the digest function's own errors in the gateways: pass-through values, and one more exception before any tool is entered.
- HTTP transports, the computer-use worker, launchers, command lines, report writers, simulators, fixtures, risk tables, cost and latency arithmetic: plumbing, finite data or short folds with easy facts.
