# Verified model of the software agent team's controller

The controller runs teams of Agents: it pays for model calls, collects write-once
evidence, decides when an iteration is accepted, and commits what it decided. This
project models that controller's stateful core in Dafny and proves what its code,
its validators and its documentation promise about it, for every input and every run.

| file | models |
|---|---|
| `Pricing.dfy`, `Ledger.dfy`, `LedgerRuns.dfy`, `LedgerTheorems.dfy`, `BudgetLedger.dfy` | the budget ledger shared by concurrent callers |
| `Evidence.dfy`, `Assembly.dfy`, `Acceptance.dfy`, `Decision.dfy`, `RevisionLoop.dfy` | the path from command evidence to a completed report |
| `Store.dfy`, `RunEvidence.dfy` | the content-addressed artifact store, and the revision loop against it |
| `TerminalBundle.dfy` | the three-file terminal transaction |
| `ConfigurationCommit.dfy` | the two-authority configuration transaction |
| `Mailbox.dfy` | the hash-chained control mailbox |
| `QualityGate.dfy`, `AttemptLoop.dfy` | the single-flight quality gate and the invocation loop of one Agent |
| `PlanGraph.dfy`, `OwnedProcesses.dfy`, `JsonPointer.dfy` | the dependency search, the owned-process fixpoint and JSON Pointer evaluation |
| `Prelude.dfy`, `Runs.dfy` | shared vocabulary; runs of a state machine |

Code that works in place is a class or a method with loops, proved against a
specification function; the theorems are about that function. Concurrent code is a
state machine whose steps are the critical sections under the lock, and a theorem
about it quantifies over every interleaving. Amounts of money are exact reals. Failures
of file operations are inputs of the operation that may fail, one before and one after
the effect. Digests are an arbitrary function of the content; a lemma that needs them
to differ says so. Texts that code only compares are kept as datatypes of their parts.

## What the proofs found

The code is modelled as it is. Where a promise does not hold of it, the exact condition
under which it does is proved instead.

- `_reserve_call_locked` moves `_calls_started` before it builds the reservation
  (budgets.py, lines 552-566). A request whose run, stage, route or attempt that object
  rejects has been counted by then, every later snapshot raises, and the ledger is
  frozen for good. Conservation holds in a run exactly when every request that passes the
  checks made before the count has well-formed attribution, which a caller can see beforehand
  (`ConservationIff`, `AdmittedIff`, `UnnumberedRequestMalforms`, `MalformedRequestFreezesLedger`).
- A request told to wait is answered when the active paid call settles, but another
  paid request admitted first makes the next one wait again
  (`SettlementEndsWaiting`, `AdmissionOccupiesAuthorization`).
- The configuration rollback infers progress from the paths that exist. With a missing
  staged tree beside a live one, a failure before anything moved moves the live tree away;
  and a symbolic link at the user path is replaced. `AtomicIff` gives the exact check.
- A `link` of the terminal bundle that raises after taking effect is not in `created`, so
  its file stays behind; and an `unlink` that fails in the cleanup ends the cleanup
  (`FailureIsAsBeforeIff`). The cleanup does not look at what it removes: a file that
  another writer has put over a linked one goes with it (`ForeignFilesSurvive`).
- The invocation loop ends within 100 provider calls in every mode, also without a repair
  limit, because outputs of attempt 100 cannot be stored (artifact_store.py, line 241).
- `assemble_test_report` meets its validators exactly when no command ID and no manual
  criterion repeats (`AssembleTestReport`); the record of an iteration is accepted by
  validator and store exactly when the commit changed and no finding ID repeats across
  reviews (`DecisionAgreementIff`).
- The pointer walk cannot name a whole document, and it accepts `~` in places where
  section 3 of RFC 6901 does not (`TokensOfPointer`, `PointerOfTokensIff`).

## Model

| member | source | states |
|---|---|---|
| `Pricing.RequestBoundCoversRequest` | src/software_agent_team/budgets.py:796-816 | The bound computed from a model's token limits covers the cost of every request within them, however its prompt splits into fresh, cache-read and cache-write tokens; that cost is then always known. |
| `LedgerTheorems.ConservationIff` | src/software_agent_team/budgets.py:469-696 | After any interleaving of reservations and settlements all totals equal the sums over the records; the sequences handed out are exactly the active and the recorded ones, and the snapshot passes its validator, iff every request of the run that passed the checks before the count (agent name, calls left, and in a user task attribution, accounted spend and room below the ceiling) had well-formed attribution. |
| `LedgerTheorems.AdmittedIff` | src/software_agent_team/budgets.py:469-567 | A request is admitted iff no call was lost before, it passes those checks and its attribution is well-formed; with malformed attribution it is counted and rejected instead. |
| `LedgerTheorems.WellFormedRequestsConserve` | src/software_agent_team/budgets.py:87-128 | If every request in the run has well-formed attribution, the active and recorded sequences partition 1..calls_started. |
| `LedgerTheorems.UnnumberedRequestMalforms` | src/software_agent_team/budgets.py:542-566 | A concrete failing input: attempt 0, at any coherent point of an evaluation with calls left, is counted and then rejected. |
| `LedgerTheorems.MalformedRequestFreezesLedger` | src/software_agent_team/budgets.py:542-566 | After such a request the ledger never changes again: whatever follows, no request is admitted and no active call can be settled. |
| `LedgerTheorems.SettlesOnce` | src/software_agent_team/budgets.py:594-640 | A settled sequence can never be settled again in the rest of the run, and the rejected attempt changes nothing. |
| `LedgerTheorems.UserTaskRejectsOnce` | src/software_agent_team/budgets.py:641-657 | User task: the number of settlements that raise AgentBudgetExceeded in a run is one if the ledger has crossed its authority and zero otherwise. |
| `LedgerTheorems.EvaluationRejectsAtMostFour` | src/software_agent_team/budgets.py:641-657 | Controlled evaluation: at most four settlements raise, because the reported violation only moves to an earlier entry of the reporting order. |
| `LedgerTheorems.EvaluationRejectsFour` | src/software_agent_team/budgets.py:641-657 | Four is reached: every evaluation that allows four calls has a run in which cost, duration, output tokens and input tokens are crossed one after the other, each with a raising settlement. |
| `LedgerTheorems.NoPaidCallAfterRejection` | src/software_agent_team/budgets.py:500-541 | After a settlement has raised, no paid call is admitted for the rest of the run, and none at all once a cost is unknown. |
| `LedgerTheorems.OverspendIsOneCall` | src/software_agent_team/budgets.py:510-541 | Known spend exceeds the ceiling by less than the cost of one paid call, after which only free calls settled. |
| `LedgerTheorems.PaidCallsAreExclusive` | src/software_agent_team/budgets.py:510-541 | User task: at most one paid call is active; while one is, spend plus reservation equals the ceiling exactly, otherwise nothing is reserved. |
| `LedgerTheorems.BusyIff` | src/software_agent_team/budgets.py:510-525 | A request is told to wait iff the ledger is coherent, the request is a fully attributed paid call and another paid call is active. |
| `LedgerTheorems.SettlementEndsWaiting` | src/software_agent_team/budgets.py:444-467 | When the active paid call settles, every waiting request is admitted or refused at that point. |
| `LedgerTheorems.AdmissionOccupiesAuthorization` | src/software_agent_team/budgets.py:510-566 | An admitted paid request makes the same request behind it wait: a waiter can be overtaken. |
| `LedgerTheorems.TerminalRefusalIsFinal` | src/software_agent_team/budgets.py:439-467 | A request refused with a budget error that is not Busy is never admitted later in the run, so not waiting for it loses nothing. |
| `LedgerTheorems.TerminalRecordIff` | src/software_agent_team/budgets.py:336-399 | The terminal record passes validate_aggregate iff no call is active and no counted call was lost. |
| `LedgerRuns.SnapshotValidity` | src/software_agent_team/budgets.py:176-188 | Within the ledger's accounting invariant a snapshot raises iff a counted call is neither active nor recorded. |
| `BudgetLedger.AgentBudgetLedger.SnapshotLocked` | src/software_agent_team/budgets.py:681-696 | The loop over active calls yields the snapshot the theorems are about. |
| `BudgetLedger.AgentBudgetLedger.ReserveCallLocked` | src/software_agent_team/budgets.py:469-567 | The in-place critical section is the ledger step `Reserve` on all fields. |
| `BudgetLedger.AgentBudgetLedger.CompleteCall` | src/software_agent_team/budgets.py:569-657 | The in-place critical section is the ledger step `Complete` on all fields. |
| `BudgetLedger.AgentBudgetLedger.FreezeTerminalRecord` | src/software_agent_team/budgets.py:671-679 | The frozen record is the one `TerminalRecordIff` judges. |
| `Assembly.AssembleTestReport` | src/software_agent_team/assembly.py:133-235 | A report is returned iff the assignment covers the brief and no command ID or manual criterion repeats; it then covers exactly the brief's criteria, in order, and passes every rule of validate_evidence. |
| `Assembly.AssembledIsValidIff` | src/software_agent_team/artifacts.py:1660-1739 | Producer and validator agree on every brief, command list and manual set that passes the assignment check, up to repeated IDs. |
| `Assembly.OutcomeMeaning` | src/software_agent_team/assembly.py:171-207 | A criterion is blocked iff a covering command timed out, passed iff all covering commands exited 0 and it is not manual, pending iff they did and it is manual. |
| `Acceptance.ResolveReviewScopes` | src/software_agent_team/dynamic_runner.py:389-419 | Scopes are accepted iff a sole reviewer or no manual criterion makes them unnecessary or the supplied ones partition the manual criteria over exactly the approved reviewers; the result is such a partition. |
| `Acceptance.AssembledReviewValidIff` | src/software_agent_team/assembly.py:238-307 | Binding an answer to the controller's scope neither rescues nor spoils it: the report is built and valid iff the answer as written is valid for that scope; its assessments follow the scope's order. |
| `Acceptance.ResolveAcceptanceResults` | src/software_agent_team/artifacts.py:2202-2237 | The loop raises iff reviews do not exactly cover the manual criteria, do not all accept, or a manual criterion is not pending; otherwise exactly the manual criteria become passed. |
| `Acceptance.AcceptedEvidenceBacks` | src/software_agent_team/artifacts.py:2202-2237 | For a passed report and accepting reviewers over a partition, resolution never raises and every criterion of the brief is passed: non-manual ones are covered by a command and all covering commands exited 0, manual ones lie in the scope of exactly one accepting review. |
| `Decision.DecisionAgreementIff` | src/software_agent_team/dynamic_workflow.py:765-823 | The record built from the decision, the repeated-blocker override and the blocking reasons passes validate_decision and every check of the store iff the commit changed and no finding ID repeats across reviews. |
| `Decision.BlockingIffNotAccepted` | src/software_agent_team/artifacts.py:1969-2030 | Valid reviews carry a blocking finding iff one of them does not accept. |
| `Decision.ReasonsEmptyIff` | src/software_agent_team/dynamic_workflow.py:1021-1035 | There are blocking reasons iff some test report did not pass. |
| `Decision.ReasonMeaning` | src/software_agent_team/dynamic_workflow.py:1021-1035 | A reason blocks iff some report that did not pass gives it: as a blocker, as a tester's finding, or as its bare status when it has neither. |
| `Decision.UniqueKeepsOrder` | src/software_agent_team/dynamic_workflow.py:139-140 | Removing repeated reasons keeps first occurrences in place: later reasons never move earlier ones. |
| `RevisionLoop.RunnerEvidenceFits` | src/software_agent_team/dynamic_workflow.py:891-946 | What runner, scheduler and snapshot guarantee about a finished pass is enough for all structural record checks, complete or cut short by a failing test. |
| `RevisionLoop.ExecuteApprovedPlan` | src/software_agent_team/dynamic_workflow.py:420-889 | For every behaviour of the runner: the recorded passes are the runner's, in order, each with its own record; the run ends as the last decision or the next outcome calls for, and evidence stops it only if the pass is unrecordable, for want of a new commit or as an invalid artifact; it completes iff the last record accepts; and every end, also a stop by the user and a refused pass, has the final report of its status, which passes every check on it. |
| `RevisionLoop.CrossSnapshot` | src/software_agent_team/dynamic_workflow.py:926-946 | The snapshot boundary with the loop of `_validate_work_chain`: a pass is refused for no relevant change iff it made no new commit, and as an invalid artifact iff it made one that its works do not chain to. |
| `RevisionLoop.RecordPass` | src/software_agent_team/dynamic_workflow.py:765-827 | A pass is recorded iff its works chain its commits, the commit changed and no finding ID repeats; the recorded history stays sound, and a refusal has the reason of the check that failed first. |
| `RevisionLoop.TakeTurn` | src/software_agent_team/dynamic_workflow.py:643-889 | One turn of the loop: a recordable pass adds exactly its record and ends as decided; any other outcome adds none and ends the run in its own way: cancelled, failed for the refused pass (at its snapshot still with the commit and criteria of the pass before) or failed for its reason, each with a report that stands. |
| `RevisionLoop.PassesWithinLimit` | src/software_agent_team/dynamic_workflow.py:1002-1019 | A run never has more passes than the iteration limit. |
| `RevisionLoop.NeverRevisesSameBlockersTwice` | src/software_agent_team/dynamic_workflow.py:779-800 | Two consecutive revisions never have the same blocker signature. |
| `RevisionLoop.RecordsAreContiguous` | src/software_agent_team/artifact_store.py:728-747 | The records of every run are numbered 1..n and their commits form one chain from the starting commit. |
| `RevisionLoop.ResolvedWasBlocking` | src/software_agent_team/dynamic_workflow.py:801-805 | A finding is recorded as resolved iff it blocked the previous pass and blocks this one no more. |
| `RevisionLoop.EveryRecordAccepted` | src/software_agent_team/artifact_store.py:538-726 | Every record of a run passes its validator and the store's evidence checks. |
| `RevisionLoop.CompletionStands` | src/software_agent_team/dynamic_workflow.py:1083-1108 | Acceptance soundness of a run: after an accepted pass resolution cannot raise, the completed report passes its validator, the context check and the store's check, and each criterion of the brief is passed with its evidence. |
| `RevisionLoop.FailureReportStands` | src/software_agent_team/dynamic_workflow.py:1140-1189 | The report of a failed run passes the same checks, whatever reports were left. |
| `RevisionLoop.CancelledReportStands` | src/software_agent_team/dynamic_workflow.py:1240-1262 | So does the report of a run that the user stopped, after any number of passes. |
| `Store.Load` | src/software_agent_team/artifact_store.py:418-461 | On any directory, for any reference: what loading returns is the content of the file at its canonical path, of the referenced kind and digest, valid and in context. |
| `Store.LoadKept` | src/software_agent_team/artifact_store.py:418-461 | What can be loaded stays loadable with the same result however the directory grows. |
| `Store.StepKeepsLoads` | src/software_agent_team/artifact_store.py:189-278 | Every operation only appends files, and afterwards every artifact on disk loads from its own reference. |
| `Store.RunsOnlyGrow` | src/software_agent_team/artifact_store.py:189-278 | No run of operations removes or replaces a file. |
| `Store.WrittenLoadsForever` | src/software_agent_team/artifact_store.py:189-229 | A reference returned by write loads back to an equal artifact after any later run of operations. |
| `Store.LoadsOnlyTheWritten` | src/software_agent_team/artifact_store.py:418-461 | In every reachable store a reference loads iff it is the one write returned for a file that is there. |
| `Store.EvidenceIsEarlier` | src/software_agent_team/artifact_store.py:418-783 | In a store in creation order, whatever a load looks at, through any chain of references, lies no later than the file it starts from. |
| `Store.LoadTerminates` | src/software_agent_team/artifact_store.py:418-461 | In every reachable store the recursion of load never comes back to a file whose references are being checked, so it ends by itself. |
| `Store.TamperingIsDetectedIff` | src/software_agent_team/artifact_store.py:436-461 | When one file of any directory is replaced by any content of another digest, the artifacts that still load are exactly those whose evidence does not reach that file through any chain of references, and they load unchanged. |
| `Store.ArtifactStore.Write` | src/software_agent_team/artifact_store.py:189-229 | A reference is returned iff context, evidence and a free canonical path allow it; the store then holds one more file, which loads back, and otherwise is unchanged. |
| `Store.ArtifactStore.WriteExecutionOutputs` | src/software_agent_team/artifact_store.py:231-278 | Both outputs are stored with their digests or, where it raises, neither is. |
| `RunEvidence.RecordWritableIff` | src/software_agent_team/artifact_store.py:538-726 | Once a pass's reports are stored, its record can be written iff the pass is recordable: loop and store refuse the same passes. |
| `RunEvidence.StandingReportAccepted` | src/software_agent_team/artifact_store.py:728-783 | Once a run's evidence is stored, the store accepts every final report the loop can end with: completed, failed or cancelled. |
| `RunEvidence.RunIsStored` | src/software_agent_team/dynamic_workflow.py:807-827 | Starting from an empty store, with any operations of the Agents between them, the record of every pass can be written in its turn, and after each all records and the last reports load. |
| `RunEvidence.WholeRunPersists` | src/software_agent_team/artifact_store.py:189-229 | After any run of the loop, ended in any way, its store, empty at the start and written by Agents and controller in any interleaving, holds every record, the last pass's reports and the final report, each loading back equal. |
| `RunEvidence.LoadedRecordIsBacked` | src/software_agent_team/artifact_store.py:538-726 | A record that loads, from any directory, has its reports there, and they meet every check on its decision. |
| `RunEvidence.LoadedCompletionIsBacked` | src/software_agent_team/artifact_store.py:728-783 | Acceptance soundness of the store alone, whoever wrote the directory: a completed final report that loads covers the brief with passed criteria, backed by a loaded test report whose commands all exited 0 and by loaded accepting reviews of exactly its manual criteria. |
| `TerminalBundle.SuccessIsAllThree` | src/software_agent_team/artifact_store.py:299-373 | A returned bundle means none of the three files existed before, all are present now and nothing else changed; each holds the prepared content unless another writer has replaced it, and if none has, all carry the returned digests. |
| `TerminalBundle.FailureIsAsBeforeIff` | src/software_agent_team/artifact_store.py:325-373 | A failed write that nobody disturbs leaves all paths as before iff it failed before linking, or no link raised after taking effect and the cleanup reached every linked file. |
| `TerminalBundle.ForeignFilesSurvive` | src/software_agent_team/artifact_store.py:325-373 | A failed write keeps every file that was there and one that takes a path between check and link; a file that another writer puts over a linked one is lost iff the cleanup reaches its path. |
| `TerminalBundle.FailureShape` | src/software_agent_team/artifact_store.py:325-373 | What every path holds after a failed write, for all faults of links, sync and cleanup and all interference of other writers. |
| `TerminalBundle.FailedTransition` | src/software_agent_team/artifact_store.py:375-416 | A failed transition removes exactly the bundle if all three digests still match, and nothing otherwise. |
| `TerminalBundle.OnlyPreparedContentGoes` | src/software_agent_team/artifact_store.py:375-416 | Even when an unlink fails, only canonical files that still hold the prepared content are removed. |
| `TerminalBundle.WriteThenFailedBind` | src/software_agent_team/artifact_store.py:299-416 | Writing a bundle and failing to bind it restores the directory exactly iff every file that replaced a linked one has its digest; otherwise nothing is removed. |
| `TerminalBundle.RunDirectory.CommitBundle` | src/software_agent_team/artifact_store.py:299-373 | The link loop with its list of created files is the transaction the theorems judge. |
| `TerminalBundle.RunDirectory.TakeBack` | src/software_agent_team/artifact_store.py:375-398 | The two loops of the rollback are the specification `Rollback`. |
| `ConfigurationCommit.AtomicIff` | src/software_agent_team/cli.py:2688-2771 | Every failure before or after any step is undone exactly, provided rollback steps work, iff the user path is no symbolic link and the staged tree exists or no live one does. |
| `ConfigurationCommit.Paths.CommitTransaction` | src/software_agent_team/cli.py:2688-2788 | The step-by-step transaction with its progress flags is the specification `Commit`. |
| `Mailbox.LoadHistory` | src/software_agent_team/controls.py:486-546 | The loader's loop accepts a listing iff every file meets its checks, and returns the revisions in order. |
| `Mailbox.AcceptedIffWritten` | src/software_agent_team/controls.py:350-442 | The loader accepts exactly the histories that request and resolve can build. |
| `Mailbox.AcceptedLength` | src/software_agent_team/controls.py:502-546 | An accepted history has one or two revisions: queued, and then not queued. |
| `Mailbox.LastRevisionPinsHistory` | src/software_agent_team/controls.py:520-535 | With a collision-free digest the last revision determines the whole history. |
| `Mailbox.MailboxAlwaysLoads` | src/software_agent_team/controls.py:339-467 | After any sequence of operations, with writes failing before or after their rename, every history loads and request sequences are exactly 1..n. |
| `Mailbox.HistoriesOnlyGrow` | src/software_agent_team/controls.py:392-442 | No recorded revision, and so no request metadata, ever changes; a resolved command keeps exactly its two revisions. |
| `Mailbox.ResolvedOnce` | src/software_agent_team/controls.py:408-442 | Once a resolution is on file every further one is refused, even if its caller was told that it failed. |
| `Mailbox.ControlCommandStore.SubmitRequest` | src/software_agent_team/controls.py:339-390 | The locked section is the specification step `RequestStep`. |
| `Mailbox.ControlCommandStore.ResolveCommand` | src/software_agent_team/controls.py:392-442 | The locked section is the specification step `ResolveStep`. |
| `Mailbox.ControlCommandStore.ListLatest` | src/software_agent_team/controls.py:451-484 | The listing succeeds iff the mailbox loads, and gives the latest revision of every command in request order. |
| `QualityGate.GateRunsAtMostOnce` | src/software_agent_team/dynamic_runner.py:2213-2281 | In every interleaving the gate runs at most once, nobody has returned while it runs, and nobody sleeps once its outcome is stored. |
| `QualityGate.CallersAgree` | src/software_agent_team/dynamic_runner.py:2213-2281 | Any two callers, at whatever times they return, get the same commands on the same commit or the same error. |
| `QualityGate.StepsAreBounded` | src/software_agent_team/dynamic_runner.py:2214-2216 | A run of any length has at most two effective steps per caller: wake-ups cannot go on forever. |
| `QualityGate.SomeThreadCanStep` | src/software_agent_team/dynamic_runner.py:2214-2281 | While a caller has not returned, some thread can step, whatever the gate would answer: there is no deadlock. |
| `QualityGate.Monitor.Enter` | src/software_agent_team/dynamic_runner.py:2213-2225 | The opening critical section on the runner's fields is the step `Admit`. |
| `QualityGate.Monitor.Leave` | src/software_agent_team/dynamic_runner.py:2262-2281 | Both closing critical sections are the step `Publish`, and give the same answer as every other caller gets. |
| `AttemptLoop.InvokeAgent` | src/software_agent_team/dynamic_runner.py:881-1447 | The loop returns the outcome of the first turn that does not repeat, and the number of provider calls made; that is at most 100 in every mode, and with a repair limit at most one attempt plus the allowances; a continuation never overlaps a correction, and only an accepted response of a completed execution is returned. |
| `AttemptLoop.RepetitionSpendsAllowance` | src/software_agent_team/dynamic_runner.py:1333-1437 | Every repetition uses up the stream retry, a remaining route, an allowed correction or a workspace or tool state not seen before. |
| `AttemptLoop.EndingsAreBounded` | src/software_agent_team/dynamic_runner.py:904-922 | The bounds hold for every way the loop can end, by a measure over whole runs of attempts. |
| `PlanGraph.ValidateTasks` | src/software_agent_team/artifacts.py:1471-1507 | A plan is accepted iff its task IDs are unique, its dependencies known and the graph acyclic; acceptance comes with a topological order of all tasks. |
| `PlanGraph.Search.Visit` | src/software_agent_team/artifacts.py:1491-1504 | The recursive search terminates; it raises only if there is a cycle, and otherwise finishes the task with the two sets consistent. |
| `PlanGraph.TopologicalIsAcyclic` | src/software_agent_team/artifacts.py:1471-1507 | A task list with a topological order has no cycle. |
| `OwnedProcesses.SelectDescendants` | src/software_agent_team/full_gate.py:402-413 | The fixpoint loop terminates with exactly the processes reachable from the seeds by parent-to-child links. |
| `OwnedProcesses.Tracker.ObserveOwned` | src/software_agent_team/full_gate.py:383-422 | It returns, in process-ID order, exactly the observed descendants of the seeds and still-live tracked identities, remembers each of them and forgets none. |
| `JsonPointer.UnescapeEscape` | src/software_agent_team/decision_limits.py:606-608 | The two ordered replacements of section 4 of RFC 6901 undo the escaping of section 3 for every key. |
| `JsonPointer.EscapeUnescapeIff` | src/software_agent_team/decision_limits.py:606-608 | The tokens decoded without loss are exactly the ones section 3 allows. |
| `JsonPointer.TokensOfPointer` | src/software_agent_team/decision_limits.py:595-616 | A pointer built from keys is walked by those keys, for every key list but the empty one. |
| `JsonPointer.PointerOfTokensIff` | src/software_agent_team/decision_limits.py:595-616 | An accepted pointer is the one RFC 6901 writes for its keys iff all its tokens are well escaped. |
| `JsonPointer.ResolveReference` | src/software_agent_team/decision_limits.py:595-616 | The walking loop equals stepwise lookup in the named document, and fails where the source raises. |
| `JsonPointer.ResolveWritten` | src/software_agent_team/decision_limits.py:595-616 | For any keys, resolving the written reference is stepwise lookup of those keys, except that the whole document cannot be named. |

Beside these rows stand short lemmas that spell out one step of a modelled operation,
as notes for a reader: `Decision.DecisionIff` and `RevisionLoop.FailureHasItsReason` (what
each decision and reason of `ExecuteApprovedPlan` means), `Decision.DecisionIsBacked` (the store's
check on a decision alone, a part of `DecisionAgreementIff`), `AttemptLoop.RepetitionHasOneCause`
(the guards that the bounds of `EndingsAreBounded` count), and
`ConfigurationCommit.SuccessIsBothNew` and `ConfigurationCommit.TreesAreKept` (what
success, and a rollback that fails as well, leave where `AtomicIff` speaks of failures
that are undone).

## Left out

- The wait loop of `reserve_call`: a retry after a wake-up is one more reservation event of the run; time and the caller's `wait_check` are not modelled.
- `Decimal` context rounding: amounts are exact.
- Schema-version compatibility branches, provider-reported costs and serialization of ledgers; persisting the ledger is part of the terminal bundle only.
- What the scheduler, the Agents, Git and the quality commands do within one pass: `RevisionLoop.FromRunner` states what the runner guarantees about the results of a pass that got past its snapshot, further Git checks on a snapshot (a clean tree, descent, changed files) end a pass as any other error does, and the loop holds for every runner within it. The parts of it that the modelled code establishes are proved in `Assembly.dfy`, `Acceptance.dfy` and `QualityGate.dfy`.
- Specialized security and experience review bodies, and text fields of reports (summaries, recommendations, categories, limitations); a finding keeps its ID, severity, description and criteria.
- Blank and whitespace cleaning of texts, and coincidences between differently built texts: two blocking reasons are equal when their parts are.
- Run and team identity, timestamps, specialization and input-commit pattern checks of `validate_artifact_context`.
- I/O errors inside `ArtifactStore.write` and `write_execution_outputs`, symbolic links in the run directory, temporary files and directory syncs; a file linked before a failing sync stays and counts as written.
- Store.Load: on a directory altered from outside into a reference cycle the source recurses until Python stops it with an error; the model's load returns nothing there.
- Removal of a final report by the bundle rollback is modelled in `TerminalBundle.dfy`, not in `Store.dfy`.
- `BaseException` in the quality gate, which would leave its state running.
- Python's recursion limit in the plan's depth-first search.
- How the process table is read and how processes are stopped; the environment probe is a parameter.
- The path-escape check on the file part of a JSON reference, and the module and constant kinds of references.
- Lock files, directory creation and the `requester` and schema fields of the mailbox.
- Token, tool and submission details of an execution that the invocation loop does not branch on; whether a correction plan can be built is an input.
- Prompts, argument parsing, rendering, progress events, Docker and kernel work, Git and planning internals.
