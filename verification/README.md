# NeuroForge pipeline: a verified model

NeuroForge drives a coding task through compile, plan, ready, execute, verify, review and finalize, with a bounded
repair loop, and it promises to survive crashes, cancels and an emergency stop. This project models that pipeline and
the deterministic cores around it in Dafny, and proves what they promise over every input and every history.

## How it is organised

The durable pipeline. `Stages` holds the stage table and the run states. `Ledgers` gives each store transaction as a
function on one task's row and history; `RunStore` is the store that performs them in place. `PipelineDriver` is the
driver between two transactions, as a program counter and a ledger, and `DriverLoop` is the imperative loop, proved to
compute the same. `Recovery` does likewise for the startup reconciler and the resume pass. `PipelineMachine` puts one
task's run under everything that can happen to it - worker steps answered by arbitrary handlers, interrupted handlers,
crashes between any two transactions, restarts, cancels, stop changes - with one inductive invariant;
`PipelineReplies` says what one iteration does with every reply a handler may give, and `Transactions` what each store
transaction does. `PipelineInvariant` proves every action keeps the invariant and `PipelineTheorems` draws the
conclusions; `PipelineDrives` ties the drive loop to the machine and says how a drive ends that a cancel lands under.
`RepairRace` is a finer model of the repair counter alone, with the read and the guarded update as two steps.

Delivery. `Policy` and `PolicyResolution` resolve a project and a task override, `Governor` decides over the gates
(`Testing` has the test summaries and evidence they read), `Authority` re-checks and calls the provider, `MergeQueue`
processes merges first in first out, and `DeliveryHistories` reasons about whole histories of queue and authority.

Smaller cores. `VerifyCascade` is the verification cascade with its single flake retry, `Budget` the spending windows
and admission (`SharedBudgets` takes all provider types together), `JsonScanner` the search for the last array in a review agent's output, `Catalogs` and `Router` route
selection, with `Sorting` beneath them.

Operations that change state are methods of classes; each is proved against a function of the old state, and the
theorems are about those functions. Handlers, providers, runners, the quota manager and the clock are parameters that
may answer anything.

## Where the code and its documentation part

- The last failure is said to win on the run row (`internal/pipeline/store.go:330-335`). A run resumed out of a wait
  keeps its attempt, and a second failure there is absorbed by the first: `Ledgers.LastFailureWins` has the exact
  condition and `PipelineDrives.LastFailureCanLose` a history that misses it.
- A cancel between recovery's attempt bump and its re-entry leaves an open entry on a cancelled run. The daemon serves
  requests only after issuing the startup passes (`internal/daemon/daemon.go:311-318`), which keeps this out of its
  histories; the store and the pass alone do not.
- The comment on merging review switches (`internal/policy/policy.go:255-257`) and the code of `moreRestrictive`
  (`internal/policy/policy.go:275-287`) order the switches differently; the model follows the code, and
  `Policy.DocumentedOrderHoldsExactly` says where the two agree.
- A blocking violation is said to keep the safer value (`internal/policy/policy.go:105-106`), but the
  visual-verification violation leaves merge on: where a block is reported, merge is off exactly under a lock
  (`PolicyResolution.BlockingLeavesMergeOn`).
- The Governor's comment says a task override cannot drop the tests-for-merge rule
  (`internal/merge/governor.go:206-210`). Resolution takes the conjunction of that toggle too, so it can:
  `PolicyResolution.TestsForMergeSurvivesExactly`. The gate is stated on the resolved toggle.
- The reason "tests were disabled" of `internal/merge/governor.go:139-142` is never given.
- Updating a change request needs a verdict at the change-request level, which a policy that only updates never
  reaches: `Authority.UpdatesCanBeOutOfReach`.
- The global daily and monthly limits are documented as bounds on new paid runs
  (`internal/budget/controller.go:17-19`), but the check counts each provider type for
  itself: they bind all spend together exactly when at most one type is paid for
  (`SharedBudgets.DailyLimitBindsOneType`, `SharedBudgets.MonthlyLimitBindsOneType`), and under given limits exactly
  when the types' daily caps add up to no more (`SharedBudgets.DailyLimitHoldsExactly`).
- A budget decision says that included usage is permitted, except where it allows a spend that no global, project or
  task limit applies to. An image run that its own daily limit alone admits gets such a decision, with limit zero
  (`Budget.Controller.CanAfford`).
- The drive loop means to settle a concurrent cancel as success (`internal/pipeline/driver.go:208-217`). A drive whose next durable
  change is to move the run is refused that move and returns the refusal: `PipelineDrives.CancelledDriveEnds`.

## Model

| member | source | states |
|---|---|---|
| Stages.StageTableIsThePath | internal/pipeline/stage.go:98-107 | The table is the path from compile to finalize, the detours of execute, verify and review into repair, and repair's ways back to verify and execute |
| Stages.CursorRules | internal/pipeline/stage.go:169-182 | A terminal run's cursor stays, a waiting one's goes to ready only, an active one's along the table |
| Stages.StateRules | internal/pipeline/stage.go:190-205 | An ended run keeps its state, a waiting one only becomes active, failed or cancelled, an active one anything else |
| Transactions.Creation | internal/pipeline/store.go:135-168 | A new run starts active at compile, attempt 1, no repair taken, budget 3 where none is given, with its entry on record; an existing one keeps its row |
| Transactions.Moving | internal/pipeline/store.go:230-292 | A move to the cursor or along the rules sets the stage, wakes a waiting run and enters the stage; any other is refused and changes nothing |
| Transactions.Finishing | internal/pipeline/store.go:343-413 | When an outcome is accepted, absorbed or refused and with which error; a new one closes the entry, stands with its category, reason and evidence, and a failure shows on the row; nothing else changes |
| Transactions.UnknownCategoriesAreRefused | internal/pipeline/store.go:336-341 | A failure of unknown category is refused and changes nothing |
| Transactions.Counting | internal/pipeline/store.go:419-485 | Both counters grow by one on a live run only, the repair counter never past the budget, with the answer that fits |
| Transactions.Interrupting | internal/pipeline/store.go:496-667 | An interruption and a cancel close a live run's entry and stand as failed records with their category and reason unless one failed before; a cancel also ends the run; a terminal run stays |
| Transactions.ChangingState | internal/pipeline/store.go:540-612 | When a state change is accepted, the error when not, and what it does to state, result, reason and failure; the history stays |
| Ledgers.TerminalRunsAreAbsorbing | internal/pipeline/store.go:618-667 | No sequence of store transactions changes the row of a terminal run: stage, state, counters, failure and result all stay |
| Ledgers.TransactionsOnlyClose | internal/pipeline/store.go:343-413 | One transaction removes no history key and changes no outcome; the only change to an existing record is closing an open entry |
| Ledgers.HistoryIsAppendOnly | internal/pipeline/store.go:805-814 | The same over every sequence of transactions: the history only grows |
| Ledgers.TransactionsAreIdempotent | internal/pipeline/store.go:496-530 | Every transaction but the two increments, repeated any number of times, leaves exactly what it left the first time |
| Ledgers.CreateRunKeepsAnExistingRun | internal/pipeline/store.go:135-168 | Creating a run that exists changes nothing if and only if its first compile entry is on record |
| Ledgers.LastFailureWins | internal/pipeline/store.go:373-411 | On a live run a failure that the row does not show yet is shown after FailStage if and only if this attempt of the stage has no failed record yet |
| RunStore.Store.CreateRun | internal/pipeline/store.go:135-168 | Refuses empty ids; otherwise creates the row once, with the default budget where none is given, ensures the first entry, and touches no other task |
| RunStore.Store.ListActiveRuns | internal/pipeline/store.go:188-212 | Exactly the tasks whose run is not terminal |
| RunStore.Store.Transition | internal/pipeline/store.go:230-292 | One atomic cursor move: same stage ensures the entry, an illegal edge is refused with nothing changed, a wait state becomes active; no other task changes |
| RunStore.Store.FinishStage | internal/pipeline/store.go:343-413 | One atomic outcome: an existing record absorbs it, a foreign stage or a terminal run refuses it, otherwise the entry closes and the record appears |
| RunStore.Store.CompleteStage | internal/pipeline/store.go:326-328 | A completed outcome in the same way |
| RunStore.Store.FailStage | internal/pipeline/store.go:336-341 | A failed outcome in the same way; an unknown category is refused before the run is looked up |
| RunStore.Store.IncrementStageAttempt | internal/pipeline/store.go:419-442 | Adds exactly one to the attempt of a live run and refuses a terminal one |
| RunStore.Store.IncrementRepairAttempt | internal/pipeline/store.go:450-485 | Grants one more repair below the budget, answers spent at it, refuses a terminal run |
| RunStore.Store.MarkInterrupted | internal/pipeline/store.go:496-530 | Closes the entry under the cursor and records an interruption there unless one failure is already recorded; a terminal run is left alone |
| RunStore.Store.SetRunState | internal/pipeline/store.go:540-612 | Moves the run state along the state table, with waiting_quota and completed restricted by stage, and details the failure or result |
| RunStore.Store.Cancel | internal/pipeline/store.go:618-667 | Cancels a live run with its category and reason and a failed record at the cursor; a terminal run is left alone |
| PipelineDriver.JudgementIsJust | internal/pipeline/driver.go:331-395 | A reply is accepted exactly when the handler succeeded - changes made, verdict true - and repaired exactly when it declined |
| PipelineReplies.SuccessMovesOn | internal/pipeline/driver.go:308-413 | A success is on record as completed with the handler's evidence; finalize completes the run with it as result, repair leads to verify at a new attempt, any other stage to the next of the path, entered on record |
| PipelineReplies.DeclineLeadsToRepair | internal/pipeline/driver.go:331-395 | No changes, a failed verdict at verify or review: a failed record of the reply's category, then repair with one attempt taken, or repair_exhausted when none is left |
| PipelineReplies.BreakRoutesTheRun | internal/pipeline/driver.go:420-493 | An error: a failed record of its category, or invariant_violation for none or an unknown one; then parked if interrupted, waiting_quota for quota and rate limits at execute and verify, blocked for a lost lease at ready, failed otherwise |
| PipelineReplies.EveryReplyIsTold | internal/pipeline/driver.go:308-413 | Every reply is exactly one of these three |
| PipelineReplies.SuccessCompletesTheRun | internal/pipeline/driver.go:191-226 | A drive whose handlers all succeed completes the run after one call a stage, with the evidence of finalize as its result |
| PipelineDriver.StepsSpendBudget | internal/pipeline/driver.go:241-304 | Every single driver step keeps the lexicographic call budget (repairs left, stage rank) from growing, and a handler start uses one call of it |
| PipelineDriver.StepsMakeProgress | internal/pipeline/driver.go:241-304 | An iteration makes progress at every step, so it ends |
| PipelineDriver.SettlingSpendsBudget | internal/pipeline/driver.go:308-475 | From a handler's start to the end of the iteration the calls still possible never grow |
| PipelineDriver.IterationsSpendBudget | internal/pipeline/driver.go:191-226 | An iteration that loops again has strictly less of the budget left |
| PipelineDriver.DriveCallBound | internal/pipeline/driver.go:191-226 | An uninterrupted drive makes at most the run's remaining budget of handler calls, whatever the handlers return |
| PipelineDriver.NewRunCallBound | internal/pipeline/driver.go:191-226 | From a new run that is at most 7 + 3 x budget handler calls |
| DriverLoop.Driver.FailStage | internal/pipeline/driver.go:420-457 | A handler error: records the failure, confirms a terminal run, parks on an emergency stop, and otherwise routes to waiting_quota, blocked or failed |
| DriverLoop.Driver.RouteFault | internal/pipeline/driver.go:432-457 | Re-reads the run after the failed record; a terminal run ends the drive, an interruption parks it, the rest changes the run state |
| DriverLoop.Driver.EnterRepair | internal/pipeline/driver.go:461-475 | Asks the repair budget and moves to repair, or ends repair_exhausted |
| DriverLoop.Driver.Reject | internal/pipeline/driver.go:331-395 | A rejected execute, verify or review: failed record, then repair |
| DriverLoop.Driver.MoveOn | internal/pipeline/driver.go:308-329 | After a completed record: the next stage, verify at a new attempt after repair, or the completed state after finalize |
| DriverLoop.Driver.CompleteStage | internal/pipeline/driver.go:308-329 | A completed record, then moving on |
| DriverLoop.Driver.RunStage | internal/pipeline/driver.go:308-413 | Each stage's treatment of its handler's reply is the step machine's: the same ledger, the same next position or error |
| DriverLoop.Driver.Iterate | internal/pipeline/driver.go:241-304 | One iteration of the imperative loop equals the specification's, and calls the handler exactly if the run exists and is active and the stop is off |
| DriverLoop.Driver.Drive | internal/pipeline/driver.go:191-226 | The imperative loop computes the drive specification, terminates, and makes at most the call budget of handler calls; an empty task or a missing run is an error that changes nothing |
| DriverLoop.HandlerReturns | internal/pipeline/driver.go:285-303 | Settling from a running handler is settling from its reply |
| Recovery.ReconcileThenResume | internal/daemon/pipeline_reconcile.go:55-73 | The interruption pass followed by the resume pass leaves what the resume pass alone leaves |
| Recovery.RecoveryIsTotal | internal/daemon/pipeline_service.go:468-502 | A resume pass leaves a terminal run alone and makes any other active with an entry under its cursor, at ready out of a wait; only a re-driven active run gets a new attempt, its old one closed and on record as interrupted; the rest of the row stays |
| Recovery.ReconcilingInterrupts | internal/daemon/pipeline_reconcile.go:55-73 | The interruption pass closes what an active run was at and records it as interrupted unless it had failed, and changes nothing else |
| Recovery.RecoveryService.Reconcile | internal/daemon/pipeline_reconcile.go:23-75 | Applies the interruption pass to every active run and to no other, unless the stop parks it, which it reports exactly when a live run exists |
| Recovery.RecoveryService.ResumeActiveRuns | internal/daemon/pipeline_service.go:453-506 | Does nothing with the stop on; otherwise resumes every live run and hands exactly those to the driver |
| Recovery.RecoveryService.ResumeRun | internal/daemon/pipeline_service.go:468-502 | One run's resume, which always succeeds on a live run |
| PipelineMachine.DriverKeepsState | internal/pipeline/driver.go:241-475 | Every driver step, from every program point, keeps the history, row and program-point invariants, on live and cancelled runs alike |
| PipelineMachine.RecoveryKeepsState | internal/daemon/pipeline_service.go:453-506 | Every recovery step keeps them too |
| PipelineMachine.CancelKeepsState | internal/pipeline/store.go:618-667 | So does a cancel landing at any program point |
| PipelineMachine.DriverMoves | internal/pipeline/stage.go:98-107 | A driver step changes the stage only along the stage table, and only on an active run |
| PipelineInvariant.DriverKeepsGate | internal/pipeline/driver.go:331-413 | No driver step loses track of whether verification passed and review approved since the last restart of verification |
| PipelineInvariant.DriverKeepsCounts | internal/pipeline/driver.go:397-475 | Each step keeps calls made plus calls left within 7 + 3 x budget + 3 x re-drives, and repair entries within the repair count |
| PipelineInvariant.WorkerKeepsLog | internal/pipeline/driver.go:255-303 | Each handler start finds its entry on record, and a finalize start both gates |
| PipelineInvariant.StepKeepsInv | internal/daemon/pipeline_service.go:403-506 | Every action - step, interruption, crash, restart, cancel, stop - keeps the whole invariant |
| PipelineInvariant.PerformKeepsInv | internal/daemon/pipeline_service.go:403-506 | So does every sequence of actions |
| PipelineInvariant.BeginInv | internal/pipeline/store.go:135-168 | A freshly created run satisfies it |
| PipelineTheorems.FinalizeIsGated | internal/pipeline/driver.go:331-413 | In every history the finalize handler starts only after a verify handler returned the verdict true and then a review handler did, with no execute, repair or verify start since the first |
| PipelineTheorems.GateMeaning | internal/pipeline/driver.go:356-395 | What the two gate levels mean: positions in the log of that verification and that approval |
| PipelineTheorems.StartsAreOnRecord | internal/pipeline/store.go:230-292 | In every history every handler start has its durable entry record |
| PipelineTheorems.RecordsAreConsistent | internal/pipeline/store.go:343-413 | In every history attempts stay within the counter, only the cursor's entry can be open, and open entries exclude outcomes and terminal runs exactly unless recovery re-entered a run that had become terminal under it |
| PipelineTheorems.CancelsOutsideRecoveryLeaveNothingTorn | internal/daemon/daemon.go:311-318 | While cancels stay out of the startup passes that never happens |
| PipelineTheorems.DaemonHistoriesAreTidy | internal/daemon/daemon.go:311-318 | So under the daemon's own order the records are consistent after every history |
| PipelineTheorems.CancelDuringReentryTearsTheRecords | internal/daemon/pipeline_service.go:486-502 | A cancel between recovery's attempt bump and its re-entry always leaves an open entry on a cancelled run |
| PipelineTheorems.EveryActiveRunCanBeTorn | internal/daemon/pipeline_service.go:486-502 | That window exists after every history ending in an active run without a worker |
| PipelineTheorems.BudgetIsConstant | internal/pipeline/store.go:450-485 | No action changes the repair budget |
| PipelineTheorems.HandlerCallsAreBounded | internal/pipeline/driver.go:397-475 | With R re-drives a history holds at most 7 + 3 x budget + 3 x R handler calls; entries into repair <= repair count <= budget; repair_exhausted means the budget is spent |
| PipelineTheorems.RestartRecoversTheRun | internal/daemon/pipeline_service.go:453-506 | After any history, a restart with the stop off and no further crash leaves a terminal run alone and brings any other to the driver, active, with a durable entry under its cursor |
| PipelineTheorems.StoppedRestartsChangeNothing | internal/daemon/pipeline_service.go:453-467 | With the stop on, restarts change nothing of an undriven run and do not drive it, however often the process dies |
| PipelineTheorems.RecoveryAdvances | internal/daemon/pipeline_service.go:453-506 | Each recovery step brings the startup passes one step nearer the same result |
| PipelineTheorems.TerminalRunsStayPut | internal/pipeline/driver.go:208-217 | Once a run is terminal its row never changes, and at most one more handler starts, only where the loop had already read it as active |
| PipelineTheorems.CancelIsFinal | internal/pipeline/store.go:618-667 | A cancel on a live run, wherever it lands, ends it as cancelled with that category, whatever follows, with at most one handler start after it |
| PipelineTheorems.StopHoldsHandlers | internal/pipeline/driver.go:255-266 | While the emergency stop is on no further handler starts, whatever else happens |
| PipelineTheorems.CursorFollowsTheTable | internal/pipeline/stage.go:98-107 | Every change of stage is an edge of the stage table on an active run, or a wait re-activated at ready |
| PipelineTheorems.StateFitsTheCursor | internal/pipeline/stage.go:169-205 | In every history completed implies finalize, waiting_quota implies execute or verify, blocked implies ready |
| PipelineTheorems.InterruptedHandlerCancels | internal/daemon/pipeline_handlers.go:832-843 | An interrupted handler with the stop off ends in a cancelled run whose failure nothing overwrites, and in a drive returning nil |
| PipelineTheorems.InterruptedHandlerParks | internal/daemon/pipeline_handlers.go:832-843 | With the stop on it ends in a run active at the same stage, attempt and repair count, and in a drive returning the emergency-stop error |
| PipelineDrives.SettleIsStepping | internal/pipeline/driver.go:308-475 | What the drive specification does between two reads of the run, the step machine reaches by stepping the worker alone |
| PipelineDrives.DriveIsStepping | internal/pipeline/driver.go:191-226 | The whole drive, its ledger and its result, is reached from the top of the loop by worker steps alone |
| PipelineDrives.CancelledDriveEnds | internal/pipeline/driver.go:208-217 | Wherever in the drive loop a cancel lands - a running handler included - the drive ends and the run stays cancelled; it ends in the refusal of a move if and only if its next durable change is to move the run (a handler accepted at an attempt completed before included), in the emergency-stop error if and only if the loop had read the run but not yet the stop, which is on, and in nil otherwise |
| PipelineDrives.LastFailureCanLose | internal/pipeline/store.go:330-341 | A reachable history where the last failure does not win: blocked at ready, resumed at the same attempt and failing again, the row goes on showing the first failure |
| RepairRace.CounterStaysWithinBudget | internal/pipeline/store.go:450-485 | With any number of loops interleaved between the read and the guarded update: the counter stays within the budget and grows by one for each grant and by nothing else |
| RepairRace.LoneLoopIsGranted | internal/pipeline/store.go:450-485 | A loop that no other disturbs is granted one attempt after another until the budget is spent, and is then told so |
| RepairRace.RaceOutcome | internal/pipeline/store.go:450-485 | From any start: growth equals the number of grants, granted counts strictly increase, and spent is answered only at the budget |
| Policy.SetThenGet | internal/policy/policy.go:184-233 | Setting a toggle changes that toggle and nothing else |
| Policy.EveryToggleIsListed | internal/policy/policy.go:159-182 | The name list of the merge covers every toggle |
| Policy.ToggleListHasNoRepeats | internal/policy/policy.go:159-182 | and names none twice |
| Policy.SamePipeline | internal/policy/toggles.go:25-91 | The toggles and the two review switches determine a pipeline |
| Policy.MeetIsPointwise | internal/policy/policy.go:234-246 | A merged toggle is on exactly when project and override both have it on |
| Policy.ClampsAreExact | internal/policy/policy.go:234-246 | An override clamp is reported for exactly the toggles the override tried to enable against the project |
| Policy.MergedTriRestricts | internal/policy/policy.go:258-287 | A merged review switch gates as the conjunction of both sides and is never anything but one of them |
| Policy.DocumentedOrderHoldsExactly | internal/policy/policy.go:255-287 | The merged switch is the more restrictive one in the order the comment gives if and only if both sides are equal, or the override is auto over on |
| Policy.MergeTri | internal/policy/policy.go:258-272 | Returns the merged switch and reports a clamp exactly when the override asked for less restriction |
| Policy.MergeRestrict | internal/policy/policy.go:154-253 | The loop over the named toggles computes the pointwise conjunction of all 22, merges the switches, and reports the clamps in list order |
| PolicyResolution.MergeNotesAreExact | internal/policy/policy.go:154-272 | Merging reports exactly the toggles an override tried to enable, and the switches it tried to turn on, against the project |
| PolicyResolution.MandatoryNotesAreExact | internal/policy/policy.go:290-317 | A restored check is reported exactly when it is mandatory and was off |
| PolicyResolution.LockNotesAreExact | internal/policy/policy.go:320-350 | The lock reports exactly push, change requests and merge, where they were on |
| PolicyResolution.ViolationsAreExact | internal/policy/policy.go:107-148 | Resolution reports exactly these, the adjustments, and the missing visual verification of a merging UI task |
| PolicyResolution.TogglesResolveExactly | internal/policy/policy.go:107-148 | A toggle is on after resolution exactly when project and override have it and everything it depends on, a mandatory AI review counting as wanted, and no network lock takes it |
| PolicyResolution.SwitchesResolveExactly | internal/policy/policy.go:258-317 | A review switch keeps the project's value unless project or override has it off; then it is on exactly if mandatory |
| PolicyResolution.AdjustmentsAreExact | internal/policy/rules.go:31-100 | A toggle is reported as forced off, with its cause, exactly when it was; local-merge mode exactly when the result merges without change requests |
| PolicyResolution.ForcedOffIsWhatChanged | internal/policy/rules.go:31-100 | Normalisation changes exactly the toggles it forces off, and enables none |
| PolicyResolution.Normalize | internal/policy/rules.go:31-100 | The step-by-step rules compute the normal form and the adjustments in order |
| PolicyResolution.NormalFormIsGreatest | internal/policy/rules.go:31-100 | The normal form obeys R1-R4, R6 and R7, lies below its input, and is the greatest such pipeline |
| PolicyResolution.NormalizationIsAClosure | internal/policy/rules.go:31-100 | Normalisation is monotone and idempotent, and its fixed points are exactly the pipelines that obey the rules |
| PolicyResolution.EnforceMandatory | internal/policy/policy.go:290-317 | Turns each mandatory review back on and reports exactly those that were off |
| PolicyResolution.ApplyNetworkLock | internal/policy/policy.go:320-350 | Turns off every delivery toggle and reports push, change requests and merge where they were on |
| PolicyResolution.Resolve | internal/policy/policy.go:107-148 | Merge, mandatory checks, normalisation and lock compose in this order, and the violations are reported in order |
| Policy.SeverityMeaning | internal/policy/policy.go:107-350 | Locks and missing visual verification block, normalisations inform, everything else warns |
| PolicyResolution.Blocks | internal/policy/rules.go:139-146 | True exactly when some violation is a hard block |
| PolicyResolution.ResolutionBlocksExactly | internal/policy/policy.go:107-148 | Resolution reports a hard block if and only if a lock had a push to take away, or a UI task would merge without visual verification and no exemption |
| PolicyResolution.BlockingLeavesMergeOn | internal/policy/policy.go:132-147 | Where a hard block is reported, merge is off if and only if the project is network-locked |
| PolicyResolution.ResolutionOnlyRestricts | internal/policy/policy.go:107-148 | The resolved pipeline is a fixed point of normalisation, enables nothing that project or override disables except a mandatory AI review, and leaves every mandatory review allowed |
| PolicyResolution.TestsForMergeSurvivesExactly | internal/policy/policy.go:154-253 | The tests-for-merge rule survives resolution if and only if the project sets it and the override, if any, sets it too |
| PolicyResolution.ProfilesResolveToTheirDefaults | internal/policy/profiles.go:51-130 | A project fresh from any profile resolves to the profile's own defaults, with nothing to report |
| PolicyResolution.NewProjectsMandateNothing | internal/policy/policy.go:91-98 | and makes no review mandatory |
| PolicyResolution.ProfilesWiden | internal/policy/profiles.go:40-130 | Each profile's defaults exactly: plan-only's toggles, what local review, remote review and autonomous add to the one before; and a profile other than custom is network-locked exactly when its defaults do not push |
| PolicyResolution.ActionsFollowTheirToggles | internal/policy/policy.go:353-407 | Which toggle or switch decides each action, and that an unknown action is never allowed |
| PolicyResolution.LockedProjectsDeliverNothing | internal/policy/policy.go:132-135 | Under a policy resolved from a network-locked project no delivery action is allowed |
| PolicyResolution.GatesOnNormalPipelines | internal/policy/policy.go:353-394 | On pipelines that obey the rules the compound gates reduce to the action's own toggle, and merge implies push |
| Testing.OverallStatus | internal/testengine/engine.go:109-129 | One failed result decides; nothing but skipped results is skipped; anything else passed |
| Testing.ByCriterion | internal/evidence/evidence.go:144-150 | Groups the evidence by criterion: each group is the criterion's items, as often and in the order they come |
| Testing.IsComplete | internal/evidence/evidence.go:76-94 | Complete exactly when there is evidence and every criterion mentioned has an item that passed |
| Governor.BuildGates | internal/merge/governor.go:180-258 | The gate list in order |
| Governor.GatesAreExact | internal/merge/governor.go:180-258 | The list holds exactly the gates that apply, each with what it checks |
| Governor.CollectFailed | internal/merge/governor.go:113-118 | The names of the failed gates, in order |
| Governor.Decide | internal/merge/governor.go:110-175 | The loops over the failed gates give the decision and reason of the specification |
| Governor.DecisionMeaning | internal/merge/governor.go:110-175 | On the input alone: a stale branch asks for a rebase before any repair, a repair comes before any other block, and an allow is given if and only if every gate passes; quarantine never |
| Governor.LevelMeaning | internal/merge/governor.go:160-174 | When every gate passes the verdict is merge, change request, push or local result exactly as policy's merge, create and push say |
| Governor.ReasonMeaning | internal/merge/governor.go:121-158 | The reason given, on the input alone |
| Governor.TestsDisabledIsNeverTheReason | internal/merge/governor.go:135-152 | The reason that tests were disabled is never given, since the general tests gate fails before it in the list |
| Authority.Authority.Deliver | internal/merge/authority.go:53-157 | The six delivery methods: refuse with the reason of the check, or call the provider; the call or refusal is appended to the trail |
| Authority.Authority.GetChecks | internal/merge/authority.go:96-110 | Reading checks needs the capability, no lock on a network provider, and push allowed, in this order |
| Authority.AuthorisationMeaning | internal/merge/authority.go:171-212 | For any verdict, operation by operation: which verdicts and toggles permit it, and that a lock refuses only what they permit |
| Authority.ReadingMeaning | internal/merge/authority.go:96-110 | When reading checks passes, and which refusal comes first |
| Authority.LayersAgree | internal/merge/authority.go:171-212 | On the Governor's own verdict an operation passes the authority if and only if all gates pass, policy allows the action and no network provider meets a locked profile; an update also needs merge or create |
| Authority.UpdatesCanBeOutOfReach | internal/merge/authority.go:80-89 | Policy may allow updating change requests without creating them, and then no verdict ever lets one through |
| Authority.MergeAuthorityIncludesPush | internal/merge/authority.go:190-212 | Whatever the verdict, what passes for merging passes for pushing under policies that obey the rules |
| Authority.LockedProjectsAreRefused | internal/merge/authority.go:171-184 | Under a policy resolved from a network-locked project everything is refused, whatever the verdict and provider |
| MergeQueue.RefusalMeaning | internal/merge/queue.go:84-100 | What an enqueue is accepted for, and the error for each way it is not |
| MergeQueue.Queue.Enqueue | internal/merge/queue.go:84-108 | Refuses for a missing authority, a verdict other than merge, a missing provider or a closed queue, in this order; otherwise appends |
| MergeQueue.Queue.MergeItem | internal/merge/queue.go:161-201 | One item's merge and fallback: its outcome and the authority's trail |
| MergeQueue.Queue.ProcessOne | internal/merge/queue.go:140-147 | Processes exactly the first item, if any |
| MergeQueue.Queue.Process | internal/merge/queue.go:120-136 | The draining loop computes the recursive drain: outcomes, state and whether it was stopped |
| MergeQueue.LocalMergeModeIsReported | internal/merge/queue.go:215-218 | On resolved policies the queue may fall back exactly where normalisation reported local-merge mode and no lock followed |
| DeliveryHistories.MergeIsOk | internal/merge/queue.go:161-201 | One or two authority merges, at most one success, which is then the outcome, or the errors of those made; a second exactly after a failure other than a stale branch, for a network provider, with leave, a local provider and local-merge mode |
| DeliveryHistories.QueueConserves | internal/merge/queue.go:84-158 | Over every history of enqueueing, processing, closing and direct deliveries: accepted items are the processed then the pending ones in order, the trail is what each step put on it, and every item stayed within its merges |
| DeliveryHistories.ProcessIsSteps | internal/merge/queue.go:120-136 | A call of Process is one single step per outcome, in order, and leaves items pending only when cancelled right after an outcome |
| DeliveryHistories.LockedProjectsReachNoProvider | internal/merge/authority.go:165-184 | Over every history every provider call had passed the authority, and no request under a policy resolved from a network-locked project, queued or direct, ever reached a provider |
| DeliveryHistories.OpenQueuesAccept | internal/merge/queue.go:84-108 | Over every history an open queue accepts exactly the items offered before it is closed that have a verdict to merge and a provider, in order, and a closed one none |
| DeliveryHistories.QueuesLoseNothing | internal/merge/queue.go:84-158 | So from a fresh queue those are, in order, the processed items and then the pending ones |
| DeliveryHistories.FreshQueues | internal/merge/queue.go:69-79 | Both hold of every history of a fresh queue |
| VerifyCascade.FlakeRetryPackages | internal/daemon/pipeline_handlers.go:409-426 | Empty unless every failure, of which there are some, is in a concrete test package; otherwise exactly those packages, each once, in order |
| VerifyCascade.RetryListIsUnique | internal/daemon/pipeline_handlers.go:409-426 | The failures determine the retry list |
| VerifyCascade.Retry | internal/daemon/pipeline_handlers.go:363-402 | The single retry: what is run, and how its reply changes the outcome |
| VerifyCascade.RunLevels | internal/daemon/pipeline_handlers.go:309-349 | Runs the levels in order up to and including the first it does not get past |
| VerifyCascade.VerifyWorktree | internal/daemon/pipeline_handlers.go:309-402 | Passed without error if and only if verified; an error tells whether the last run was cancelled - parked under the emergency stop, durably cancelled otherwise - or broke; the calls, at most five, the recorded results, the category and the retry evidence are exactly those of the first stop |
| VerifyCascade.CategoryMeaning | internal/daemon/pipeline_handlers.go:448-465 | By the level's turn: static analysis, compile, test, and at the last static analysis exactly if go vet failed |
| VerifyCascade.VerifiedExactly | internal/daemon/pipeline_handlers.go:309-402 | Verified - all four levels got past, or the first three and a retry of an attributed module failure that passed - in terms of the first stop |
| Budget.TaskLimitMeaning | internal/budget/controller.go:37-42 | A limit set for the task holds, zero included; without one the default of its risk; without that none |
| Budget.Normalised | internal/budget/controller.go:135-160 | The soft fraction lies strictly between 0 and 1, and is the given one if that does |
| Budget.Controller.Record | internal/budget/controller.go:163-175 | Appends the record with its time and type filled in |
| Budget.Controller.SetLimits | internal/budget/controller.go:153-160 | Replaces the limits with the soft fraction normalised |
| Budget.Controller.Spend | internal/budget/controller.go:180-207 | The four accumulators are the paid sums of today, this month, the project today and the task |
| Budget.DecideOne | internal/budget/controller.go:272-314 | Allowed exactly for included usage or where something is left and the amount fits; blocked and soft signals accordingly |
| Budget.LeastDecides | internal/budget/controller.go:251-262 | Where the limit with least left has room, every limit has |
| Budget.Controller.CanAfford | internal/budget/controller.go:215-269 | Paid spend is allowed if and only if every limit that applies, images' own included, has something left and room for the amount; the decision is about the image limit where that one refuses, and otherwise about a limit with least left, and says so if there is any |
| Budget.Controller.Gather | internal/budget/controller.go:229-249 | The limits that apply, in order, with what was spent under each |
| Budget.Controller.LeastLeft | internal/budget/controller.go:251-262 | A candidate with least left, none only if there is none |
| Budget.WindowMeaning | internal/budget/controller.go:180-207 | What each window counts: paid records of the type in its day or month, of its project, or of its task |
| Budget.AdmissionMeaning | internal/budget/controller.go:215-269 | A run is admitted if and only if every limited window it falls into has something left and room for it |
| Budget.IncludedUsageIsFree | internal/budget/controller.go:187-190 | Usage a subscription covers changes no later admission |
| Budget.StepStaysWithin | internal/budget/controller.go:215-269 | Admitting and recording one run keeps every window within its limit |
| Budget.FreshControllersStayWithin | internal/budget/controller.go:135-143 | So it is for every such history of a fresh controller, which has spent nothing |
| Budget.SpendStaysWithinLimits | internal/budget/controller.go:163-269 | If every paid run is admitted first and stamped by a clock that never goes back, the paid spend of each provider type in every day, month, project day and task, and of images in every day, never exceeds its positive limit |
| SharedBudgets.DailyLimitBindsOneType | internal/budget/controller.go:180-207 | The global daily limit, whatever it is, bounds all paid spend together over every admitted history if and only if at most one provider type is paid for |
| SharedBudgets.MonthlyLimitBindsOneType | internal/budget/controller.go:180-207 | The same for the global monthly limit |
| SharedBudgets.DailyLimitHoldsExactly | internal/budget/controller.go:215-269 | Under given limits, and with no refunds, the admitted histories of some types stay within the global daily limit if and only if the smallest limits these types each meet in a day add up to no more than it |
| SharedBudgets.BothAreAdmitted | internal/budget/controller.go:215-269 | A coding run and an image run that each fit alone are both admitted, and add up |
| JsonScanner.ExtractLastJSONArray | internal/review/agent.go:235-278 | The one-pass scan returns the last complete top-level array of the recursive specification, and fails exactly when there is none |
| JsonScanner.DelimitersAreThoseOfJson | internal/review/agent.go:242-266 | The four bytes the scan looks for are the square brackets, the quote and the backslash |
| JsonScanner.ExtractionIsIdempotent | internal/review/agent.go:229-278 | What is extracted is one array, and extracting from it gives it back |
| JsonScanner.SettledTextComposes | internal/review/agent.go:229-278 | After text outside strings and brackets the arrays are its own, then those of what follows |
| JsonScanner.LastArrayIsFound | internal/review/agent.go:229-278 | Any text that ends outside strings and brackets, then an array, then a tail that opens neither: that array is found |
| JsonScanner.DocumentsCompose | internal/review/agent.go:229-278 | On rendered documents of plain bytes, strings with escapes and nested arrays, the arrays found are the document's top-level ones, in order |
| JsonScanner.EveryTextParses | internal/review/agent.go:235-278 | Every text is such a document followed by nothing, a string never ended or an array never closed |
| JsonScanner.ExtractionMeaning | internal/review/agent.go:235-278 | So for every text extraction gives the last top-level array of the document it reads as, and none exactly when that has none |
| Sorting.SortSorts | internal/router/router.go:286-288 | The sort orders what it is given |
| Sorting.SortIsStable | internal/router/router.go:286-288 | and keeps the order of elements that compare equal |
| Sorting.SortedIsUnique | internal/router/catalog.go:107-112 | Where equal-comparing elements are equal only one arrangement is sorted |
| Sorting.PrefixComesFirst | internal/router/catalog.go:107-112 | Of two identities the one that begins the other comes first |
| Sorting.FirstDifferenceDecides | internal/router/catalog.go:107-112 | and otherwise the first difference decides |
| Catalogs.IdentitiesTellApart | internal/router/catalog.go:52-52 | Among names without a slash the identity tells engine, model and account apart |
| Catalogs.Catalog.Add | internal/router/catalog.go:64-72 | Appends unless an entry of the same tier and identity is there; the catalog stays free of duplicates |
| Catalogs.Catalog.Remove | internal/router/catalog.go:75-87 | Removes every entry of that identity, keeps the rest in order, and counts them |
| Catalogs.Catalog.ByTier | internal/router/catalog.go:99-114 | The tier's enabled entries in rank order |
| Catalogs.TierEntriesMeaning | internal/router/catalog.go:99-114 | Each enabled entry of the tier as often as in the catalog, nothing else, by priority and then identity |
| Catalogs.TierEntriesIgnoreOrder | internal/router/catalog.go:99-114 | A tier's list does not depend on the order in which entries were added |
| Router.EffectiveMeaning | internal/router/router.go:123-152 | The default configuration, and what of a given one is replaced |
| Router.BaseTierMeaning | internal/router/tiers.go:98-118 | With a preference for strength the tier is the band; without one the two upper bands come one tier lower |
| Router.EstimateMeaning | internal/router/router.go:159-166 | The estimate prices the expected tokens by the million, and is zero when no price is known |
| Router.BaseTierIsMonotone | internal/router/tiers.go:98-118 | A harder band, or a preference for strength, never lowers the tier |
| Router.Target | internal/router/router.go:175-179 | The target is the base tier or, from R3 on, the risk floor where that is higher |
| Router.OrderedFallbackTiers | internal/router/router.go:422-431 | The two loops give the fallback order |
| Router.FallbackTiersMeaning | internal/router/router.go:422-431 | Target first, then stronger ascending, then weaker descending, each once, every defined tier included |
| Router.ScoreEntry | internal/router/router.go:349-407 | The factors in order and their sum |
| Router.ScoreMeaning | internal/router/router.go:349-407 | A score is the tier match, less the cost share, plus the subscription bonus and priority, less the diversity penalty |
| Router.Selector.EstimateForTier | internal/router/router.go:409-417 | The highest estimate among the tier's entries |
| Router.Selector.RankedAlternatives | internal/router/router.go:271-300 | The loops over tiers and entries compute the ranked alternatives and the exclusions |
| Router.EveryEntryIsAccountedFor | internal/router/router.go:271-300 | Each enabled entry of a defined tier appears across alternatives and exclusions as often as in the catalog; a disabled or undefined one in neither |
| Router.AlternativesMeaning | internal/router/router.go:271-300 | The alternatives are the scored routes of exactly the entries of a defined tier that are enabled, image-capable and large enough where asked, included where required, and available; best score first |
| Router.ReasonMeaning | internal/router/router.go:325-346 | Which reason is given first, and that there is one exactly when the entry is not usable |
| Router.HighestCostMeaning | internal/router/router.go:409-417 | The tier's estimate is the highest of its entries', or zero |
| Router.ExclusionsAreJust | internal/router/router.go:325-346 | Each exclusion names a true reason, never that the entry is disabled; under an included-only restriction every alternative is subscription-included |
| Router.ChainIsOk | internal/router/router.go:236-247 | The chain holds the best route of each tier that has one, at most one a tier, in the order of the tiers |
| Router.SelectionMeaning | internal/router/router.go:170-267 | For every request and catalog: alternatives score-sorted; the chain as above over all tiers; the selected route its head and best of its tier, in the tier tried first; none exactly if there is no alternative; a hard block leaves only included routes |
| Router.RestrictionMeaning | internal/router/router.go:188-209 | The entries that are alternatives, on the request alone: only the request or a hard block restricts them to included routes |
| Router.RoutingIgnoresCatalogOrder | internal/router/router.go:170-267 | The whole explanation and the budget estimate are the same in whatever order the catalog was filled |
| Router.Selector.Select | internal/router/router.go:214-234 | The nested search finds the head of the chain and where it stands |
| Router.Selector.BuildChain | internal/router/router.go:236-247 | The loop with its seen tiers computes the chain |
| Router.Selector.Route | internal/router/router.go:170-267 | Fails exactly on an invalid band; otherwise the explanation of the specification, hard-blocked exactly when a budget is set and does not admit the tier's highest estimate |

## Left out

- Lost races: the store takes the write lock before it reads (`internal/pipeline/store.go:780-801`), so transactions are atomic here and `recoverLostRace`, `ErrConcurrentModification` and the driver's single retry are never reached; only the repair counter is also modelled at the finer grain.
- Several drivers on one task: the task lock and the map of running drives keep one worker a task, which the machine assumes as its single program counter.
- RunStore.Store.CreateRun: rows are keyed by task alone, with no SQL text, timestamps or generated ids.
- DriverLoop.Driver.Drive: proved for a drive during which nothing else touches the store; interleavings are the machine's, whose steps it is connected to by `PipelineDrives.DriveIsStepping`.
- RunStore.Store.ListActiveRuns: the runs come as a set, without their order of creation, and the recovery passes are proved for every order of visiting them.
- Recovery.RecoveryService.ResumeActiveRuns: the goroutine per run is left to the machine, and the runs are visited in any order.
- Unknown stage and run-state names: both are closed enumerations; failure categories keep an unrecognised value because handlers report them as text.
- What handlers do inside - worktrees, agents, leases, finalize - beyond their reply and the cancel of an interrupted one.
- Rendered texts: log lines, audit payloads, failure messages in the flake evidence, the reasons of alternatives and budget decisions.
- Policy.MergeRestrict: toggle names are an enumeration, so a name missing from the string switch cannot be expressed.
- Authority.Authority.Deliver: a missing audit recorder, and the request and result fields a provider alone reads, are not modelled; the trail records the call where the source records it to the audit log.
- MergeQueue.Queue.Process: an Enqueue by another goroutine while it runs is modelled by the single steps of `DeliveryHistories`, not inside the method.
- VerifyCascade.VerifyWorktree: the loop over the levels is a method of its own, and the durable cancel of an interrupted verification is returned as an error value, the store's part being in the pipeline machine.
- Budget.SpendStaysWithinLimits: checks without a provider type, limits replaced midway and a task whose risk band changes between checks are outside it.
- Budget.Controller: usage summaries, token counts and confidence, which are sums without a limit to keep.
- Floating point: dollars and scores are real numbers.
- JsonScanner.ExtractLastJSONArray: decoding the array and normalising its findings, which the standard decoder does.
- Router.Selector.Route: the quota manager's breaker and summaries; availability is a parameter.
- Router.SelectionMeaning: the score breakdown's text and the notes.
- Post-merge sentinel, engineering gate, risk and complexity classifiers, workgraph, memory, CLI, TUI and transport: single-branch facts or input and output.
