/** The stage table, the run states and the failure taxonomy of a pipeline run. */
module Stages {

  datatype Stage = Compile | Plan | Ready | Execute | Verify | Review | Finalize | Repair

  datatype RunState =
    | RunActive
    | RunCompleted
    | RunFailed
    | RunCancelled
    | RunRepairExhausted
    | RunWaitingQuota
    | RunBlocked

  // Handlers report categories as text; any text outside the taxonomy is Unrecognised.
  datatype FailureCategory =
    | FailureCompile
    | FailureTest
    | FailureStaticAnalysis
    | FailureReviewRejection
    | FailureAgentUnavailable
    | FailureAgentAuthUnavailable
    | FailureProviderTimeout
    | FailureQuotaExceeded
    | FailureRateLimited
    | FailureInvalidAgentOutput
    | FailureNoCodeChanges
    | FailureWorktree
    | FailureGit
    | FailureDatabase
    | FailureLeaseLost
    | FailureCancelled
    | FailurePolicyRejection
    | FailureInvariantViolation
    | FailureInterrupted
    | Unrecognised(name: string)

  predicate IsValidFailureCategory(c: FailureCategory) {
    !c.Unrecognised?
  }

  // The stage cursor moves an active run may make.
  function StageTransitions(from: Stage): set<Stage> {
    match from
    case Compile => {Plan}
    case Plan => {Ready}
    case Ready => {Execute}
    case Execute => {Verify, Repair}
    case Verify => {Review, Repair}
    case Review => {Finalize, Repair}
    case Repair => {Verify, Execute}
    case Finalize => {}
  }

  predicate IsTerminalRunState(s: RunState) {
    s.RunCompleted? || s.RunFailed? || s.RunCancelled? || s.RunRepairExhausted?
  }

  predicate IsWaitState(s: RunState) {
    s.RunWaitingQuota? || s.RunBlocked?
  }

  predicate CanTransitionStage(state: RunState, from: Stage, to: Stage) {
    if IsTerminalRunState(state) then false
    else if IsWaitState(state) then to == Ready
    else to in StageTransitions(from)
  }

  predicate CanTransitionRunState(from: RunState, to: RunState) {
    match from
    case RunActive => to != RunActive
    case RunWaitingQuota => to.RunActive? || to.RunFailed? || to.RunCancelled?
    case RunBlocked => to.RunActive? || to.RunFailed? || to.RunCancelled?
    case _ => false
  }

  // The place of a stage on the way from compile to finalize.
  function Place(stage: Stage): nat
    requires stage != Repair
  {
    match stage
    case Compile => 0
    case Plan => 1
    case Ready => 2
    case Execute => 3
    case Verify => 4
    case Review => 5
    case Finalize => 6
  }

  /** The table is the path from compile to finalize, the detours into repair, and repair's two ways back. */
  lemma StageTableIsThePath(from: Stage, to: Stage)
    ensures to in StageTransitions(from)
            <==> if from == Repair then to == Verify || to == Execute
                 else if to == Repair then Place(Execute) <= Place(from) <= Place(Review)
                 else Place(to) == Place(from) + 1
  {
  }

  /** The cursor of a terminal run stays, that of a waiting one goes to ready only, and an active one's along the table. */
  lemma CursorRules(state: RunState, from: Stage, to: Stage)
    ensures CanTransitionStage(state, from, to)
            <==> || (state == RunActive && to in StageTransitions(from))
                 || (state in {RunWaitingQuota, RunBlocked} && to == Ready)
  {
  }

  /** A run that has ended keeps its state, a waiting one only becomes active, failed or cancelled, an active one anything. */
  lemma StateRules(from: RunState, to: RunState)
    ensures CanTransitionRunState(from, to)
            <==> && from != to
                 && from !in {RunCompleted, RunFailed, RunCancelled, RunRepairExhausted}
                 && (from in {RunWaitingQuota, RunBlocked} ==> to in {RunActive, RunFailed, RunCancelled})
  {
  }
}
