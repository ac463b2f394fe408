/**
 The driver: the loop that moves one run through its stages.

 `DriverStep` is the driver between two consecutive store transactions, as a
 program counter and a ledger. `Settle` follows it from a handler's start to the
 end of that loop iteration, and the class `Driver` is the imperative loop,
 proved to do exactly that.
 */
module PipelineDriver {
  import opened Options
  import opened Stages
  import opened Ledgers
  import opened RunStore

  // A handler's error: with a stage category, or with none.
  datatype Fault = StageFault(category: FailureCategory, reason: string) | PlainFault(text: string)

  // What a handler returned. Each stage reads the parts its handler has: execute the
  // changed-file count, verify the verdict and category, review the verdict.
  datatype Reply =
    | Failed(fault: Fault)
    | Answer(evidence: string, changedFiles: int, verdict: bool, category: FailureCategory)

  // How the driver routes a reply.
  datatype Judgement =
    | Accept(evidence: string)
    | NeedsRepair(category: FailureCategory, reason: string, evidence: string)
    | Fatal(category: FailureCategory, reason: string)

  datatype DriveError = ErrStore(error: StoreError) | ErrEmergencyStopped | ErrTaskRequired

  datatype DriveResult = DriveOk | DriveErr(error: DriveError)

  datatype Stop = Stop(on: bool, reason: string)

  // Where a task's only worker stands: not running, in the drive loop, or in startup recovery.
  datatype Pc =
    | Idle
    // the drive loop
    | Top                                                    // about to read the run
    | Checked(stage: Stage, attempt: nat)                    // read as active; stop flag not read yet
    | Running(stage: Stage, attempt: nat)                    // the handler runs
    | Deciding(stage: Stage)                                 // its context was cancelled; stop flag not read yet
    | Cancelling(stage: Stage)                               // the flag was off; durable cancel pending
    | Returned(stage: Stage, reply: Reply)                   // outcome not persisted yet
    | Completed(stage: Stage, evidence: string)              // completed record durable; move pending
    | Bumped                                                 // repair done, attempt bumped; move to verify pending
    | Rejected(reason: string)                               // failed record durable; repair budget not asked yet
    | Granted(reason: string)                                // repair attempt taken; move to repair pending
    | Denied(reason: string)                                 // budget spent; repair_exhausted pending
    | Faulted(stage: Stage, category: FailureCategory, reason: string)   // failed record durable; re-read pending
    | Routing(stage: Stage, category: FailureCategory, reason: string)   // still live; state change pending
    | Confirming                                             // run reported terminal; confirming read pending
    | Finished(result: DriveResult)
    // startup
    | Reconciling                                            // reconciler: list pending
    | ReconcilingActive                                      // listed active; stop flag not read yet
    | Interrupting                                           // flag off; interruption record pending
    | Resuming                                               // recovery: stop flag not read yet
    | Listing                                                // flag off; list pending
    | Marking(stage: Stage)                                  // listed active; interruption record pending
    | Marked(stage: Stage)                                   // attempt bump pending
    | Reentering(stage: Stage)                               // re-entry pending
    | Waking(stage: Stage)                                   // listed waiting; resume pending

  function Categorize(fault: Fault): (FailureCategory, string) {
    match fault
    case StageFault(category, reason) =>
      (if IsValidFailureCategory(category) then category else FailureInvariantViolation, reason)
    case PlainFault(text) => (FailureInvariantViolation, text)
  }

  function Judge(stage: Stage, reply: Reply): Judgement {
    match reply
    case Failed(fault) => Fatal(Categorize(fault).0, Categorize(fault).1)
    case Answer(evidence, changedFiles, verdict, category) =>
      match stage
      case Execute =>
        if changedFiles < 0 then Fatal(FailureInvariantViolation, "execute handler returned negative changedFiles")
        else if changedFiles == 0 then NeedsRepair(FailureNoCodeChanges, "execute produced no code changes", evidence)
        else Accept(evidence)
      case Verify =>
        if verdict then Accept(evidence)
        else NeedsRepair(if IsValidFailureCategory(category) then category else FailureInvariantViolation,
                         "verification failed", evidence)
      case Review =>
        if verdict then Accept(evidence)
        else NeedsRepair(FailureReviewRejection, "review rejected the changes", evidence)
      case _ => Accept(evidence)
  }

  // ---- what a handler says, in its own terms ----

  predicate Affirms(reply: Reply) {
    reply.Answer? && reply.verdict
  }

  predicate Succeeds(stage: Stage, reply: Reply) {
    && reply.Answer?
    && (stage == Execute ==> reply.changedFiles > 0)
    && (stage == Verify || stage == Review ==> reply.verdict)
  }

  // Nothing broke, but the work has to be redone.
  predicate Declines(stage: Stage, reply: Reply) {
    && reply.Answer?
    && (stage == Execute || stage == Verify || stage == Review)
    && (stage == Execute ==> reply.changedFiles == 0)
    && (stage == Verify || stage == Review ==> !reply.verdict)
  }

  /** A reply is accepted exactly when the handler succeeded, and repaired exactly when it declined. */
  lemma JudgementIsJust(stage: Stage, reply: Reply)
    ensures Judge(stage, reply).Accept? <==> Succeeds(stage, reply)
    ensures Judge(stage, reply).NeedsRepair? <==> Declines(stage, reply)
    ensures Succeeds(stage, reply) || Declines(stage, reply) ==> Judge(stage, reply).evidence == reply.evidence
  {
  }

  // The stage an accepted stage moves to by a plain transition.
  function NextStage(stage: Stage): Stage
    requires stage != Repair && stage != Finalize
  {
    match stage
    case Compile => Plan
    case Plan => Ready
    case Ready => Execute
    case Execute => Verify
    case Verify => Review
    case Review => Finalize
  }

  function RouteState(stage: Stage, category: FailureCategory): RunState {
    if (category.FailureQuotaExceeded? || category.FailureRateLimited?) && (stage.Execute? || stage.Verify?) then
      RunWaitingQuota
    else if category.FailureLeaseLost? && stage.Ready? then RunBlocked
    else RunFailed
  }

  function OnError(e: StoreError): Pc {
    if e.ErrRunTerminal? then Confirming else Finished(DriveErr(ErrStore(e)))
  }

  function After(out: Outcome, next: Pc): Pc {
    if out.Done? then next else OnError(out.error)
  }

  // The same run row up to the recorded failure.
  predicate SameRow(r: Run, r': Run) {
    r' == r.(failure := r'.failure, reason := r'.reason)
  }

  // The loop stops on a store error.
  predicate Stopped(pc: Pc) {
    pc.Confirming? || (pc.Finished? && pc.result.DriveErr?)
  }

  // Persisting a handler's outcome.
  function Persist(l: Ledger, stage: Stage, reply: Reply): (r: (Ledger, Pc))
    ensures SameRow(l.run, r.0.run) && l.records.Keys <= r.0.records.Keys
    ensures match r.1
            case Completed(s, _) => s == stage
            case Rejected(_) => stage == Execute || stage == Verify || stage == Review
            case Faulted(s, _, _) => s == stage
            case other => Stopped(other)
  {
    hide FinishStage;
    match Judge(stage, reply)
    case Accept(evidence) =>
      OutcomeKeepsRow(l, stage, FailureTest, "", evidence);
      var (l', out) := CompleteStage(l, stage, evidence);
      (l', After(out, Completed(stage, evidence)))
    case NeedsRepair(category, reason, evidence) =>
      OutcomeKeepsRow(l, stage, category, reason, evidence);
      var (l', out) := FailStage(l, stage, category, reason, evidence);
      (l', After(out, Rejected(reason)))
    case Fatal(category, reason) =>
      OutcomeKeepsRow(l, stage, category, reason, "");
      var (l', out) := FailStage(l, stage, category, reason, "");
      (l', After(out, Faulted(stage, category, reason)))
  }

  // An outcome changes nothing of the row but the failure it shows, and removes no record.
  lemma OutcomeKeepsRow(l: Ledger, stage: Stage, category: FailureCategory, reason: string, evidence: string)
    ensures var l' := CompleteStage(l, stage, evidence).0; SameRow(l.run, l'.run) && l.records.Keys <= l'.records.Keys
    ensures var l' := FailStage(l, stage, category, reason, evidence).0;
            SameRow(l.run, l'.run) && l.records.Keys <= l'.records.Keys
  {
  }

  // Moving the cursor, then looping.
  function Move(l: Ledger, to: Stage, reason: string): (r: (Ledger, Pc))
    ensures (r.1.Top? || Stopped(r.1)) && l.records.Keys <= r.0.records.Keys
    ensures r.0.run == l.run
            || (r.1.Top? && r.0.run == l.run.(stage := to, state := RunActive)
                && CanTransitionStage(l.run.state, l.run.stage, to))
    ensures r.1.Top? ==> r.0.run.stage == to
  {
    var (l', out) := Transition(l, to, reason, "");
    (l', After(out, Top))
  }

  // Changing the run state, then looping.
  function Route(l: Ledger, to: RunState, reason: string, resultRef: string): (r: (Ledger, Pc))
    ensures r.1.Top? || Stopped(r.1)
    ensures r.0.records == l.records && r.0.run.stage == l.run.stage
    ensures r.0.run.stageAttempt == l.run.stageAttempt && r.0.run.repairAttempt == l.run.repairAttempt
    ensures r.0.run.maxRepairAttempts == l.run.maxRepairAttempts
    ensures r.1.Top? ==> r.0.run.state == to
    ensures r.0.run == l.run || (r.1.Top? && CanTransitionRunState(l.run.state, to))
  {
    var (l', out) := SetRunState(l, to, reason, resultRef);
    (l', After(out, Top))
  }

  // Moving on from a completed stage.
  function Proceed(l: Ledger, stage: Stage, evidence: string): (Ledger, Pc) {
    if stage == Repair then
      var (l', out) := IncrementStageAttempt(l);
      (l', After(out, Bumped))
    else if stage == Finalize then Route(l, RunCompleted, "", evidence)
    else Move(l, NextStage(stage), "")
  }

  function AskRepair(l: Ledger, reason: string): (Ledger, Pc) {
    var (l', grant) := IncrementRepairAttempt(l);
    match grant
    case RepairGranted(_) => (l', Granted(reason))
    case RepairSpent(_) => (l', Denied(reason))
    case RepairRefused(e) => (l', OnError(e))
  }

  /** One step of the drive loop: one store transaction, one flag read, or one handler call answered by `reply`. */
  function DriverStep(l: Ledger, stop: Stop, pc: Pc, reply: Reply): (Ledger, Pc) {
    match pc
    case Top =>
      if Terminal(l) || IsWaitState(l.run.state) then (l, Finished(DriveOk))
      else (l, Checked(l.run.stage, l.run.stageAttempt))
    case Checked(stage, attempt) =>
      if stop.on then (l, Finished(DriveErr(ErrEmergencyStopped))) else (l, Running(stage, attempt))
    case Running(stage, _) => (l, Returned(stage, reply))
    case Deciding(stage) =>
      if stop.on then (l, Returned(stage, Failed(StageFault(FailureInterrupted, StopText(stop)))))
      else (l, Cancelling(stage))
    case Cancelling(stage) => (Cancel(l, "cancelled"), Returned(stage, Failed(PlainFault("pipeline: run cancelled"))))
    case Returned(stage, out) => Persist(l, stage, out)
    case Completed(stage, evidence) => Proceed(l, stage, evidence)
    case Bumped => Move(l, Verify, "repair applied; re-verify")
    case Rejected(reason) => AskRepair(l, reason)
    case Granted(reason) => Move(l, Repair, reason)
    case Denied(reason) => Route(l, RunRepairExhausted, "repair budget exhausted: " + reason, "")
    case Faulted(stage, category, reason) =>
      if Terminal(l) then (l, Confirming)
      else if category.FailureInterrupted? then (l, Finished(DriveErr(ErrEmergencyStopped)))
      else (l, Routing(stage, category, reason))
    case Routing(stage, category, reason) => Route(l, RouteState(stage, category), reason, "")
    case Confirming =>
      (l, Finished(if Terminal(l) then DriveOk else DriveErr(ErrStore(ErrRunTerminal))))
    case _ => (l, pc)
  }

  function StopText(stop: Stop): string {
    if stop.reason == "" then "emergency stop engaged" else stop.reason
  }

  // ---- one loop iteration, and the whole loop ----

  // How many driver steps an iteration may still take from here.
  function StepsLeft(pc: Pc): nat {
    match pc
    case Running(_, _) => 5
    case Returned(_, _) => 4
    case Completed(_, _) => 3
    case Rejected(_) => 3
    case Faulted(_, _, _) => 3
    case Bumped => 2
    case Granted(_) => 2
    case Denied(_) => 2
    case Routing(_, _, _) => 2
    case _ => 0
  }

  predicate IterationOver(pc: Pc) {
    pc.Top? || pc.Confirming? || pc.Finished?
  }

  function Settle(l: Ledger, pc: Pc, reply: Reply): (r: (Ledger, Pc))
    ensures StepsLeft(pc) > 0 ==> IterationOver(r.1)
    decreases StepsLeft(pc)
  {
    if StepsLeft(pc) == 0 then (l, pc)
    else
      var (l', pc') := DriverStep(l, Stop(false, ""), pc, reply);
      Settle(l', pc', reply)
  }

  // How many handler calls a stage is still worth without another repair.
  function Rank(stage: Stage): nat {
    match stage
    case Compile => 7
    case Plan => 6
    case Ready => 5
    case Execute => 4
    case Repair => 4
    case Verify => 3
    case Review => 2
    case Finalize => 1
  }

  function RepairsLeft(r: Run): nat {
    if r.repairAttempt <= r.maxRepairAttempts then r.maxRepairAttempts - r.repairAttempt else 0
  }

  // An upper bound on the handler calls a run can still make.
  function CallBudget(r: Run): nat {
    Rank(r.stage) + 3 * RepairsLeft(r)
  }

  function LiveBudget(r: Run): nat {
    if r.state.RunActive? then CallBudget(r) else 0
  }

  // The program counter names the stage the cursor is at.
  predicate AtCursor(r: Run, pc: Pc) {
    match pc
    case Checked(stage, _) => stage == r.stage
    case Running(stage, _) => stage == r.stage
    case Deciding(stage) => stage == r.stage
    case Cancelling(stage) => stage == r.stage
    case Returned(stage, _) => stage == r.stage
    case Completed(stage, _) => stage == r.stage
    case Faulted(stage, _, _) => stage == r.stage
    case Routing(stage, _, _) => stage == r.stage
    case Bumped => r.stage == Repair
    case Rejected(_) => r.stage == Execute || r.stage == Verify || r.stage == Review
    case Granted(_) => r.stage == Execute || r.stage == Verify || r.stage == Review
    case Denied(_) => r.stage == Execute || r.stage == Verify || r.stage == Review
    case _ => true
  }

  // An upper bound on the handler calls still to start, counting the one in flight as started.
  function CallsLeft(r: Run, pc: Pc): int {
    match pc
    case Top => if r.state.RunActive? then CallBudget(r) else CallBudget(r) - 1
    case Checked(_, _) => CallBudget(r)
    case Granted(_) => CallBudget(r) + 2
    case _ => CallBudget(r) - 1
  }

  ghost predicate Spends(r: Run, pc: Pc, r': Run, pc': Pc) {
    && AtCursor(r', pc')
    && CallsLeft(r', pc') + (if pc.Checked? && pc'.Running? then 1 else 0) <= CallsLeft(r, pc)
  }

  /** No driver step raises that bound, and the step that starts a handler lowers it. */
  lemma StepsSpendBudget(l: Ledger, stop: Stop, pc: Pc, reply: Reply)
    requires AtCursor(l.run, pc)
    ensures var (l', pc') := DriverStep(l, stop, pc, reply); Spends(l.run, pc, l'.run, pc')
  {
    hide Persist, Proceed, AskRepair, Move, Route, CallBudget, Cancel, Spends;
    match pc {
      case Returned(stage, answer) => PersistSpends(l, answer);
      case Completed(_, evidence) => ProceedSpends(l, evidence);
      case Rejected(reason) => AskingSpends(l, reason);
      case Bumped => MovingSpends(l, pc, Verify, "repair applied; re-verify");
      case Granted(reason) => MovingSpends(l, pc, Repair, reason);
      case Denied(reason) => RoutingSpends(l, pc, RunRepairExhausted, "repair budget exhausted: " + reason);
      case Routing(stage, category, reason) => RoutingSpends(l, pc, RouteState(stage, category), reason);
      case _ => OthersSpend(l, stop, pc, reply);
    }
  }

  // Reads and the handler call leave the row as it is; a cancel leaves its budget.
  lemma OthersSpend(l: Ledger, stop: Stop, pc: Pc, reply: Reply)
    requires AtCursor(l.run, pc)
    requires !pc.Returned? && !pc.Completed? && !pc.Rejected? && !pc.Bumped? && !pc.Granted? && !pc.Denied? && !pc.Routing?
    ensures var (l', pc') := DriverStep(l, stop, pc, reply); Spends(l.run, pc, l'.run, pc')
  {
    hide Persist, Proceed, AskRepair, Move, Route, Rank, RouteState, StopText;
  }

  lemma MovingSpends(l: Ledger, pc: Pc, to: Stage, reason: string)
    requires AtCursor(l.run, pc) && ((pc.Bumped? && to == Verify) || (pc.Granted? && to == Repair))
    ensures var (l', pc') := Move(l, to, reason); Spends(l.run, pc, l'.run, pc')
  {
    hide Move;
  }

  lemma RoutingSpends(l: Ledger, pc: Pc, to: RunState, reason: string)
    requires (pc.Denied? || pc.Routing?) && !to.RunActive?
    ensures var (l', pc') := Route(l, to, reason, ""); Spends(l.run, pc, l'.run, pc')
  {
    hide Route;
  }

  lemma PersistSpends(l: Ledger, reply: Reply)
    ensures var (l', pc') := Persist(l, l.run.stage, reply); Spends(l.run, Returned(l.run.stage, reply), l'.run, pc')
  {
    hide Persist;
  }

  lemma ProceedSpends(l: Ledger, evidence: string)
    ensures var (l', pc') := Proceed(l, l.run.stage, evidence); Spends(l.run, Completed(l.run.stage, evidence), l'.run, pc')
  {
    hide Move, Route;
  }

  lemma AskingSpends(l: Ledger, reason: string)
    requires AtCursor(l.run, Rejected(reason))
    ensures var (l', pc') := AskRepair(l, reason); Spends(l.run, Rejected(reason), l'.run, pc')
  {
  }

  lemma StepsMakeProgress(l: Ledger, stop: Stop, pc: Pc, reply: Reply)
    requires StepsLeft(pc) > 0
    ensures StepsLeft(DriverStep(l, stop, pc, reply).1) < StepsLeft(pc)
  {
    hide Persist, Move, Route;
  }

  lemma {:induction false} SettlingSpendsBudget(l: Ledger, pc: Pc, reply: Reply)
    requires AtCursor(l.run, pc)
    ensures var (l', pc') := Settle(l, pc, reply); CallsLeft(l'.run, pc') <= CallsLeft(l.run, pc)
    decreases StepsLeft(pc)
  {
    hide DriverStep, AtCursor, CallsLeft;
    if StepsLeft(pc) > 0 {
      var (l', pc') := DriverStep(l, Stop(false, ""), pc, reply);
      StepsSpendBudget(l, Stop(false, ""), pc, reply);
      StepsMakeProgress(l, Stop(false, ""), pc, reply);
      SettlingSpendsBudget(l', pc', reply);
    }
  }

  predicate CallsHandler(l: Ledger, stopped: bool) {
    !Terminal(l) && !IsWaitState(l.run.state) && !stopped
  }

  // One loop iteration; `reply` is what the handler returns, if it is called.
  function Iterate(l: Ledger, stop: Stop, reply: Reply): (r: (Ledger, Pc))
    ensures IterationOver(r.1)
    ensures r.1.Top? ==> CallsHandler(l, stop.on)
  {
    if Terminal(l) || IsWaitState(l.run.state) then (l, Finished(DriveOk))
    else if stop.on then (l, Finished(DriveErr(ErrEmergencyStopped)))
    else Settle(l, Running(l.run.stage, l.run.stageAttempt), reply)
  }

  /** An iteration that loops again has used up part of the call budget. */
  lemma IterationsSpendBudget(l: Ledger, stop: Stop, reply: Reply)
    requires Iterate(l, stop, reply).1.Top?
    ensures LiveBudget(Iterate(l, stop, reply).0.run) < LiveBudget(l.run)
  {
    SettlingSpendsBudget(l, Running(l.run.stage, l.run.stageAttempt), reply);
  }

  // The drive loop when nothing else touches the run; `answers(n)` is what the n-th handler call returns.
  // Yields the ledger, the result and the number of handler calls made so far.
  function DriveLoop(l: Ledger, stop: Stop, answers: nat -> Reply, calls: nat): (Ledger, DriveResult, nat)
    decreases LiveBudget(l.run)
  {
    var (l', pc') := Iterate(l, stop, answers(calls));
    var n := if CallsHandler(l, stop.on) then calls + 1 else calls;
    if pc'.Top? then
      IterationsSpendBudget(l, stop, answers(calls));
      DriveLoop(l', stop, answers, n)
    else if pc'.Confirming? then
      (l', if Terminal(l') then DriveOk else DriveErr(ErrStore(ErrRunTerminal)), n)
    else
      (l', pc'.result, n)
  }

  /** An uninterrupted drive makes at most the call budget of handler calls. */
  lemma {:induction false} DriveCallBound(l: Ledger, stop: Stop, answers: nat -> Reply, calls: nat)
    ensures DriveLoop(l, stop, answers, calls).2 - calls <= LiveBudget(l.run)
    decreases LiveBudget(l.run)
  {
    var (l', pc') := Iterate(l, stop, answers(calls));
    if pc'.Top? {
      IterationsSpendBudget(l, stop, answers(calls));
      DriveCallBound(l', stop, answers, calls + 1);
    }
  }

  /** From a new run that is at most 7 calls plus 3 for each repair attempt allowed. */
  lemma NewRunCallBound(project: string, max: int, stop: Stop, answers: nat -> Reply)
    ensures DriveLoop(CreateRun(None, project, max), stop, answers, 0).2
            <= 7 + 3 * (if max <= 0 then DEFAULT_MAX_REPAIR_ATTEMPTS else max)
  {
    DriveCallBound(CreateRun(None, project, max), stop, answers, 0);
  }
}
