/** The drive loop as a part of the step machine: what it computes the machine reaches, and how it ends under a cancel. */
module PipelineDrives {
  import opened Options
  import opened Stages
  import opened Ledgers
  import opened PipelineDriver
  import opened Recovery
  import opened PipelineMachine
  import opened PipelineInvariant
  import opened PipelineTheorems
  import opened PipelineReplies

  // ---- the drive loop is one of these histories ----

  /** What `Settle` computes, the machine reaches by stepping the worker alone. */
  lemma {:induction false} SettleIsStepping(s: System, reply: Reply) returns (n: nat)
    requires !InRecovery(s.pc)
    ensures var s' := Perform(s, Advances(n, reply)); (s'.ledger, s'.pc) == Settle(s.ledger, s.pc, reply)
    ensures Perform(s, Advances(n, reply)).stop == s.stop
    decreases StepsLeft(s.pc)
  {
    hide DriverStep;
    if StepsLeft(s.pc) == 0 {
      n := 0;
    } else {
      var next := Step(s, Advance(reply));
      StepsMakeProgress(s.ledger, s.stop, s.pc, reply);
      StopIsNotRead(s, reply);
      var m := SettleIsStepping(next, reply);
      n := m + 1;
      PerformAdvance(s, n, reply);
    }
  }

  lemma StopIsNotRead(s: System, reply: Reply)
    requires StepsLeft(s.pc) > 0
    ensures var (l, pc) := DriverStep(s.ledger, s.stop, s.pc, reply);
            !InRecovery(pc) && (l, pc) == DriverStep(s.ledger, Stop(false, ""), s.pc, reply)
  {
    hide Persist, Move, Route;
  }

  // What one step of the drive loop does to the machine, but for the log.
  lemma DriverAdvances(s: System, reply: Reply)
    requires !InRecovery(s.pc)
    ensures var s' := Step(s, Advance(reply));
            (s'.ledger, s'.pc) == DriverStep(s.ledger, s.stop, s.pc, reply) && s'.stop == s.stop
  {
    hide DriverStep;
  }

  lemma {:induction false} IterateIsStepping(s: System, reply: Reply) returns (n: nat)
    requires s.pc.Top?
    ensures var s' := Perform(s, Advances(n, reply));
            (s'.ledger, s'.pc) == Iterate(s.ledger, s.stop, reply) && s'.stop == s.stop
  {
    hide Settle, Persist, Move, Route, EventOf;
    var checked := Step(s, Advance(reply));
    PerformAdvance(s, 1, reply);
    PerformAdvance(checked, 0, reply);
    if Terminal(s.ledger) || IsWaitState(s.ledger.run.state) {
      n := 1;
    } else {
      var running := Step(checked, Advance(reply));
      PerformAdvance(s, 2, reply);
      PerformAdvance(checked, 1, reply);
      PerformAdvance(running, 0, reply);
      if s.stop.on {
        n := 2;
      } else {
        var m := SettleIsStepping(running, reply);
        n := m + 2;
        PerformAdvance(s, m + 2, reply);
        PerformAdvance(checked, m + 1, reply);
      }
    }
  }

  predicate OnlyAdvances(actions: seq<Action>) {
    forall a :: a in actions ==> a.Advance?
  }

  /** The whole drive, its ledger and its result, is reached from the top of the loop by stepping the worker alone. */
  lemma {:induction false} DriveIsStepping(s: System, answers: nat -> Reply, calls: nat) returns (actions: seq<Action>)
    requires s.pc.Top?
    ensures OnlyAdvances(actions)
    ensures var (l, result, _) := DriveLoop(s.ledger, s.stop, answers, calls);
            var s' := Perform(s, actions);
            s'.ledger == l && s'.pc == Finished(result) && s'.stop == s.stop
    decreases LiveBudget(s.ledger.run)
  {
    hide Iterate, Perform, LiveBudget;
    var reply := answers(calls);
    var n := IterateIsStepping(s, reply);
    var once := Advances(n, reply);
    var next := Perform(s, once);
    if next.pc.Top? {
      IterationsSpendBudget(s.ledger, s.stop, reply);
      var rest := DriveIsStepping(next, answers, if CallsHandler(s.ledger, s.stop.on) then calls + 1 else calls);
      PerformSplits(s, once, rest);
      actions := once + rest;
    } else if next.pc.Confirming? {
      ConfirmingStep(next, reply);
      PerformSplits(s, once, [Advance(reply)]);
      actions := once + [Advance(reply)];
    } else {
      actions := once;
    }
  }

  lemma ConfirmingStep(s: System, reply: Reply)
    requires s.pc.Confirming?
    ensures var s' := Perform(s, [Advance(reply)]);
            && s'.ledger == s.ledger && s'.stop == s.stop
            && s'.pc == Finished(if Terminal(s.ledger) then DriveOk else DriveErr(ErrStore(ErrRunTerminal)))
  {
    assert [Advance(reply)][1..] == [];
    assert Perform(s, [Advance(reply)]) == Perform(Step(s, Advance(reply)), []);
  }

  // ---- how a drive ends that a cancel lands under ----

  // The stage was completed at this very attempt before, so that completing it again is absorbed.
  predicate CompletedBefore(l: Ledger, stage: Stage, reply: Reply) {
    Judge(stage, reply).Accept? && Key(stage, l.run.stageAttempt, RecordCompleted) in l.records && stage != Repair
  }

  // The drive's next durable change is to move the run. `reply` is what a handler yet to return returns.
  predicate MustMove(l: Ledger, stopped: bool, pc: Pc, reply: Reply) {
    match pc
    case Checked(stage, _) => !stopped && CompletedBefore(l, stage, reply)
    case Running(stage, _) => CompletedBefore(l, stage, reply)
    case Returned(stage, answer) => CompletedBefore(l, stage, answer)
    case Completed(stage, _) => stage != Repair
    case Bumped => true
    case Granted(_) => true
    case Denied(_) => true
    case Routing(_, _, _) => true
    case _ => false
  }

  datatype Ending = MoveRefused | Parked | WithoutError

  // How the drive of a cancelled run ends from here: refused a move, parked by the stop, or without an error.
  function Forecast(l: Ledger, stopped: bool, pc: Pc, reply: Reply): Ending {
    if MustMove(l, stopped, pc, reply) then MoveRefused
    else if pc.Checked? && stopped then Parked
    else WithoutError
  }

  predicate EndsAs(result: DriveResult, ending: Ending) {
    match ending
    case WithoutError => result == DriveOk
    case Parked => result == DriveErr(ErrEmergencyStopped)
    case MoveRefused =>
      && result.DriveErr? && result.error.ErrStore?
      && (result.error.error.ErrInvalidTransition? || result.error.error.ErrInvalidRunStateTransition?)
  }

  // The worker is somewhere in the drive loop.
  predicate Driving(pc: Pc) {
    !pc.Idle? && !pc.Finished? && !InRecovery(pc)
  }

  // A cancelled run with its failed record, and a worker at its cursor.
  predicate CancelledUnder(l: Ledger, pc: Pc) {
    && l.run.state.RunCancelled? && AtCursor(l.run, pc)
    && Key(l.run.stage, l.run.stageAttempt, RecordFailed) in l.records
  }

  // How many more steps the drive of a cancelled run takes, at most.
  function DriveLeft(pc: Pc): nat {
    match pc
    case Checked(_, _) => 8
    case Deciding(_) => 8
    case Cancelling(_) => 7
    case Running(_, _) => 6
    case Returned(_, _) => 5
    case Completed(_, _) => 4
    case Rejected(_) => 4
    case Faulted(_, _, _) => 4
    case Bumped => 3
    case Granted(_) => 3
    case Denied(_) => 3
    case Routing(_, _, _) => 3
    case Top => 1
    case Confirming => 1
    case _ => 0
  }

  /**
   Wherever in the drive loop a cancel lands, the drive ends and the run stays cancelled. It ends refused exactly where
   its next durable change is to move the run, parked exactly where the loop had read the run but not yet the stop,
   which is on, and without an error everywhere else.
   */
  lemma CancelledDriveEnds(s: System, reason: string, reply: Reply) returns (n: nat)
    requires Inv(s) && !Terminal(s.ledger) && Driving(s.pc)
    ensures var c := Step(s, CancelRun(reason));
            var s' := Perform(c, Advances(n, reply));
            && c.ledger.run.state.RunCancelled? && s'.ledger.run == c.ledger.run && s'.pc.Finished?
            && forall ending :: EndsAs(s'.pc.result, ending) <==> ending == Forecast(c.ledger, s.stop.on, s.pc, reply)
  {
    var c := Step(s, CancelRun(reason));
    assert CancelledUnder(c.ledger, c.pc) by {
      PcAtCursor(s.ledger, s.pc);
    }
    n := CancelledDrive(c, reply);
    hide Perform, Forecast, CancelledUnder, Inv, Cancel;
  }

  lemma {:induction false} CancelledDrive(c: System, reply: Reply) returns (n: nat)
    requires CancelledUnder(c.ledger, c.pc) && Driving(c.pc)
    ensures var s' := Perform(c, Advances(n, reply));
            && s'.ledger.run == c.ledger.run && s'.pc.Finished?
            && EndsAs(s'.pc.result, Forecast(c.ledger, c.stop.on, c.pc, reply))
    decreases DriveLeft(c.pc)
  {
    hide DriverStep, CancelledUnder, Forecast, EndsAs;
    var next := Step(c, Advance(reply));
    DriverAdvances(c, reply);
    CancelledStep(c.ledger, c.stop, c.pc, reply);
    var m := 0;
    if !next.pc.Finished? {
      m := CancelledDrive(next, reply);
    }
    PerformAdvance(next, 0, reply);
    n := m + 1;
    PerformAdvance(c, n, reply);
  }

  // One step leaves the row and the forecast, and either ends the drive as forecast or brings it nearer its end.
  ghost predicate Unwinds(l: Ledger, stop: Stop, pc: Pc, reply: Reply) {
    var (l', pc') := DriverStep(l, stop, pc, reply);
    var ending := Forecast(l, stop.on, pc, reply);
    && l'.run == l.run
    && if pc'.Finished? then EndsAs(pc'.result, ending)
       else
         && CancelledUnder(l', pc') && Driving(pc')
         && DriveLeft(pc') < DriveLeft(pc) && Forecast(l', stop.on, pc', reply) == ending
  }

  lemma CancelledStep(l: Ledger, stop: Stop, pc: Pc, reply: Reply)
    requires CancelledUnder(l, pc) && Driving(pc)
    ensures Unwinds(l, stop, pc, reply)
  {
    hide Unwinds;
    if pc.Returned? {
      CancelledReturnUnwinds(l, stop, pc, reply);
    } else if pc.Completed? || pc.Bumped? || pc.Granted? || pc.Denied? || pc.Routing? {
      CancelledMoveUnwinds(l, stop, pc, reply);
    } else {
      CancelledRestUnwinds(l, stop, pc, reply);
    }
  }

  lemma CancelledReturnUnwinds(l: Ledger, stop: Stop, pc: Pc, reply: Reply)
    requires CancelledUnder(l, pc) && pc.Returned?
    ensures Unwinds(l, stop, pc, reply)
  {
    hide Persist, Judge;
    CancelledPersist(l, pc.reply);
    JudgedWell(l.run.stage, pc.reply);
  }

  lemma CancelledMoveUnwinds(l: Ledger, stop: Stop, pc: Pc, reply: Reply)
    requires CancelledUnder(l, pc) && (pc.Completed? || pc.Bumped? || pc.Granted? || pc.Denied? || pc.Routing?)
    ensures Unwinds(l, stop, pc, reply)
  {
    hide Persist, Judge, Move, Route, NextStage, CompletedBefore;
    match pc {
      case Completed(stage, evidence) => CancelledProceed(l, evidence);
      case Bumped => CancelledMove(l, Verify, "repair applied; re-verify");
      case Granted(reason) => CancelledMove(l, Repair, reason);
      case Denied(reason) => CancelledRoute(l, RunRepairExhausted, "repair budget exhausted: " + reason, "");
      case Routing(stage, category, reason) => CancelledRoute(l, RouteState(stage, category), reason, "");
    }
  }

  lemma CancelledProceed(l: Ledger, evidence: string)
    requires l.run.state.RunCancelled?
    ensures var (l', pc') := Proceed(l, l.run.stage, evidence);
            l' == l && if l.run.stage == Repair then pc' == Confirming else pc'.Finished? && EndsAs(pc'.result, MoveRefused)
  {
    hide Move, Route;
    if l.run.stage == Finalize {
      CancelledRoute(l, RunCompleted, "", evidence);
    } else if l.run.stage != Repair {
      CancelledMove(l, NextStage(l.run.stage), "");
    }
  }

  lemma CancelledRestUnwinds(l: Ledger, stop: Stop, pc: Pc, reply: Reply)
    requires CancelledUnder(l, pc) && Driving(pc)
    requires !pc.Returned? && !pc.Completed? && !pc.Bumped? && !pc.Granted? && !pc.Denied? && !pc.Routing?
    ensures Unwinds(l, stop, pc, reply)
  {
    hide Persist, Move, Route, CompletedBefore, StopText;
    FailedIsNotAccepted(l, l.run.stage);
  }

  lemma FailedIsNotAccepted(l: Ledger, stage: Stage)
    ensures forall fault :: !CompletedBefore(l, stage, Failed(fault))
  {
  }

  // A cancelled run refuses every move and every other state.
  lemma CancelledMove(l: Ledger, to: Stage, reason: string)
    requires l.run.state.RunCancelled? && to != l.run.stage
    ensures Move(l, to, reason) == (l, Finished(DriveErr(ErrStore(ErrInvalidTransition(l.run.state, l.run.stage, to)))))
  {
  }

  lemma CancelledRoute(l: Ledger, to: RunState, reason: string, resultRef: string)
    requires l.run.state.RunCancelled? && !to.RunCancelled?
    ensures Route(l, to, reason, resultRef)
         == (l, Finished(DriveErr(ErrStore(ErrInvalidRunStateTransition(l.run.state, to)))))
  {
  }

  // Its failed record absorbs a failure; a success is absorbed by an earlier one, or refused.
  lemma CancelledPersist(l: Ledger, reply: Reply)
    requires l.run.state.RunCancelled? && Key(l.run.stage, l.run.stageAttempt, RecordFailed) in l.records
    ensures var (l', pc') := Persist(l, l.run.stage, reply);
            && l' == l
            && match Judge(l.run.stage, reply)
               case Accept(evidence) =>
                 pc' == if Key(l.run.stage, l.run.stageAttempt, RecordCompleted) in l.records
                        then Completed(l.run.stage, evidence) else Confirming
               case NeedsRepair(_, reason, _) => pc' == Rejected(reason)
               case Fatal(category, reason) => pc' == Faulted(l.run.stage, category, reason)
  {
    JudgedWell(l.run.stage, reply);
    hide Judge;
  }

  // ---- a failure that the row does not show ----

  // Compile and plan succeed, and ready loses its lease.
  function LosingTheLease(why: string): nat -> Reply {
    n => if n < 2 then Answer("", 0, true, FailureTest) else Failed(StageFault(FailureLeaseLost, why))
  }

  // An active run that no outcome is recorded for from this stage on.
  predicate Early(l: Ledger, stage: Stage) {
    && l.run.state.RunActive? && l.run.stage == stage
    && forall k :: k in l.records && k.status != RecordEntered ==> Rank(k.stage) > Rank(stage)
  }

  lemma EarlyStageAccepted(l: Ledger, answer: Reply)
    requires (Early(l, Compile) || Early(l, Plan)) && answer.Answer?
    ensures var (l', pc') := Iterate(l, Stop(false, ""), answer);
            pc'.Top? && Early(l', if l.run.stage == Compile then Plan else Ready)
  {
    hide Settle;
    SettlesAfter(l, l.run.stage, l.run.stageAttempt, answer);
    assert Key(l.run.stage, l.run.stageAttempt, RecordCompleted) !in l.records;
  }

  lemma ReadyLosesTheLease(l: Ledger, why: string)
    requires Early(l, Ready)
    ensures var (l', pc') := Iterate(l, Stop(false, ""), Failed(StageFault(FailureLeaseLost, why)));
            && pc'.Top? && l'.run.state.RunBlocked? && l'.run.stage == Ready
            && l'.run.stageAttempt == l.run.stageAttempt && ShowsFailure(l'.run, FailureLeaseLost, why)
            && Key(Ready, l'.run.stageAttempt, RecordFailed) in l'.records
  {
    hide Settle;
    SettlesAfter(l, Ready, l.run.stageAttempt, Failed(StageFault(FailureLeaseLost, why)));
    assert Key(Ready, l.run.stageAttempt, RecordFailed) !in l.records;
  }

  lemma LeaseIsLost(project: string, max: int, why: string)
    ensures var (l, result, _) := DriveLoop(CreateRun(None, project, max), Stop(false, ""), LosingTheLease(why), 0);
            && result == DriveOk && l.run.state.RunBlocked? && l.run.stage == Ready
            && ShowsFailure(l.run, FailureLeaseLost, why) && Key(Ready, l.run.stageAttempt, RecordFailed) in l.records
  {
    var off, answers := Stop(false, ""), LosingTheLease(why);
    var compiling := CreateRun(None, project, max);
    EarlyStageAccepted(compiling, answers(0));
    var planning := Iterate(compiling, off, answers(0)).0;
    EarlyStageAccepted(planning, answers(1));
    var readying := Iterate(planning, off, answers(1)).0;
    ReadyLosesTheLease(readying, why);
    var blocked := Iterate(readying, off, answers(2)).0;
    assert Iterate(blocked, off, answers(3)) == (blocked, Finished(DriveOk));
    hide Iterate, LiveBudget;
    assert DriveLoop(blocked, off, answers, 3).0 == blocked && DriveLoop(blocked, off, answers, 3).1 == DriveOk;
    assert DriveLoop(readying, off, answers, 2) == DriveLoop(blocked, off, answers, 3);
    assert DriveLoop(planning, off, answers, 1) == DriveLoop(readying, off, answers, 2);
  }

  // Resuming a run that is blocked at ready changes nothing but its state.
  lemma BlockedRunWakes(l: Ledger)
    requires l.run.state.RunBlocked? && l.run.stage == Ready
    ensures Resumed(l) == l.(run := l.run.(state := RunActive))
  {
  }

  lemma TopToRunning(s: System, reply: Reply)
    requires s.pc.Top? && s.ledger.run.state.RunActive? && !s.stop.on
    ensures var s' := Perform(s, Advances(2, reply));
            s'.ledger == s.ledger && s'.pc == Running(s.ledger.run.stage, s.ledger.run.stageAttempt)
  {
    var checked := Step(s, Advance(reply));
    var running := Step(checked, Advance(reply));
    PerformAdvance(s, 2, reply);
    PerformAdvance(checked, 1, reply);
    PerformAdvance(running, 0, reply);
  }

  lemma SecondFailureIsAbsorbed(s: System, reply: Reply)
    requires s.pc.Running? && s.pc.stage == s.ledger.run.stage && reply.Failed?
    requires Key(s.ledger.run.stage, s.ledger.run.stageAttempt, RecordFailed) in s.ledger.records
    ensures var s' := Perform(s, Advances(2, reply)); s'.ledger == s.ledger && s'.pc.Faulted?
  {
    JudgedWell(s.ledger.run.stage, reply);
    var returned := Step(s, Advance(reply));
    var faulted := Step(returned, Advance(reply));
    PerformAdvance(s, 2, reply);
    PerformAdvance(returned, 1, reply);
    PerformAdvance(faulted, 0, reply);
    hide Categorize;
  }

  /**
   A new run that loses its lease at ready is blocked there; restarted, its ready handler runs again at the same
   attempt, and however it fails this time, the ledger does not change: the row goes on showing the lost lease.
   */
  lemma LastFailureCanLose(project: string, max: int, why: string, reply: Reply) returns (actions: seq<Action>)
    requires reply.Failed?
    ensures var s := PipelineTheorems.History(project, max, Stop(false, ""), actions);
            && s.pc == Running(Ready, s.ledger.run.stageAttempt) && s.ledger.run.state.RunActive?
            && ShowsFailure(s.ledger.run, FailureLeaseLost, why)
            && var s' := Perform(s, Advances(2, reply)); s'.pc.Faulted? && s'.ledger == s.ledger
  {
    var begun := Begin(project, max, Stop(false, ""));
    BeginInv(project, max, begun.stop);
    var drive := DriveIsStepping(begun, LosingTheLease(why), 0);
    LeaseIsLost(project, max, why);
    PerformKeepsInv(begun, drive);
    var blocked := Perform(begun, drive);
    hide DriveLoop, Inv, Resumed, CreateRun, Perform;
    var restart := [Restart] + Advances(RecoveryStepsLeft(blocked.ledger, Reconciling), reply);
    RestartRecovers(blocked, reply);
    BlockedRunWakes(blocked.ledger);
    var woken := Perform(blocked, restart);
    StopIsKept(blocked, restart);
    TopToRunning(woken, reply);
    PerformSplits(begun, drive, restart);
    PerformSplits(begun, drive + restart, Advances(2, reply));
    actions := drive + restart + Advances(2, reply);
    SecondFailureIsAbsorbed(Perform(woken, Advances(2, reply)), reply);
  }

  lemma {:induction false} StopIsKept(s: System, actions: seq<Action>)
    requires forall a :: a in actions ==> !a.SetStop?
    ensures Perform(s, actions).stop == s.stop
    decreases |actions|
  {
    hide WorkerStep, EventOf, Cancel;
    if actions != [] {
      assert actions[0] in actions;
      StopIsKept(Step(s, actions[0]), actions[1..]);
    }
  }
}
