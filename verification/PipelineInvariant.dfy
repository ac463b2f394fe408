/** The invariant of the pipeline machine is kept by every action, so it holds after every run. */
module PipelineInvariant {
  import opened Stages
  import opened Ledgers
  import opened PipelineDriver
  import opened Recovery
  import opened PipelineMachine

  lemma DriverKeepsGate(s: System, reply: Reply)
    requires Inv(s) && !InRecovery(s.pc)
    ensures var (l, pc) := WorkerStep(s, reply); GateOk(l.run, pc, TallyOf(LogAfter(s, reply)).gate)
  {
    hide TallyOf, LogAfter, HistoryOk, LogOk, CountsOk, DriverStep, Judge;
    TallyAfter(s, reply);
    PcAtCursor(s.ledger, s.pc);
    DriverMoves(s.ledger, s.stop, s.pc, reply);
    DriverReturns(s.ledger, s.stop, s.pc, reply);
  }

  // Which program counters a driver step may reach, as far as the gates care.
  lemma DriverReturns(l: Ledger, stop: Stop, pc: Pc, reply: Reply)
    ensures var (_, pc') := DriverStep(l, stop, pc, reply);
            && (pc'.Returned? ==> (pc.Running? || pc.Deciding? || pc.Cancelling?) && pc'.stage == pc.stage)
            && (pc'.Returned? ==> if pc.Running? then pc' == Returned(pc.stage, reply)
                                  else pc'.reply.Failed?)
            && (pc'.Completed? ==> pc.Returned? && pc'.stage == pc.stage && Succeeds(pc.stage, pc.reply))
            && (pc.Running? ==> pc'.Returned?)
            && (pc.Checked? && pc'.Running? ==> pc' == Running(pc.stage, pc.attempt))
  {
    hide FinishStage, Move, Route, Cancel, Judge, Succeeds;
    if pc.Returned? {
      JudgementIsJust(pc.stage, pc.reply);
    }
  }

  lemma DriverKeepsCounts(s: System, reply: Reply)
    requires Inv(s) && !InRecovery(s.pc)
    ensures var (l, pc) := WorkerStep(s, reply); CountsOk(l.run, pc, TallyOf(LogAfter(s, reply)))
  {
    hide TallyOf, LogAfter, HistoryOk, LogOk, GateOk, DriverStep, CallsLeft;
    TallyAfter(s, reply);
    PcAtCursor(s.ledger, s.pc);
    DriverMoves(s.ledger, s.stop, s.pc, reply);
    StepsSpendBudget(s.ledger, s.stop, s.pc, reply);
    DriverSpendsRepairs(s.ledger, s.stop, s.pc, reply);
    DriverReturns(s.ledger, s.stop, s.pc, reply);
  }

  // A driver step takes a repair attempt exactly when it is granted one.
  lemma DriverSpendsRepairs(l: Ledger, stop: Stop, pc: Pc, reply: Reply)
    ensures var (l', pc') := DriverStep(l, stop, pc, reply);
            && l'.run.maxRepairAttempts == l.run.maxRepairAttempts
            && l'.run.repairAttempt == l.run.repairAttempt + (if pc.Rejected? && pc'.Granted? then 1 else 0)
            && (pc'.Granted? ==> pc.Rejected?)
  {
    hide Persist, Move, Route;
  }

  // What a recovery step may change of the row: the attempt, or out of a wait the stage, back to ready.
  lemma RecoveryMoves(s: System)
    requires Inv(s) && InRecovery(s.pc)
    ensures var (l', pc') := RecoverStep(s.ledger, s.stop, s.pc);
            && (InRecovery(pc') || pc'.Top? || pc'.Idle?)
            && l'.run.repairAttempt == s.ledger.run.repairAttempt
            && l'.run.maxRepairAttempts == s.ledger.run.maxRepairAttempts
            && (l'.run.stage == s.ledger.run.stage
                || (pc'.Top? && l'.run.stage == Ready && (s.ledger.run.stage == Execute || s.ledger.run.stage == Verify)))
  {
    hide LogOk, GateOk, CountsOk;
  }

  lemma RecoveryKeepsGateAndCounts(s: System, reply: Reply)
    requires Inv(s) && InRecovery(s.pc)
    ensures var (l, pc) := WorkerStep(s, reply);
            GateOk(l.run, pc, TallyOf(LogAfter(s, reply)).gate) && CountsOk(l.run, pc, TallyOf(LogAfter(s, reply)))
  {
    hide TallyOf, LogAfter, LogOk, RecoverStep, HistoryOk;
    TallyAfter(s, reply);
    RecoveryMoves(s);
  }

  // Records are never removed and logs only grow, so what a log says of earlier starts stays true.
  lemma WorkerKeepsLog(s: System, reply: Reply)
    requires Inv(s)
    ensures LogOk(WorkerStep(s, reply).0, LogAfter(s, reply))
  {
    var (l, pc) := WorkerStep(s, reply);
    var es := EventOf(s, reply, l, pc);
    var log := LogAfter(s, reply);
    WorkerKeepsEntries(s, reply);
    TallyAfter(s, reply);
    forall i | 0 <= i < |log| && log[i].Started?
      ensures HasEntry(l, log[i].stage, log[i].attempt)
      ensures log[i].stage == Finalize ==> TallyOf(log[..i]).gate == 2
    {
      if i < |s.log| {
        assert log[i] == s.log[i] && log[..i] == s.log[..i];
        assert HasEntry(s.ledger, log[i].stage, log[i].attempt);
      } else {
        assert log[..i] == s.log;
        assert s.pc.Checked? && es[0] == Started(s.pc.stage, s.pc.attempt);
      }
    }
  }

  lemma WorkerKeepsEntries(s: System, reply: Reply)
    ensures s.ledger.records.Keys <= WorkerStep(s, reply).0.records.Keys
  {
    hide Persist, Move, Route;
  }

  /** Every action keeps the invariant. */
  lemma StepKeepsInv(s: System, a: Action)
    requires Inv(s)
    ensures Inv(Step(s, a))
  {
    hide TallyOf, LogOk, HistoryOk, RowOk, PcOk, GateOk, CountsOk, DriverStep, RecoverStep;
    match a {
      case Advance(reply) =>
        WorkerKeepsLog(s, reply);
        TallyAfter(s, reply);
        if InRecovery(s.pc) {
          RecoveryKeepsState(s.ledger, s.stop, s.pc);
          RecoveryKeepsGateAndCounts(s, reply);
        } else {
          DriverKeepsState(s.ledger, s.stop, s.pc, reply);
          DriverKeepsGate(s, reply);
          DriverKeepsCounts(s, reply);
        }
      case CancelRun(reason) => CancelKeepsInv(s, reason);
      case Crash => DroppingTheWorkerKeepsInv(s, Idle);
      case Restart => DroppingTheWorkerKeepsInv(s, Reconciling);
      case Interrupt => if s.pc.Running? { InterruptKeepsInv(s); }
      case SetStop(_, _) =>
    }
  }

  lemma CancelKeepsInv(s: System, reason: string)
    requires Inv(s)
    ensures Inv(s.(ledger := Cancel(s.ledger, reason)))
  {
    hide TallyOf;
    CancelKeepsState(s.ledger, s.pc, reason);
  }

  lemma DroppingTheWorkerKeepsInv(s: System, pc: Pc)
    requires Inv(s) && (pc == Idle || pc == Reconciling)
    ensures Inv(s.(pc := pc))
  {
    hide TallyOf;
  }

  lemma InterruptKeepsInv(s: System)
    requires Inv(s) && s.pc.Running?
    ensures Inv(s.(pc := Deciding(s.pc.stage)))
  {
    hide TallyOf;
  }

  lemma {:induction false} PerformKeepsInv(s: System, actions: seq<Action>)
    requires Inv(s)
    ensures Inv(Perform(s, actions))
    decreases |actions|
  {
    if actions != [] {
      StepKeepsInv(s, actions[0]);
      PerformKeepsInv(Step(s, actions[0]), actions[1..]);
    }
  }

  lemma BeginInv(project: string, max: int, stop: Stop)
    ensures Inv(Begin(project, max, stop))
  {
  }
}
