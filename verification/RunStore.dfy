/** The durable store: one ledger a task, and the persisted emergency-stop flag. */
module RunStore {
  import opened Options
  import opened Stages
  import opened Ledgers

  type TaskId = string
  type Table = map<TaskId, Ledger>

  // What one transaction on one task does to the whole table.
  ghost predicate Applied(before: Table, after: Table, task: TaskId, out: Outcome, spec: Ledger -> (Ledger, Outcome)) {
    if task !in before then after == before && out == Refused(ErrRunNotFound)
    else after == before[task := spec(before[task]).0] && out == spec(before[task]).1
  }

  predicate Recoverable(l: Ledger) {
    l.run.state.RunActive? || l.run.state.RunWaitingQuota? || l.run.state.RunBlocked?
  }

  class Store {
    var ledgers: Table
    var stopped: bool
    var stopReason: string

    constructor ()
      ensures ledgers == map[] && !stopped && stopReason == ""
    {
      ledgers := map[];
      stopped := false;
      stopReason := "";
    }

    method CreateRun(task: TaskId, project: string, maxRepairAttempts: int) returns (run: Option<Run>)
      modifies this`ledgers
      ensures task == "" || project == "" ==> run == None && ledgers == old(ledgers)
      ensures task != "" && project != "" ==>
                && ledgers == old(ledgers)[task := Ledgers.CreateRun(
                                             if task in old(ledgers) then Some(old(ledgers)[task]) else None,
                                             project, maxRepairAttempts)]
                && run == Some(ledgers[task].run)
    {
      if task == "" || project == "" {
        return None;
      }
      var max := if maxRepairAttempts <= 0 then DEFAULT_MAX_REPAIR_ATTEMPTS else maxRepairAttempts;
      var records: History := map[];
      var row := Run(project, Compile, RunActive, 1, 0, max, None, "", "");
      if task in ledgers {
        row := ledgers[task].run;
        records := ledgers[task].records;
      }
      var k := Key(Compile, 1, RecordEntered);
      if k !in records {
        records := records[k := Record(true, None, "", "")];
      }
      ledgers := ledgers[task := Ledger(row, records)];
      run := Some(row);
    }

    method CurrentRun(task: TaskId) returns (run: Option<Run>)
      ensures run == if task in ledgers then Some(ledgers[task].run) else None
    {
      run := if task in ledgers then Some(ledgers[task].run) else None;
    }

    method ListActiveRuns() returns (tasks: set<TaskId>)
      ensures tasks == set t | t in ledgers && !Terminal(ledgers[t])
    {
      tasks := set t | t in ledgers && Recoverable(ledgers[t]);
    }

    method Transition(task: TaskId, to: Stage, reason: string, evidence: string) returns (out: Outcome)
      modifies this`ledgers
      ensures Applied(old(ledgers), ledgers, task, out, l => Ledgers.Transition(l, to, reason, evidence))
    {
      if task !in ledgers {
        return Refused(ErrRunNotFound);
      }
      var run := ledgers[task].run;
      if run.stage != to {
        if !CanTransitionStage(run.state, run.stage, to) {
          return Refused(ErrInvalidTransition(run.state, run.stage, to));
        }
        var state := run.state;
        if IsWaitState(run.state) {
          state := RunActive;
        }
        ledgers := ledgers[task := ledgers[task].(run := run.(stage := to, state := state))];
      }
      var k := Key(to, run.stageAttempt, RecordEntered);
      var records := ledgers[task].records;
      if k !in records {
        records := records[k := Record(true, None, reason, evidence)];
      }
      ledgers := ledgers[task := ledgers[task].(records := records)];
      out := Done;
    }

    method FinishStage(task: TaskId, stage: Stage, status: RecordStatus, category: Option<FailureCategory>,
                       reason: string, evidence: string) returns (out: Outcome)
      requires status == RecordFailed ==> category.Some?
      modifies this`ledgers
      ensures Applied(old(ledgers), ledgers, task, out,
                      l => Ledgers.FinishStage(l, stage, status, category, reason, evidence))
    {
      if task !in ledgers {
        return Refused(ErrRunNotFound);
      }
      var run, records := ledgers[task].run, ledgers[task].records;
      var k := Key(stage, run.stageAttempt, status);
      if run.stage != stage && k !in records {
        return Refused(ErrInvalidTransition(run.state, run.stage, stage));
      }
      if k in records {
        assert ledgers == ledgers[task := ledgers[task]];
        return Done;
      }
      if IsTerminalRunState(run.state) {
        return Refused(ErrRunTerminal);
      }
      var entry := Key(stage, run.stageAttempt, RecordEntered);
      if entry in records {
        records := records[entry := records[entry].(open := false)];
      }
      records := records[k := Record(false, category, reason, evidence)];
      if status == RecordFailed {
        run := run.(failure := category, reason := reason);
      }
      ledgers := ledgers[task := Ledger(run, records)];
      out := Done;
    }

    method CompleteStage(task: TaskId, stage: Stage, evidence: string) returns (out: Outcome)
      modifies this`ledgers
      ensures Applied(old(ledgers), ledgers, task, out, l => Ledgers.CompleteStage(l, stage, evidence))
    {
      out := FinishStage(task, stage, RecordCompleted, None, "", evidence);
    }

    method FailStage(task: TaskId, stage: Stage, category: FailureCategory, reason: string, evidence: string)
      returns (out: Outcome)
      modifies this`ledgers
      ensures !IsValidFailureCategory(category) ==> out == Refused(ErrUnknownCategory) && ledgers == old(ledgers)
      ensures IsValidFailureCategory(category) ==>
                Applied(old(ledgers), ledgers, task, out, l => Ledgers.FailStage(l, stage, category, reason, evidence))
    {
      if !IsValidFailureCategory(category) {
        return Refused(ErrUnknownCategory);
      }
      out := FinishStage(task, stage, RecordFailed, Some(category), reason, evidence);
    }

    method IncrementStageAttempt(task: TaskId) returns (out: Outcome)
      modifies this`ledgers
      ensures Applied(old(ledgers), ledgers, task, out, l => Ledgers.IncrementStageAttempt(l))
    {
      if task !in ledgers {
        return Refused(ErrRunNotFound);
      }
      var run := ledgers[task].run;
      if IsTerminalRunState(run.state) {
        return Refused(ErrRunTerminal);
      }
      ledgers := ledgers[task := ledgers[task].(run := run.(stageAttempt := run.stageAttempt + 1))];
      out := Done;
    }

    method IncrementRepairAttempt(task: TaskId) returns (grant: RepairGrant)
      modifies this`ledgers
      ensures task !in old(ledgers) ==> grant == RepairRefused(ErrRunNotFound) && ledgers == old(ledgers)
      ensures task in old(ledgers) ==>
                var spec := Ledgers.IncrementRepairAttempt(old(ledgers)[task]);
                ledgers == old(ledgers)[task := spec.0] && grant == spec.1
    {
      if task !in ledgers {
        return RepairRefused(ErrRunNotFound);
      }
      var run := ledgers[task].run;
      if IsTerminalRunState(run.state) {
        return RepairRefused(ErrRunTerminal);
      }
      if run.repairAttempt >= run.maxRepairAttempts {
        return RepairSpent(run.repairAttempt);
      }
      ledgers := ledgers[task := ledgers[task].(run := run.(repairAttempt := run.repairAttempt + 1))];
      grant := RepairGranted(run.repairAttempt + 1);
    }

    method MarkInterrupted(task: TaskId, reason: string) returns (out: Outcome)
      modifies this`ledgers
      ensures Applied(old(ledgers), ledgers, task, out, l => (Ledgers.MarkInterrupted(l, reason), Done))
    {
      if task !in ledgers {
        return Refused(ErrRunNotFound);
      }
      var why := if reason == "" then "run interrupted" else reason;
      var run, records := ledgers[task].run, ledgers[task].records;
      if !IsTerminalRunState(run.state) {
        var entry := Key(run.stage, run.stageAttempt, RecordEntered);
        if entry in records {
          records := records[entry := records[entry].(open := false)];
        }
        var failed := Key(run.stage, run.stageAttempt, RecordFailed);
        if failed !in records {
          records := records[failed := Record(false, Some(FailureInterrupted), why, "")];
        }
      }
      ledgers := ledgers[task := Ledger(run, records)];
      out := Done;
    }

    method SetRunState(task: TaskId, to: RunState, reason: string, resultRef: string) returns (out: Outcome)
      modifies this`ledgers
      ensures Applied(old(ledgers), ledgers, task, out, l => Ledgers.SetRunState(l, to, reason, resultRef))
    {
      if task !in ledgers {
        return Refused(ErrRunNotFound);
      }
      var run := ledgers[task].run;
      if run.state == to {
        assert ledgers == ledgers[task := ledgers[task]];
        return Done;
      }
      if !CanTransitionRunState(run.state, to) {
        return Refused(ErrInvalidRunStateTransition(run.state, to));
      }
      if to == RunWaitingQuota && run.stage != Execute && run.stage != Verify {
        return Refused(ErrStateRestricted(to, run.stage));
      }
      if to == RunCompleted && run.stage != Finalize {
        return Refused(ErrStateRestricted(to, run.stage));
      }
      var moved := run.(state := to);
      match to {
        case RunFailed | RunCancelled | RunRepairExhausted =>
          if reason != "" {
            var category := if to == RunCancelled then Some(FailureCancelled) else run.failure;
            moved := moved.(failure := category, reason := reason);
          }
        case RunCompleted =>
          if resultRef != "" {
            moved := moved.(resultRef := resultRef);
          }
        case _ =>
      }
      ledgers := ledgers[task := ledgers[task].(run := moved)];
      out := Done;
    }

    method Cancel(task: TaskId, reason: string) returns (out: Outcome)
      modifies this`ledgers
      ensures Applied(old(ledgers), ledgers, task, out, l => (Ledgers.Cancel(l, reason), Done))
    {
      if task !in ledgers {
        return Refused(ErrRunNotFound);
      }
      var why := if reason == "" then "cancelled" else reason;
      var run, records := ledgers[task].run, ledgers[task].records;
      if !IsTerminalRunState(run.state) {
        var entry := Key(run.stage, run.stageAttempt, RecordEntered);
        if entry in records {
          records := records[entry := records[entry].(open := false)];
        }
        var failed := Key(run.stage, run.stageAttempt, RecordFailed);
        if failed !in records {
          records := records[failed := Record(false, Some(FailureCancelled), why, "")];
        }
        run := run.(state := RunCancelled, failure := Some(FailureCancelled), reason := why);
      }
      ledgers := ledgers[task := Ledger(run, records)];
      out := Done;
    }

    method SetEmergencyStop(on: bool, reason: string)
      modifies this`stopped, this`stopReason
      ensures stopped == on && stopReason == if on then reason else ""
    {
      stopped := on;
      stopReason := reason;
      if !on {
        stopReason := "";
      }
    }

    method EmergencyStop() returns (on: bool, reason: string)
      ensures on == stopped && reason == if stopped then stopReason else ""
    {
      if !stopped {
        return false, "";
      }
      return true, stopReason;
    }
  }
}
