/** The drive loop as it runs: a driver over a store, calling handlers and applying their routing. */
module DriverLoop {
  import opened Options
  import opened Stages
  import opened Ledgers
  import opened RunStore
  import opened PipelineDriver

  // The program counter an error (or its absence) leaves the loop at.
  function PcOf(err: Option<DriveError>): Pc {
    match err
    case None => Top
    case Some(ErrStore(ErrRunTerminal)) => Confirming
    case Some(e) => Finished(DriveErr(e))
  }

  function ErrorOf(out: Outcome): Option<DriveError> {
    if out.Done? then None else Some(ErrStore(out.error))
  }

  // The task's ledger went from where it was to where `Settle` takes it from `pc`; other tasks are untouched.
  ghost predicate Settled(before: Table, after: Table, task: TaskId, pc: Pc, reply: Reply, err: Option<DriveError>) {
    && task in before
    && after == before[task := Settle(before[task], pc, reply).0]
    && PcOf(err) == Settle(before[task], pc, reply).1
  }

  // One driver step of the task's ledger, the emergency stop no longer being read.
  function OneStep(before: Table, task: TaskId, pc: Pc, reply: Reply): (Ledger, Pc)
    requires task in before
  {
    DriverStep(before[task], Stop(false, ""), pc, reply)
  }

  // The iteration ends with this step.
  lemma SettlesAtOnce(before: Table, after: Table, task: TaskId, pc: Pc, reply: Reply, err: Option<DriveError>)
    requires task in before && StepsLeft(pc) > 0
    requires after == before[task := OneStep(before, task, pc, reply).0]
    requires PcOf(err) == OneStep(before, task, pc, reply).1
    ensures Settled(before, after, task, pc, reply, err)
  {
    var (l', pc') := OneStep(before, task, pc, reply);
    assert StepsLeft(pc') == 0;
    assert Settle(l', pc', reply) == (l', pc');
  }

  // The iteration goes on from where this step leaves it.
  lemma SettlesLater(before: Table, middle: Table, after: Table, task: TaskId, pc: Pc, reply: Reply, err: Option<DriveError>)
    requires task in before && StepsLeft(pc) > 0
    requires middle == before[task := OneStep(before, task, pc, reply).0]
    requires Settled(middle, after, task, OneStep(before, task, pc, reply).1, reply, err)
    ensures Settled(before, after, task, pc, reply, err)
  {
    hide DriverStep;
  }

  class Driver {
    const store: Store
    // What the n-th handler call returns.
    const answers: nat -> Reply
    var calls: nat

    constructor (store: Store, answers: nat -> Reply)
      ensures this.store == store && this.answers == answers && calls == 0
    {
      this.store := store;
      this.answers := answers;
      calls := 0;
    }

    method ChangeState(task: TaskId, to: RunState, reason: string, resultRef: string, ghost pc: Pc, ghost reply: Reply)
      returns (err: Option<DriveError>)
      requires task in store.ledgers
      requires StepsLeft(pc) > 0 && OneStep(store.ledgers, task, pc, reply) == Route(store.ledgers[task], to, reason, resultRef)
      modifies store`ledgers
      ensures Settled(old(store.ledgers), store.ledgers, task, pc, reply, err)
    {
      hide Settle, FinishStage, Ledgers.Transition, Ledgers.SetRunState;
      var out := store.SetRunState(task, to, reason, resultRef);
      err := ErrorOf(out);
      SettlesAtOnce(old(store.ledgers), store.ledgers, task, pc, reply, err);
    }

    method MoveCursor(task: TaskId, to: Stage, reason: string, ghost pc: Pc, ghost reply: Reply)
      returns (err: Option<DriveError>)
      requires task in store.ledgers
      requires StepsLeft(pc) > 0 && OneStep(store.ledgers, task, pc, reply) == Move(store.ledgers[task], to, reason)
      modifies store`ledgers
      ensures Settled(old(store.ledgers), store.ledgers, task, pc, reply, err)
    {
      hide Settle, FinishStage, Ledgers.Transition, Ledgers.SetRunState;
      var out := store.Transition(task, to, reason, "");
      err := ErrorOf(out);
      SettlesAtOnce(old(store.ledgers), store.ledgers, task, pc, reply, err);
    }

    // Routes a handler error whose failed record is durable.
    method RouteFault(task: TaskId, stage: Stage, category: FailureCategory, reason: string, ghost reply: Reply)
      returns (err: Option<DriveError>)
      requires task in store.ledgers
      modifies store`ledgers
      ensures Settled(old(store.ledgers), store.ledgers, task, Faulted(stage, category, reason), reply, err)
    {
      hide Settle, FinishStage, Ledgers.Transition, Ledgers.SetRunState;
      ghost var here := Faulted(stage, category, reason);
      assert store.ledgers == store.ledgers[task := store.ledgers[task]];
      var run := store.CurrentRun(task);
      if IsTerminalRunState(run.value.state) {
        err := Some(ErrStore(ErrRunTerminal));
        SettlesAtOnce(old(store.ledgers), store.ledgers, task, here, reply, err);
        return;
      }
      if category == FailureInterrupted {
        err := Some(ErrEmergencyStopped);
        SettlesAtOnce(old(store.ledgers), store.ledgers, task, here, reply, err);
        return;
      }
      var to := RunFailed;
      if (category == FailureQuotaExceeded || category == FailureRateLimited) && (stage == Execute || stage == Verify) {
        to := RunWaitingQuota;
      }
      if category == FailureLeaseLost && stage == Ready {
        to := RunBlocked;
      }
      err := ChangeState(task, to, reason, "", Routing(stage, category, reason), reply);
      SettlesLater(old(store.ledgers), old(store.ledgers), store.ledgers, task, here, reply, err);
    }

    method FailStage(task: TaskId, stage: Stage, category: FailureCategory, reason: string, ghost reply: Reply)
      returns (err: Option<DriveError>)
      requires task in store.ledgers
      requires IsValidFailureCategory(category) && Judge(stage, reply) == Fatal(category, reason)
      modifies store`ledgers
      ensures Settled(old(store.ledgers), store.ledgers, task, Returned(stage, reply), reply, err)
    {
      hide Settle, FinishStage, Ledgers.Transition, Ledgers.SetRunState;
      var out := store.FailStage(task, stage, category, reason, "");
      if out.Refused? {
        err := ErrorOf(out);
        SettlesAtOnce(old(store.ledgers), store.ledgers, task, Returned(stage, reply), reply, err);
        return;
      }
      ghost var middle := store.ledgers;
      err := RouteFault(task, stage, category, reason, reply);
      SettlesLater(old(store.ledgers), middle, store.ledgers, task, Returned(stage, reply), reply, err);
    }

    method EnterRepair(task: TaskId, reason: string, ghost reply: Reply) returns (err: Option<DriveError>)
      requires task in store.ledgers
      modifies store`ledgers
      ensures Settled(old(store.ledgers), store.ledgers, task, Rejected(reason), reply, err)
    {
      hide Settle, FinishStage, Ledgers.Transition, Ledgers.SetRunState;
      var grant := store.IncrementRepairAttempt(task);
      ghost var middle := store.ledgers;
      match grant {
        case RepairRefused(e) =>
          err := Some(ErrStore(e));
          SettlesAtOnce(old(store.ledgers), store.ledgers, task, Rejected(reason), reply, err);
        case RepairSpent(_) =>
          err := ChangeState(task, RunRepairExhausted, "repair budget exhausted: " + reason, "", Denied(reason), reply);
          SettlesLater(old(store.ledgers), middle, store.ledgers, task, Rejected(reason), reply, err);
        case RepairGranted(_) =>
          err := MoveCursor(task, Repair, reason, Granted(reason), reply);
          SettlesLater(old(store.ledgers), middle, store.ledgers, task, Rejected(reason), reply, err);
      }
    }

    // A failed record and a repair attempt: execute without changes, a failed verification, a rejected review.
    method Reject(task: TaskId, stage: Stage, category: FailureCategory, reason: string, evidence: string, ghost reply: Reply)
      returns (err: Option<DriveError>)
      requires task in store.ledgers
      requires IsValidFailureCategory(category) && Judge(stage, reply) == NeedsRepair(category, reason, evidence)
      modifies store`ledgers
      ensures Settled(old(store.ledgers), store.ledgers, task, Returned(stage, reply), reply, err)
    {
      hide Settle, FinishStage, Ledgers.Transition, Ledgers.SetRunState;
      var out := store.FailStage(task, stage, category, reason, evidence);
      if out.Refused? {
        err := ErrorOf(out);
        SettlesAtOnce(old(store.ledgers), store.ledgers, task, Returned(stage, reply), reply, err);
        return;
      }
      ghost var middle := store.ledgers;
      err := EnterRepair(task, reason, reply);
      SettlesLater(old(store.ledgers), middle, store.ledgers, task, Returned(stage, reply), reply, err);
    }

    // Moves on from a stage whose completed record is durable.
    method MoveOn(task: TaskId, stage: Stage, evidence: string, ghost reply: Reply) returns (err: Option<DriveError>)
      requires task in store.ledgers
      modifies store`ledgers
      ensures Settled(old(store.ledgers), store.ledgers, task, Completed(stage, evidence), reply, err)
    {
      hide Settle, FinishStage, Ledgers.Transition, Ledgers.SetRunState;
      ghost var here := Completed(stage, evidence);
      if stage == Finalize {
        err := ChangeState(task, RunCompleted, "", evidence, here, reply);
      } else if stage == Repair {
        // Verify runs again: bump the attempt first, so that its records get keys of their own.
        var out := store.IncrementStageAttempt(task);
        if out.Refused? {
          err := ErrorOf(out);
          SettlesAtOnce(old(store.ledgers), store.ledgers, task, here, reply, err);
          return;
        }
        ghost var middle := store.ledgers;
        err := MoveCursor(task, Verify, "repair applied; re-verify", Bumped, reply);
        SettlesLater(old(store.ledgers), middle, store.ledgers, task, here, reply, err);
      } else {
        err := MoveCursor(task, NextStage(stage), "", here, reply);
      }
    }

    method CompleteStage(task: TaskId, stage: Stage, evidence: string, ghost reply: Reply) returns (err: Option<DriveError>)
      requires task in store.ledgers
      requires Judge(stage, reply) == Accept(evidence)
      modifies store`ledgers
      ensures Settled(old(store.ledgers), store.ledgers, task, Returned(stage, reply), reply, err)
    {
      hide Settle, FinishStage, Ledgers.Transition, Ledgers.SetRunState;
      var out := store.CompleteStage(task, stage, evidence);
      if out.Refused? {
        err := ErrorOf(out);
        SettlesAtOnce(old(store.ledgers), store.ledgers, task, Returned(stage, reply), reply, err);
        return;
      }
      ghost var middle := store.ledgers;
      err := MoveOn(task, stage, evidence, reply);
      SettlesLater(old(store.ledgers), middle, store.ledgers, task, Returned(stage, reply), reply, err);
    }

    // Applies the routing of what the stage's handler returned.
    method RunStage(task: TaskId, stage: Stage, reply: Reply) returns (err: Option<DriveError>)
      requires task in store.ledgers
      modifies store`ledgers
      ensures Settled(old(store.ledgers), store.ledgers, task, Returned(stage, reply), reply, err)
    {
      hide Settle;
      if reply.Failed? {
        var (category, reason) := Categorize(reply.fault);
        err := FailStage(task, stage, category, reason, reply);
        return;
      }
      match stage {
        case Execute =>
          if reply.changedFiles < 0 {
            err := FailStage(task, stage, FailureInvariantViolation,
                             "execute handler returned negative changedFiles", reply);
            return;
          }
          if reply.changedFiles == 0 {
            err := Reject(task, stage, FailureNoCodeChanges, "execute produced no code changes", reply.evidence, reply);
            return;
          }
        case Verify =>
          if !reply.verdict {
            var category := reply.category;
            if !IsValidFailureCategory(category) {
              category := FailureInvariantViolation;
            }
            err := Reject(task, stage, category, "verification failed", reply.evidence, reply);
            return;
          }
        case Review =>
          if !reply.verdict {
            err := Reject(task, stage, FailureReviewRejection, "review rejected the changes", reply.evidence, reply);
            return;
          }
        case _ =>
      }
      err := CompleteStage(task, stage, reply.evidence, reply);
    }

    // One loop step: re-read the run, decide, call at most one handler and apply its routing.
    method Iterate(task: TaskId) returns (done: bool, err: Option<DriveError>)
      modifies store`ledgers, this`calls
      ensures task !in old(store.ledgers) ==>
                done && err == Some(ErrStore(ErrRunNotFound)) && store.ledgers == old(store.ledgers) && calls == old(calls)
      ensures task in old(store.ledgers) ==>
                && task in store.ledgers && store.ledgers == old(store.ledgers)[task := store.ledgers[task]]
                && (store.ledgers[task], if err == None && done then Finished(DriveOk) else PcOf(err))
                   == PipelineDriver.Iterate(old(store.ledgers[task]), Stop(store.stopped, store.stopReason), answers(old(calls)))
                && calls == old(calls) + if CallsHandler(old(store.ledgers[task]), store.stopped) then 1 else 0
    {
      hide Settle;
      var run := store.CurrentRun(task);
      if run.None? {
        return true, Some(ErrStore(ErrRunNotFound));
      }
      ghost var l := store.ledgers[task];
      if IsTerminalRunState(run.value.state) || IsWaitState(run.value.state) {
        return true, None;
      }
      var on, _ := store.EmergencyStop();
      if on {
        return true, Some(ErrEmergencyStopped);
      }
      var reply := answers(calls);
      calls := calls + 1;
      err := RunStage(task, run.value.stage, reply);
      done := false;
      HandlerReturns(l, reply);
    }

    /** The drive loop computes exactly `DriveLoop`, so it ends within the run's call budget. */
    method Drive(task: TaskId) returns (result: DriveResult)
      modifies store`ledgers, this`calls
      ensures task == "" || task !in old(store.ledgers) ==>
                && result == DriveErr(if task == "" then ErrTaskRequired else ErrStore(ErrRunNotFound))
                && store.ledgers == old(store.ledgers) && calls == old(calls)
      ensures task != "" && task in old(store.ledgers) ==>
                && (var (l, r, n) := DriveLoop(old(store.ledgers[task]), Stop(store.stopped, store.stopReason), answers, old(calls));
                    store.ledgers == old(store.ledgers)[task := l] && result == r && calls == n)
                && calls - old(calls) <= LiveBudget(old(store.ledgers[task].run))
    {
      hide PipelineDriver.Iterate, LiveBudget, CallsHandler;
      if task == "" {
        return DriveErr(ErrTaskRequired);
      }
      // Without a run the first iteration is the last.
      if task !in store.ledgers {
        var _, err := Iterate(task);
        return DriveErr(err.value);
      }
      ghost var stop := Stop(store.stopped, store.stopReason);
      DriveCallBound(store.ledgers[task], stop, answers, calls);
      while true
        invariant task in store.ledgers
        invariant store.ledgers == old(store.ledgers)[task := store.ledgers[task]]
        invariant stop == Stop(store.stopped, store.stopReason)
        invariant DriveLoop(store.ledgers[task], stop, answers, calls)
               == DriveLoop(old(store.ledgers[task]), stop, answers, old(calls))
        decreases LiveBudget(store.ledgers[task].run)
      {
        ghost var l, reply := store.ledgers[task], answers(calls);
        var done, err := Iterate(task);
        if err.Some? {
          if err.value == ErrStore(ErrRunTerminal) {
            var run := store.CurrentRun(task);
            if IsTerminalRunState(run.value.state) {
              return DriveOk;
            }
          }
          return DriveErr(err.value);
        }
        if done {
          return DriveOk;
        }
        IterationsSpendBudget(l, stop, reply);
      }
    }
  }

  lemma HandlerReturns(l: Ledger, reply: Reply)
    ensures Settle(l, Running(l.run.stage, l.run.stageAttempt), reply) == Settle(l, Returned(l.run.stage, reply), reply)
  {
  }
}
