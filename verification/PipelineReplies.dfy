/** What one loop iteration does with each reply a handler may give, told by the stage and the reply alone. */
module PipelineReplies {
  import opened Options
  import opened Stages
  import opened Ledgers
  import opened RunStore
  import opened PipelineDriver

  const OFF := Stop(false, "")

  // ---- an iteration, step by step ----

  // An iteration that is over two steps after the handler returned, and one that takes three.
  lemma SettlesAfter(l: Ledger, stage: Stage, attempt: nat, reply: Reply)
    ensures var (l1, pc1) := DriverStep(l, OFF, Returned(stage, reply), reply);
            var (l2, pc2) := DriverStep(l1, OFF, pc1, reply);
            var (l3, pc3) := DriverStep(l2, OFF, pc2, reply);
            && (StepsLeft(pc1) > 0 && StepsLeft(pc2) == 0 ==> Settle(l, Running(stage, attempt), reply) == (l2, pc2))
            && (StepsLeft(pc1) > 0 && StepsLeft(pc2) > 0 && StepsLeft(pc3) == 0 ==>
                  Settle(l, Running(stage, attempt), reply) == (l3, pc3))
  {
    assert DriverStep(l, OFF, Running(stage, attempt), reply) == (l, Returned(stage, reply));
    hide DriverStep;
    SettleOnce(l, Running(stage, attempt), reply);
    assert Settle(l, Running(stage, attempt), reply) == Settle(l, Returned(stage, reply), reply);
    var (l1, pc1) := DriverStep(l, OFF, Returned(stage, reply), reply);
    SettleOnce(l, Returned(stage, reply), reply);
    var (l2, pc2) := DriverStep(l1, OFF, pc1, reply);
    var (l3, pc3) := DriverStep(l2, OFF, pc2, reply);
    SettleOnce(l1, pc1, reply);
    SettleOnce(l2, pc2, reply);
    SettleOnce(l3, pc3, reply);
  }

  lemma SettleOnce(l: Ledger, pc: Pc, reply: Reply)
    ensures StepsLeft(pc) > 0 ==>
              var (l', pc') := DriverStep(l, OFF, pc, reply); Settle(l, pc, reply) == Settle(l', pc', reply)
    ensures StepsLeft(pc) == 0 ==> Settle(l, pc, reply) == (l, pc)
  {
    hide DriverStep;
  }

  // ---- what is recorded ----

  function Cursor(r: Run, status: RecordStatus): Key {
    Key(r.stage, r.stageAttempt, status)
  }

  // ---- the handler succeeded ----

  /**
   The stage is on record as completed with the handler's evidence. Finalize completes the run with that evidence as its
   result; repair leads to verify at a new attempt; any other stage to the next one. The new stage is on record.
   */
  lemma SuccessMovesOn(l: Ledger, reply: Reply)
    requires l.run.state.RunActive? && Succeeds(l.run.stage, reply)
    ensures var (l', pc') := Iterate(l, OFF, reply);
            && pc'.Top?
            && Stands(l.records, l'.records, Cursor(l.run, RecordCompleted), Record(false, None, "", reply.evidence))
            && (if l.run.stage == Finalize then
                  l'.run == l.run.(state := RunCompleted,
                                   resultRef := if reply.evidence != "" then reply.evidence else l.run.resultRef)
                else
                  && Cursor(l'.run, RecordEntered) in l'.records
                  && if l.run.stage == Repair then
                       l'.run == l.run.(stage := Verify, stageAttempt := l.run.stageAttempt + 1)
                     else
                       && l'.run == l.run.(stage := l'.run.stage)
                       && l'.run.stage != Repair && Place(l'.run.stage) == Place(l.run.stage) + 1)
  {
    CompletionIsRecorded(l, reply.evidence);
    SuccessSettles(l, reply);
    CompletedRunsMoveOn(CompleteStage(l, l.run.stage, reply.evidence).0, reply.evidence);
    hide CompleteStage, Judge, Succeeds, Proceed, Move, Iterate, Place;
  }

  lemma SuccessSettles(l: Ledger, reply: Reply)
    requires l.run.state.RunActive? && Succeeds(l.run.stage, reply)
    ensures var completed := CompleteStage(l, l.run.stage, reply.evidence).0;
            var (next, pc) := Proceed(completed, l.run.stage, reply.evidence);
            Iterate(l, OFF, reply)
            == if l.run.stage == Repair then Move(next, Verify, "repair applied; re-verify") else (next, pc)
  {
    JudgementIsJust(l.run.stage, reply);
    CompletionIsRecorded(l, reply.evidence);
    hide CompleteStage, Judge, Succeeds, Proceed, Move, Route, Stands;
    var stage := l.run.stage;
    var completed := CompleteStage(l, stage, reply.evidence).0;
    assert DriverStep(l, OFF, Returned(stage, reply), reply) == (completed, Completed(stage, reply.evidence));
    assert DriverStep(completed, OFF, Completed(stage, reply.evidence), reply) == Proceed(completed, stage, reply.evidence);
    var (next, pc) := Proceed(completed, stage, reply.evidence);
    assert pc.Bumped? ==> DriverStep(next, OFF, pc, reply) == Move(next, Verify, "repair applied; re-verify");
    CompletedRunsMoveOn(completed, reply.evidence);
    hide DriverStep;
    SettlesAfter(l, stage, l.run.stageAttempt, reply);
    hide Settle, Place;
  }

  lemma CompletionIsRecorded(l: Ledger, evidence: string)
    requires l.run.state.RunActive?
    ensures var (l', out) := CompleteStage(l, l.run.stage, evidence);
            && out.Done? && l'.run == l.run
            && Stands(l.records, l'.records, Cursor(l.run, RecordCompleted), Record(false, None, "", evidence))
  {
  }

  lemma CompletedRunsMoveOn(l: Ledger, evidence: string)
    requires l.run.state.RunActive?
    ensures var (l1, pc1) := Proceed(l, l.run.stage, evidence);
            if l.run.stage == Repair then
              var (l2, pc2) := Move(l1, Verify, "repair applied; re-verify");
              && pc1.Bumped? && pc2.Top?
              && l2.run == l.run.(stage := Verify, stageAttempt := l.run.stageAttempt + 1)
              && Cursor(l2.run, RecordEntered) in l2.records
              && forall k :: k in l.records ==> k in l2.records && l2.records[k] == l.records[k]
            else
              && pc1.Top?
              && (forall k :: k in l.records ==> k in l1.records && l1.records[k] == l.records[k])
              && if l.run.stage == Finalize then
                   l1.run == l.run.(state := RunCompleted, resultRef := if evidence != "" then evidence else l.run.resultRef)
                 else
                   && l1.run == l.run.(stage := l1.run.stage) && Cursor(l1.run, RecordEntered) in l1.records
                   && l1.run.stage != Repair && Place(l1.run.stage) == Place(l.run.stage) + 1
  {
  }

  // ---- the handler declined ----

  function DeclineCategory(stage: Stage, reply: Reply): FailureCategory
    requires Declines(stage, reply)
  {
    if stage == Execute then FailureNoCodeChanges
    else if stage == Review then FailureReviewRejection
    else if IsValidFailureCategory(reply.category) then reply.category
    else FailureInvariantViolation
  }

  // The row once a failure is recorded: it shows it, unless the attempt had failed before.
  function FailedRow(l: Ledger, category: FailureCategory, reason: string): Run {
    if Cursor(l.run, RecordFailed) in l.records then l.run else l.run.(failure := Some(category), reason := reason)
  }

  /**
   No changes, failed tests or a rejected review: the stage is on record as failed, and a repair attempt is taken if one
   is left, with repair on record at this attempt; otherwise the run ends repair_exhausted where it is.
   */
  lemma DeclineLeadsToRepair(l: Ledger, reply: Reply) returns (why: string)
    requires l.run.state.RunActive? && Declines(l.run.stage, reply)
    ensures var (l', pc') := Iterate(l, OFF, reply);
            var category := DeclineCategory(l.run.stage, reply);
            var row := FailedRow(l, category, why);
            && pc'.Top?
            && Stands(l.records, l'.records, Cursor(l.run, RecordFailed), Record(false, Some(category), why, reply.evidence))
            && (if l.run.repairAttempt < l.run.maxRepairAttempts then
                  && l'.run == row.(stage := Repair, repairAttempt := l.run.repairAttempt + 1)
                  && Cursor(l'.run, RecordEntered) in l'.records
                else
                  l'.run == row.(state := RunRepairExhausted, reason := "repair budget exhausted: " + why))
  {
    why := Judge(l.run.stage, reply).reason;
    DeclineIsJudged(l.run.stage, reply);
    var category := DeclineCategory(l.run.stage, reply);
    FailureIsRecorded(l, category, why, reply.evidence);
    DeclineSettles(l, reply, category, why);
    RepairIsAsked(FailStage(l, l.run.stage, category, why, reply.evidence).0, why);
    hide Judge, DeclineCategory, FailStage, AskRepair, Move, Route, FailedRow, Iterate, Declines;
  }

  lemma DeclineSettles(l: Ledger, reply: Reply, category: FailureCategory, why: string)
    requires l.run.state.RunActive? && IsValidFailureCategory(category) && Declines(l.run.stage, reply)
    requires Judge(l.run.stage, reply) == NeedsRepair(category, why, reply.evidence)
    ensures var failed := FailStage(l, l.run.stage, category, why, reply.evidence).0;
            Iterate(l, OFF, reply)
            == if l.run.repairAttempt < l.run.maxRepairAttempts then Move(AskRepair(failed, why).0, Repair, why)
               else Route(AskRepair(failed, why).0, RunRepairExhausted, "repair budget exhausted: " + why, "")
  {
    hide FailStage, AskRepair, Move, Route, Stands, Judge;
    FailureIsRecorded(l, category, why, reply.evidence);
    var failed := FailStage(l, l.run.stage, category, why, reply.evidence).0;
    assert DriverStep(l, OFF, Returned(l.run.stage, reply), reply) == (failed, Rejected(why));
    assert failed.run.state.RunActive? && failed.run.stage == l.run.stage;
    RepairIsAsked(failed, why);
    var (asked, pc) := AskRepair(failed, why);
    assert DriverStep(failed, OFF, Rejected(why), reply) == (asked, pc);
    GrantedOrDenied(asked, pc, why, reply);
    hide DriverStep;
    SettlesAfter(l, l.run.stage, l.run.stageAttempt, reply);
    hide Settle, SetRunState;
  }

  lemma GrantedOrDenied(l: Ledger, pc: Pc, why: string, reply: Reply)
    ensures pc == Granted(why) ==> DriverStep(l, OFF, pc, reply) == Move(l, Repair, why)
    ensures pc == Denied(why) ==>
              DriverStep(l, OFF, pc, reply) == Route(l, RunRepairExhausted, "repair budget exhausted: " + why, "")
  {
    hide Move, Route;
  }

  lemma DeclineIsJudged(stage: Stage, reply: Reply)
    requires Declines(stage, reply)
    ensures var j := Judge(stage, reply); j.NeedsRepair? && j == NeedsRepair(DeclineCategory(stage, reply), j.reason, reply.evidence)
    ensures IsValidFailureCategory(DeclineCategory(stage, reply))
  {
  }

  lemma FailureIsRecorded(l: Ledger, category: FailureCategory, reason: string, evidence: string)
    requires l.run.state.RunActive? && IsValidFailureCategory(category)
    ensures var (l', out) := FailStage(l, l.run.stage, category, reason, evidence);
            && out.Done? && l'.run == FailedRow(l, category, reason)
            && Stands(l.records, l'.records, Cursor(l.run, RecordFailed), Record(false, Some(category), reason, evidence))
  {
  }

  // Asking for a repair, and then moving there or giving up.
  lemma RepairIsAsked(l: Ledger, why: string)
    requires l.run.state.RunActive? && (l.run.stage == Execute || l.run.stage == Verify || l.run.stage == Review)
    ensures var (l1, pc1) := AskRepair(l, why);
            if l.run.repairAttempt < l.run.maxRepairAttempts then
              var (l2, pc2) := Move(l1, Repair, why);
              && pc1 == Granted(why) && pc2 == Top
              && l2.run == l.run.(stage := Repair, repairAttempt := l.run.repairAttempt + 1)
              && Cursor(l2.run, RecordEntered) in l2.records
              && forall k :: k in l.records ==> k in l2.records && l2.records[k] == l.records[k]
            else
              var (l2, pc2) := Route(l1, RunRepairExhausted, "repair budget exhausted: " + why, "");
              && pc1 == Denied(why) && pc2 == Top && l2.records == l.records
              && l2.run == l.run.(state := RunRepairExhausted, reason := "repair budget exhausted: " + why)
  {
  }

  // ---- the handler broke ----

  predicate Breaks(stage: Stage, reply: Reply) {
    reply.Failed? || (stage == Execute && reply.changedFiles < 0)
  }

  function BreakCategory(reply: Reply): FailureCategory {
    if reply.Failed? && reply.fault.StageFault? && IsValidFailureCategory(reply.fault.category) then reply.fault.category
    else FailureInvariantViolation
  }

  function BreakReason(reply: Reply): string {
    match reply
    case Failed(StageFault(_, reason)) => reason
    case Failed(PlainFault(text)) => text
    case _ => "execute handler returned negative changedFiles"
  }

  // Whether a failure leaves the run waiting, and how.
  function WaitsAs(stage: Stage, category: FailureCategory): Option<RunState> {
    if (stage == Execute || stage == Verify) && category in {FailureQuotaExceeded, FailureRateLimited} then
      Some(RunWaitingQuota)
    else if stage == Ready && category == FailureLeaseLost then Some(RunBlocked)
    else None
  }

  /**
   An error: the stage is on record as failed. An interruption parks the run as it is and ends the drive; quota and rate
   limits at execute and verify wait, and so does a lost lease at ready; anything else fails the run.
   */
  lemma BreakRoutesTheRun(l: Ledger, reply: Reply)
    requires l.run.state.RunActive? && Breaks(l.run.stage, reply)
    ensures var (l', pc') := Iterate(l, OFF, reply);
            var category, reason := BreakCategory(reply), BreakReason(reply);
            var row := FailedRow(l, category, reason);
            && Stands(l.records, l'.records, Cursor(l.run, RecordFailed), Record(false, Some(category), reason, ""))
            && (if category == FailureInterrupted then
                  pc' == Finished(DriveErr(ErrEmergencyStopped)) && l'.run == row
                else
                  && pc'.Top?
                  && match WaitsAs(l.run.stage, category)
                     case Some(state) => l'.run == row.(state := state)
                     case None =>
                       l'.run == row.(state := RunFailed, reason := if reason != "" then reason else row.reason))
  {
    SettlesAfter(l, l.run.stage, l.run.stageAttempt, reply);
    BreakIsJudged(l.run.stage, reply);
    var category, reason := BreakCategory(reply), BreakReason(reply);
    FailureIsRecorded(l, category, reason, "");
    hide Settle, Judge, BreakCategory, BreakReason, FailStage;
    var failed := FailStage(l, l.run.stage, category, reason, "").0;
    if category != FailureInterrupted {
      FaultIsRouted(failed, category, reason);
    }
    hide Route, RouteState, WaitsAs;
  }

  lemma BreakIsJudged(stage: Stage, reply: Reply)
    requires Breaks(stage, reply)
    ensures Judge(stage, reply) == Fatal(BreakCategory(reply), BreakReason(reply))
    ensures IsValidFailureCategory(BreakCategory(reply))
  {
  }

  lemma FaultIsRouted(l: Ledger, category: FailureCategory, reason: string)
    requires l.run.state.RunActive?
    ensures var (l', pc') := Route(l, RouteState(l.run.stage, category), reason, "");
            && pc'.Top? && l'.records == l.records
            && l'.run == match WaitsAs(l.run.stage, category)
                         case Some(state) => l.run.(state := state)
                         case None => l.run.(state := RunFailed, reason := if reason != "" then reason else l.run.reason)
  {
  }

  /** Every reply is one of the three. */
  lemma EveryReplyIsTold(stage: Stage, reply: Reply)
    ensures Succeeds(stage, reply) || Declines(stage, reply) || Breaks(stage, reply)
    ensures !(Succeeds(stage, reply) && Declines(stage, reply))
    ensures Breaks(stage, reply) ==> !Succeeds(stage, reply) && !Declines(stage, reply)
  {
  }

  // ---- a drive whose handlers all succeed ----

  // The n-th call from here on succeeds at the stage that is its turn.
  ghost predicate AllSucceed(from: nat, answers: nat -> Reply, calls: nat) {
    forall stage :: stage != Repair && Place(stage) >= from ==> Succeeds(stage, answers(calls + Place(stage) - from))
  }

  /** It completes the run, after one call a stage, with the evidence of its finalize handler as the result. */
  lemma {:induction false} SuccessCompletesTheRun(l: Ledger, answers: nat -> Reply, calls: nat)
    requires l.run.state.RunActive? && l.run.stage != Repair && AllSucceed(Place(l.run.stage), answers, calls)
    ensures var (l', result, n) := DriveLoop(l, OFF, answers, calls);
            var last := answers(calls + 6 - Place(l.run.stage));
            && result == DriveOk && n == calls + 7 - Place(l.run.stage)
            && last.Answer?
            && l'.run == l.run.(stage := Finalize, state := RunCompleted,
                                resultRef := if last.evidence != "" then last.evidence else l.run.resultRef)
    decreases 6 - Place(l.run.stage)
  {
    hide Iterate, DriveLoop, Succeeds;
    assert Succeeds(Finalize, answers(calls + Place(Finalize) - Place(l.run.stage)));
    assert answers(calls + 6 - Place(l.run.stage)).Answer? by {
      SuccessIsAnAnswer(Finalize, answers(calls + 6 - Place(l.run.stage)));
    }
    var reply := answers(calls);
    assert Succeeds(l.run.stage, answers(calls + Place(l.run.stage) - Place(l.run.stage)));
    SuccessMovesOn(l, reply);
    var l' := Iterate(l, OFF, reply).0;
    DriveGoesOn(l, answers, calls);
    if l.run.stage == Finalize {
      CompletedRunsStop(l', answers, calls + 1);
    } else {
      RestSucceeds(Place(l.run.stage), answers, calls);
      hide AllSucceed, Place;
      SuccessCompletesTheRun(l', answers, calls + 1);
    }
  }

  lemma RestSucceeds(from: nat, answers: nat -> Reply, calls: nat)
    requires AllSucceed(from, answers, calls)
    ensures AllSucceed(from + 1, answers, calls + 1)
  {
    forall stage | stage != Repair && Place(stage) >= from + 1
      ensures Succeeds(stage, answers(calls + 1 + Place(stage) - (from + 1)))
    {
      assert calls + 1 + Place(stage) - (from + 1) == calls + Place(stage) - from;
    }
  }

  lemma SuccessIsAnAnswer(stage: Stage, reply: Reply)
    requires Succeeds(stage, reply)
    ensures reply.Answer?
  {
  }

  lemma DriveGoesOn(l: Ledger, answers: nat -> Reply, calls: nat)
    requires l.run.state.RunActive? && Iterate(l, OFF, answers(calls)).1.Top?
    ensures DriveLoop(l, OFF, answers, calls) == DriveLoop(Iterate(l, OFF, answers(calls)).0, OFF, answers, calls + 1)
  {
    hide Iterate;
  }

  lemma CompletedRunsStop(l: Ledger, answers: nat -> Reply, calls: nat)
    requires l.run.state.RunCompleted?
    ensures DriveLoop(l, OFF, answers, calls) == (l, DriveOk, calls)
  {
  }
}
