/** What each store transaction does, told by what it refuses, what it leaves, and what then stands in row and history. */
module Transactions {
  import opened Options
  import opened Stages
  import opened Ledgers

  function At(r: Run, status: RecordStatus): Key {
    Key(r.stage, r.stageAttempt, status)
  }

  // The entry under the cursor is closed, if there is one.
  predicate Closed(l: Ledger, after: History) {
    var entry := At(l.run, RecordEntered);
    entry in l.records ==> entry in after && after[entry] == l.records[entry].(open := false)
  }

  lemma Creation(project: string, max: int, l: Ledger)
    ensures var made := CreateRun(None, project, max);
            && made.run.project == project && made.run.stage == Compile && made.run.state.RunActive?
            && made.run.stageAttempt == 1 && made.run.repairAttempt == 0
            && made.run.maxRepairAttempts == (if max > 0 then max else 3)
            && made.run.failure.None? && made.run.reason == "" && made.run.resultRef == ""
            && made.records == map[Key(Compile, 1, RecordEntered) := Record(true, None, "", "")]
    ensures var again := CreateRun(Some(l), project, max);
            && again.run == l.run
            && Stands(l.records, again.records, Key(Compile, 1, RecordEntered), Record(true, None, "", ""))
            && OnlyAt(l.records, again.records, {Key(Compile, 1, RecordEntered)})
  {
  }

  /** A move to where the cursor is, or along the rules, puts the cursor there, wakes a waiting run and enters the stage. */
  lemma Moving(l: Ledger, to: Stage, reason: string, evidence: string)
    ensures var (l', out) := Transition(l, to, reason, evidence);
            var entry := Key(to, l.run.stageAttempt, RecordEntered);
            if to != l.run.stage && !CanTransitionStage(l.run.state, l.run.stage, to) then
              l' == l && out == Refused(ErrInvalidTransition(l.run.state, l.run.stage, to))
            else
              && out.Done?
              && l'.run == l.run.(stage := to,
                                  state := if to != l.run.stage && l.run.state != RunActive then RunActive else l.run.state)
              && Stands(l.records, l'.records, entry, Record(true, None, reason, evidence))
              && OnlyAt(l.records, l'.records, {entry})
  {
  }

  /**
   An outcome already on record is accepted as it stands. A new one is refused for another stage, then for a run that
   has ended; otherwise it closes the entry, is put on record, and a failure is shown on the row.
   */
  lemma Finishing(l: Ledger, stage: Stage, category: FailureCategory, reason: string, evidence: string, failed: bool)
    requires IsValidFailureCategory(category)
    ensures var status := if failed then RecordFailed else RecordCompleted;
            var (l', out) := if failed then FailStage(l, stage, category, reason, evidence) else CompleteStage(l, stage, evidence);
            var k := Key(stage, l.run.stageAttempt, status);
            && (out.Done? <==> k in l.records || (stage == l.run.stage && !Terminal(l)))
            && (out.Refused? ==>
                  out.error == if stage != l.run.stage then ErrInvalidTransition(l.run.state, l.run.stage, stage) else ErrRunTerminal)
            && (k in l.records || out.Refused? ==> l' == l)
            && (k !in l.records && out.Done? ==>
                  && k in l'.records && Closed(l, l'.records) && OnlyAt(l.records, l'.records, {k, At(l.run, RecordEntered)})
                  && l'.records[k] == (if failed then Record(false, Some(category), reason, evidence)
                                       else Record(false, None, "", evidence))
                  && l'.run == if failed then l.run.(failure := Some(category), reason := reason) else l.run)
  {
  }

  lemma UnknownCategoriesAreRefused(l: Ledger, stage: Stage, name: string, reason: string, evidence: string)
    ensures FailStage(l, stage, Unrecognised(name), reason, evidence) == (l, Refused(ErrUnknownCategory))
  {
  }

  /** Both counters grow by one on a live run only, and the repair counter never past the budget. */
  lemma Counting(l: Ledger)
    ensures var (l', out) := IncrementStageAttempt(l);
            && (out == if Terminal(l) then Refused(ErrRunTerminal) else Done)
            && l' == l.(run := l.run.(stageAttempt := l.run.stageAttempt + if Terminal(l) then 0 else 1))
    ensures var (l', grant) := IncrementRepairAttempt(l);
            var granted := !Terminal(l) && l.run.repairAttempt < l.run.maxRepairAttempts;
            && l' == l.(run := l.run.(repairAttempt := l.run.repairAttempt + if granted then 1 else 0))
            && grant == (if Terminal(l) then RepairRefused(ErrRunTerminal)
                         else if granted then RepairGranted(l'.run.repairAttempt) else RepairSpent(l.run.repairAttempt))
  {
  }

  /** An interruption closes the entry of a live run and is on record unless a failure is; a cancel also ends the run. */
  lemma Interrupting(l: Ledger, reason: string)
    ensures Terminal(l) ==> MarkInterrupted(l, reason) == l && Cancel(l, reason) == l
    ensures !Terminal(l) ==>
              var l' := MarkInterrupted(l, reason);
              && l'.run == l.run && Closed(l, l'.records)
              && Stands(l.records, l'.records, At(l.run, RecordFailed),
                        Record(false, Some(FailureInterrupted), if reason != "" then reason else "run interrupted", ""))
              && OnlyAt(l.records, l'.records, {At(l.run, RecordFailed), At(l.run, RecordEntered)})
    ensures !Terminal(l) ==>
              var l', why := Cancel(l, reason), if reason != "" then reason else "cancelled";
              && l'.run == l.run.(state := RunCancelled, failure := Some(FailureCancelled), reason := why)
              && Closed(l, l'.records)
              && Stands(l.records, l'.records, At(l.run, RecordFailed), Record(false, Some(FailureCancelled), why, ""))
              && OnlyAt(l.records, l'.records, {At(l.run, RecordFailed), At(l.run, RecordEntered)})
  {
  }

  /**
   A state is taken along the rules, waiting_quota at execute or verify only, completed at finalize only. The history
   stays; completing keeps the result, and an ending that gives a reason shows it, as a cancellation for that state.
   */
  lemma ChangingState(l: Ledger, to: RunState, reason: string, resultRef: string)
    ensures var (l', out) := SetRunState(l, to, reason, resultRef);
            var ends := to in {RunFailed, RunCancelled, RunRepairExhausted} && reason != "";
            && (out.Done? <==> || to == l.run.state
                               || (&& CanTransitionRunState(l.run.state, to)
                                   && (to == RunWaitingQuota ==> l.run.stage in {Execute, Verify})
                                   && (to == RunCompleted ==> l.run.stage == Finalize)))
            && (out.Refused? ==>
                  out.error == if CanTransitionRunState(l.run.state, to) then ErrStateRestricted(to, l.run.stage)
                               else ErrInvalidRunStateTransition(l.run.state, to))
            && (out.Refused? || to == l.run.state ==> l' == l)
            && (out.Done? && to != l.run.state ==>
                  l' == l.(run := l.run.(state := to,
                                         resultRef := if to == RunCompleted && resultRef != "" then resultRef else l.run.resultRef,
                                         reason := if ends then reason else l.run.reason,
                                         failure := if ends && to == RunCancelled then Some(FailureCancelled) else l.run.failure)))
  {
  }
}
