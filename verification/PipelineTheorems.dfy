/** What holds of every run of the pipeline, however it is interleaved with crashes, restarts, cancels and stops. */
module PipelineTheorems {
  import opened Options
  import opened Stages
  import opened Ledgers
  import opened PipelineDriver
  import opened Recovery
  import opened PipelineMachine
  import opened PipelineInvariant

  // The state after a whole history of a run created with this repair budget.
  function History(project: string, max: int, stop: Stop, actions: seq<Action>): System {
    Perform(Begin(project, max, stop), actions)
  }

  lemma HistoryInv(project: string, max: int, stop: Stop, actions: seq<Action>)
    ensures Inv(History(project, max, stop, actions))
  {
    BeginInv(project, max, stop);
    PerformKeepsInv(Begin(project, max, stop), actions);
  }

  // ---- finalize is gated ----

  // Verification passed at `i`, review approved at `j`, and nothing re-opened verification since `i`.
  ghost predicate VerifiedThenApproved(log: seq<Event>, i: int, j: int) {
    && 0 <= i < j < |log|
    && SaysYes(log[i], Verify)
    && SaysYes(log[j], Review)
    && forall m :: i < m < |log| ==> !RestartsVerification(log[m])
  }

  ghost predicate VerifiedSince(log: seq<Event>, i: int) {
    && 0 <= i < |log|
    && SaysYes(log[i], Verify)
    && forall m :: i < m < |log| ==> !RestartsVerification(log[m])
  }

  // What the two gate levels say of a log.
  lemma {:induction false} GateMeaning(log: seq<Event>) returns (i: int, j: int)
    ensures TallyOf(log).gate >= 1 ==> VerifiedSince(log, i)
    ensures TallyOf(log).gate == 2 ==> VerifiedThenApproved(log, i, j)
    ensures TallyOf(log).gate <= 2
  {
    i, j := -1, -1;
    if log != [] {
      var n := |log| - 1;
      var e := log[n];
      i, j := GateMeaning(log[..n]);
      if SaysYes(e, Verify) {
        i := n;
      } else if SaysYes(e, Review) {
        j := n;
      }
    }
  }

  /**
   The finalize handler starts only if, since the last start of an execute, repair or verify handler, a verify
   handler returned passed and after it a review handler returned approved.
   */
  lemma FinalizeIsGated(project: string, max: int, stop: Stop, actions: seq<Action>, k: nat)
    requires var log := History(project, max, stop, actions).log;
             k < |log| && log[k].Started? && log[k].stage == Finalize
    ensures var log := History(project, max, stop, actions).log;
            exists i, j :: VerifiedThenApproved(log[..k], i, j)
  {
    HistoryInv(project, max, stop, actions);
    var i, j := GateMeaning(History(project, max, stop, actions).log[..k]);
  }

  // ---- persist before effect ----

  /** Every handler start, in every history, has its entry record on disk. */
  lemma StartsAreOnRecord(project: string, max: int, stop: Stop, actions: seq<Action>, k: nat)
    requires var log := History(project, max, stop, actions).log; k < |log| && log[k].Started?
    ensures var s := History(project, max, stop, actions); HasEntry(s.ledger, s.log[k].stage, s.log[k].attempt)
  {
    HistoryInv(project, max, stop, actions);
  }

  // ---- the stage history ----

  // Open entries and outcomes never meet, and a terminal run has nothing open.
  ghost predicate Tidy(l: Ledger) {
    && (forall stage, attempt :: !(OpenAt(l, stage, attempt) && HasOutcome(l, stage, attempt)))
    && (Terminal(l) ==> forall stage, attempt :: !OpenAt(l, stage, attempt))
  }

  /**
   In every history: attempts stay within the counter; only the cursor's entry can be open; and the records are
   tidy exactly unless recovery re-entered a run that had become terminal under it.
   */
  lemma RecordsAreConsistent(project: string, max: int, stop: Stop, actions: seq<Action>)
    ensures var s := History(project, max, stop, actions);
            && (forall k :: k in s.ledger.records ==> 1 <= k.attempt <= s.ledger.run.stageAttempt)
            && (forall k :: k in s.ledger.records && s.ledger.records[k].open
                  ==> k == Key(s.ledger.run.stage, s.ledger.run.stageAttempt, RecordEntered))
            && (Tidy(s.ledger) <==> !TallyOf(s.log).torn)
  {
    HistoryInv(project, max, stop, actions);
    var s := History(project, max, stop, actions);
    var l := s.ledger;
    if !TallyOf(s.log).torn {
      forall stage, attempt
        ensures !(OpenAt(l, stage, attempt) && HasOutcome(l, stage, attempt))
        ensures Terminal(l) ==> !OpenAt(l, stage, attempt)
      {
        if OpenAt(l, stage, attempt) {
          assert Key(stage, attempt, RecordEntered) in l.records;
        }
      }
    } else {
      assert OpenAt(l, l.run.stage, l.run.stageAttempt);
    }
  }

  // A cancel never lands while startup recovery works: the daemon serves requests only after it.
  predicate CancelsOutsideRecovery(s: System, actions: seq<Action>)
    decreases |actions|
  {
    actions == [] ||
    ((actions[0].CancelRun? ==> !InRecovery(s.pc)) && CancelsOutsideRecovery(Step(s, actions[0]), actions[1..]))
  }

  predicate ReenteringLive(l: Ledger, pc: Pc) {
    pc.Marking? || pc.Marked? || pc.Reentering? ==> !Terminal(l)
  }

  ghost predicate RecoveringLive(s: System) {
    Inv(s) && !TallyOf(s.log).torn && ReenteringLive(s.ledger, s.pc)
  }

  lemma WorkerStaysLive(s: System, reply: Reply)
    requires ReenteringLive(s.ledger, s.pc)
    ensures ReenteringLive(WorkerStep(s, reply).0, WorkerStep(s, reply).1)
  {
    hide Persist, Move, Route;
  }

  lemma {:induction false} CancelsOutsideRecoveryLeaveNothingTorn(s: System, actions: seq<Action>)
    requires RecoveringLive(s) && CancelsOutsideRecovery(s, actions)
    ensures !TallyOf(Perform(s, actions).log).torn
    decreases |actions|
  {
    if actions != [] {
      StepKeepsRecoveringLive(s, actions[0]);
      CancelsOutsideRecoveryLeaveNothingTorn(Step(s, actions[0]), actions[1..]);
    }
  }

  lemma StepKeepsRecoveringLive(s: System, a: Action)
    requires RecoveringLive(s) && (a.CancelRun? ==> !InRecovery(s.pc))
    ensures RecoveringLive(Step(s, a))
  {
    StepKeepsInv(s, a);
    hide Inv, TallyOf, WorkerStep, Cancel;
    if a.Advance? {
      TallyAfter(s, a.reply);
      WorkerStaysLive(s, a.reply);
      WorkerTearsNothing(s, a.reply);
      hide EventOf, ReenteringLive;
    }
  }

  lemma WorkerTearsNothing(s: System, reply: Reply)
    requires Inv(s) && ReenteringLive(s.ledger, s.pc)
    ensures var (l, pc) := WorkerStep(s, reply);
            forall t: Tally, e :: e in EventOf(s, reply, l, pc) ==> Count(t, e).torn == t.torn
  {
    hide RecoverStep, DriverStep, Judge;
    if InRecovery(s.pc) {
      InvGivesState(s);
      hide Inv;
      RecoveryKeepsState(s.ledger, s.stop, s.pc);
      hide StateOk;
    }
  }

  /** Under the daemon's own ordering the records are tidy after every history. */
  lemma DaemonHistoriesAreTidy(project: string, max: int, stop: Stop, actions: seq<Action>)
    requires CancelsOutsideRecovery(Begin(project, max, stop), actions)
    ensures Tidy(History(project, max, stop, actions).ledger)
  {
    BeginInv(project, max, stop);
    CancelsOutsideRecoveryLeaveNothingTorn(Begin(project, max, stop), actions);
    RecordsAreConsistent(project, max, stop, actions);
  }

  // ---- how many handler calls a history can hold ----

  lemma {:induction false} BudgetIsConstant(s: System, actions: seq<Action>)
    requires Inv(s)
    ensures Perform(s, actions).ledger.run.maxRepairAttempts == s.ledger.run.maxRepairAttempts
    decreases |actions|
  {
    if actions != [] {
      var a := actions[0];
      StepKeepsInv(s, a);
      if a.Advance? {
        if InRecovery(s.pc) {
          RecoveryMoves(s);
        } else {
          DriverSpendsRepairs(s.ledger, s.stop, s.pc, a.reply);
        }
      }
      BudgetIsConstant(Step(s, a), actions[1..]);
    }
  }

  /**
   With R re-drives a history holds at most 7 + 3*max + 3*R handler calls, entries into repair never outnumber the
   repair attempts taken, these never exceed the budget, and repair_exhausted means the budget is spent.
   */
  lemma HandlerCallsAreBounded(project: string, max: int, stop: Stop, actions: seq<Action>)
    ensures var s := History(project, max, stop, actions);
            var budget := if max <= 0 then DEFAULT_MAX_REPAIR_ATTEMPTS else max;
            && TallyOf(s.log).calls <= 7 + 3 * budget + 3 * TallyOf(s.log).redrives
            && TallyOf(s.log).repairEntries <= s.ledger.run.repairAttempt <= budget
            && (s.ledger.run.state.RunRepairExhausted? ==> s.ledger.run.repairAttempt == budget)
  {
    HistoryInv(project, max, stop, actions);
    BeginInv(project, max, stop);
    BudgetIsConstant(Begin(project, max, stop), actions);
    hide TallyOf, HistoryOk, LogOk;
    var s := History(project, max, stop, actions);
    assert CallsLeft(s.ledger.run, s.pc) >= 0;
  }

  // ---- recovery ----

  function Advances(n: nat, reply: Reply): seq<Action> {
    seq(n, _ => Advance(reply))
  }

  lemma PerformSplits(s: System, xs: seq<Action>, ys: seq<Action>)
    ensures Perform(s, xs + ys) == Perform(Perform(s, xs), ys)
    decreases |xs|
  {
    if xs == [] {
      assert xs + ys == ys;
    } else {
      assert (xs + ys)[1..] == xs[1..] + ys;
      PerformSplits(Step(s, xs[0]), xs[1..], ys);
    }
  }

  lemma PerformAdvance(s: System, n: nat, reply: Reply)
    ensures n > 0 ==> Perform(s, Advances(n, reply)) == Perform(Step(s, Advance(reply)), Advances(n - 1, reply))
    ensures n == 0 ==> Perform(s, Advances(n, reply)) == s
  {
    if n > 0 {
      assert Advances(n, reply)[1..] == Advances(n - 1, reply);
    }
  }

  // How many recovery steps lead from here to the end of the startup passes, the stop being off.
  function RecoveryStepsLeft(l: Ledger, pc: Pc): nat {
    var resume := if Terminal(l) then 1 else if IsWaitState(l.run.state) then 2 else 4;
    match pc
    case Reconciling => if l.run.state.RunActive? then 4 + resume else 2 + resume
    case ReconcilingActive => 3 + resume
    case Interrupting => 2 + resume
    case Resuming => 1 + resume
    case Listing => resume
    case Marking(_) => 3
    case Marked(_) => 2
    case Reentering(_) => 1
    case Waking(_) => 1
    case _ => 0
  }

  // What the passes still have to do from here.
  function RecoveredFrom(l: Ledger, pc: Pc): Ledger {
    match pc
    case Marked(stage) => Transition(IncrementStageAttempt(l).0, l.run.stage, "re-drive after restart", "").0
    case Reentering(stage) => Transition(l, l.run.stage, "re-drive after restart", "").0
    case Waking(_) => Resumed(l)
    case Top => l
    case Idle => l
    case _ => Resumed(l)
  }

  // Recovery works on a run that is still as it listed it.
  predicate AsListed(l: Ledger, pc: Pc) {
    && (pc.Marking? || pc.Marked? || pc.Reentering? || pc.Waking? ==> !Terminal(l))
    && (pc.Interrupting? || pc.ReconcilingActive? ==> l.run.state.RunActive?)
  }

  lemma RecoveryStepTakesUsThere(l: Ledger, stop: Stop, pc: Pc)
    requires StateOk(l, pc) && InRecovery(pc) && !stop.on && AsListed(l, pc)
    ensures var (l', pc') := RecoverStep(l, stop, pc);
            && RecoveryStepsLeft(l', pc') == RecoveryStepsLeft(l, pc) - 1
            && RecoveredFrom(l', pc') == RecoveredFrom(l, pc)
            && (InRecovery(pc') || pc' == if Terminal(l) then Idle else Top)
            && (Terminal(l') <==> Terminal(l)) && AsListed(l', pc')
            && (InRecovery(pc') ==> l'.run.state == l.run.state)
  {
    hide Transition, SetRunState, IncrementStageAttempt, MarkInterrupted, Resumed;
    if pc.Interrupting? || pc.Marking? {
      MarkingTakesUsThere(l, stop, pc);
    } else if pc.Marked? || pc.Reentering? {
      ReenteringTakesUsThere(l, stop, pc);
    } else if pc.Waking? {
      WakingTakesUsThere(l, stop, pc);
    } else {
      ListingTakesUsThere(l, stop, pc);
    }
    hide StateOk, RecoverStep, RecoveredFrom;
  }

  // What such a step amounts to.
  ghost predicate OneStepNearer(l: Ledger, stop: Stop, pc: Pc) {
    var (l', pc') := RecoverStep(l, stop, pc);
    && RecoveryStepsLeft(l', pc') == RecoveryStepsLeft(l, pc) - 1
    && RecoveredFrom(l', pc') == RecoveredFrom(l, pc)
    && (InRecovery(pc') || pc' == if Terminal(l) then Idle else Top)
    && (Terminal(l') <==> Terminal(l)) && AsListed(l', pc')
    && (InRecovery(pc') ==> l'.run.state == l.run.state)
  }

  lemma ListingTakesUsThere(l: Ledger, stop: Stop, pc: Pc)
    requires pc.Reconciling? || pc.ReconcilingActive? || pc.Resuming? || pc.Listing?
    requires !stop.on && AsListed(l, pc)
    ensures OneStepNearer(l, stop, pc)
  {
    hide Transition, SetRunState, IncrementStageAttempt, MarkInterrupted;
  }

  lemma MarkingTakesUsThere(l: Ledger, stop: Stop, pc: Pc)
    requires StateOk(l, pc) && (pc.Interrupting? || pc.Marking?) && AsListed(l, pc)
    ensures OneStepNearer(l, stop, pc)
  {
    hide Transition, SetRunState, IncrementStageAttempt, HistoryOk;
    ReconcileThenResume(l);
  }

  lemma ReenteringTakesUsThere(l: Ledger, stop: Stop, pc: Pc)
    requires StateOk(l, pc) && (pc.Marked? || pc.Reentering?) && AsListed(l, pc)
    ensures OneStepNearer(l, stop, pc)
  {
    hide SetRunState, MarkInterrupted, HistoryOk;
  }

  lemma WakingTakesUsThere(l: Ledger, stop: Stop, pc: Pc)
    requires StateOk(l, pc) && pc.Waking? && AsListed(l, pc)
    ensures OneStepNearer(l, stop, pc)
  {
    hide MarkInterrupted, IncrementStageAttempt, HistoryOk;
  }

  lemma {:induction false} RecoveryAdvances(s: System, reply: Reply, k: nat)
    requires Inv(s) && AsListed(s.ledger, s.pc) && !s.stop.on
    requires InRecovery(s.pc) || s.pc == if Terminal(s.ledger) then Idle else Top
    requires k <= RecoveryStepsLeft(s.ledger, s.pc)
    ensures var s' := Perform(s, Advances(k, reply));
            && Inv(s') && AsListed(s'.ledger, s'.pc)
            && RecoveryStepsLeft(s'.ledger, s'.pc) == RecoveryStepsLeft(s.ledger, s.pc) - k
            && RecoveredFrom(s'.ledger, s'.pc) == RecoveredFrom(s.ledger, s.pc)
            && (Terminal(s'.ledger) <==> Terminal(s.ledger))
            && (InRecovery(s'.pc) ==> s'.ledger.run.state == s.ledger.run.state)
            && (InRecovery(s'.pc) || s'.pc == if Terminal(s.ledger) then Idle else Top)
    decreases k
  {
    hide Inv, RecoverStep, RecoveredFrom, EventOf, DriverStep;
    PerformAdvance(s, k, reply);
    if k > 0 {
      assert InRecovery(s.pc);
      InvGivesState(s);
      RecoveryStepTakesUsThere(s.ledger, s.stop, s.pc);
      StepKeepsInv(s, Advance(reply));
      RecoveryAdvances(Step(s, Advance(reply)), reply, k - 1);
    }
  }

  lemma InvGivesState(s: System)
    requires Inv(s)
    ensures StateOk(s.ledger, s.pc) && (IsWaitState(s.ledger.run.state) ==> EnteredHere(s.ledger))
  {
  }

  // The run is active, about to be driven, with its entry on record: where it was, or at ready out of a wait.
  predicate Recovered(before: Ledger, s: System) {
    && s.pc.Top? && s.ledger.run.state.RunActive? && EnteredHere(s.ledger)
    && s.ledger.run.stage == if IsWaitState(before.run.state) then Ready else before.run.stage
  }

  /**
   After any history, a restart with the stop off and no further crash recovers the run: a terminal run stays as it
   is and is not driven; any other ends up active and about to be driven, with a durable entry under its cursor.
   */
  lemma RestartRecoversTheRun(project: string, max: int, stop: Stop, actions: seq<Action>, reply: Reply)
    requires var s := History(project, max, stop, actions); (s.pc.Idle? || s.pc.Finished?) && !s.stop.on
    ensures var s := History(project, max, stop, actions);
            var s' := Perform(s, [Restart] + Advances(RecoveryStepsLeft(s.ledger, Reconciling), reply));
            && s'.ledger == Resumed(s.ledger)
            && if Terminal(s.ledger) then s'.ledger == s.ledger && s'.pc.Idle? else Recovered(s.ledger, s')
  {
    HistoryInv(project, max, stop, actions);
    var s := History(project, max, stop, actions);
    RestartRecovers(s, reply);
  }

  lemma RestartRecovers(s: System, reply: Reply)
    requires Inv(s) && (s.pc.Idle? || s.pc.Finished?) && !s.stop.on
    ensures var s' := Perform(s, [Restart] + Advances(RecoveryStepsLeft(s.ledger, Reconciling), reply));
            && s'.ledger == Resumed(s.ledger)
            && if Terminal(s.ledger) then s'.ledger == s.ledger && s'.pc.Idle? else Recovered(s.ledger, s')
  {
    var n := RecoveryStepsLeft(s.ledger, Reconciling);
    var restarted := Step(s, Restart);
    assert restarted == s.(pc := Reconciling);
    hide Inv, WorkerStep;
    assert ([Restart] + Advances(n, reply))[1..] == Advances(n, reply);
    StepKeepsInv(s, Restart);
    RecoveryAdvances(restarted, reply, n);
    InvGivesState(s);
    RecoveryIsTotal(s.ledger);
    var s' := Perform(restarted, Advances(n, reply));
    NothingLeft(s'.ledger, s'.pc);
  }

  lemma NothingLeft(l: Ledger, pc: Pc)
    requires RecoveryStepsLeft(l, pc) == 0 && (InRecovery(pc) || pc.Idle? || pc.Top?)
    ensures !InRecovery(pc) && RecoveredFrom(l, pc) == l
  {
  }

  // No worker, or one in the part of recovery that the stop lets it reach.
  predicate Undriven(pc: Pc) {
    pc.Idle? || pc.Finished? || pc.Reconciling? || pc.ReconcilingActive? || pc.Resuming?
  }

  /** With the stop on, restarts change nothing of an undriven run and do not drive it, however often the process dies. */
  lemma {:induction false} StoppedRestartsChangeNothing(s: System, actions: seq<Action>)
    requires s.stop.on && Undriven(s.pc)
    requires forall a :: a in actions ==> !a.CancelRun? && (a.SetStop? ==> a.on)
    ensures Perform(s, actions).ledger == s.ledger && Undriven(Perform(s, actions).pc)
    decreases |actions|
  {
    hide Step;
    if actions != [] {
      assert actions[0] in actions;
      StoppedRestartStep(s, actions[0]);
      StoppedRestartsChangeNothing(Step(s, actions[0]), actions[1..]);
    }
  }

  lemma StoppedRestartStep(s: System, a: Action)
    requires s.stop.on && Undriven(s.pc) && !a.CancelRun? && (a.SetStop? ==> a.on)
    ensures var s' := Step(s, a); s'.ledger == s.ledger && s'.stop.on && Undriven(s'.pc)
  {
    hide MarkInterrupted, IncrementStageAttempt, Transition, SetRunState, EventOf, Persist, Proceed, AskRepair, Move, Route;
  }

  // ---- the cancel that recovery does not see ----

  /** A cancel between recovery's attempt bump and its re-entry always leaves an open entry on a cancelled run. */
  lemma CancelDuringReentryTearsTheRecords(s: System, reason: string, reply: Reply)
    requires Inv(s) && s.pc.Reentering? && !Terminal(s.ledger)
    ensures var l := Perform(s, [CancelRun(reason), Advance(reply)]).ledger;
            l.run.state.RunCancelled? && OpenHere(l) && HasOutcome(l, l.run.stage, l.run.stageAttempt) && !Tidy(l)
  {
    var c := Step(s, CancelRun(reason));
    StepKeepsInv(s, CancelRun(reason));
    ReenterKeepsHistory(c.ledger, "re-drive after restart");
    var l := Perform(s, [CancelRun(reason), Advance(reply)]).ledger;
    assert [CancelRun(reason), Advance(reply)][1..] == [Advance(reply)];
    assert Perform(s, [CancelRun(reason), Advance(reply)]) == Perform(c, [Advance(reply)]) == Step(c, Advance(reply));
    assert OpenAt(l, l.run.stage, l.run.stageAttempt);
  }

  // A restart followed up to, not including, recovery's last step.
  function ToReentry(s: System, reply: Reply): seq<Action> {
    [Restart] + Advances(RecoveryStepsLeft(s.ledger, Reconciling) - 1, reply)
  }

  /** And that window is there after every history that ends with an active run, no worker, and the stop off. */
  lemma EveryActiveRunCanBeTorn(project: string, max: int, stop: Stop, actions: seq<Action>, reason: string, reply: Reply)
    requires var s := History(project, max, stop, actions);
             (s.pc.Idle? || s.pc.Finished?) && !s.stop.on && s.ledger.run.state.RunActive?
    ensures var s := History(project, max, stop, actions);
            !Tidy(Perform(s, ToReentry(s, reply) + [CancelRun(reason), Advance(reply)]).ledger)
  {
    HistoryInv(project, max, stop, actions);
    var s := History(project, max, stop, actions);
    RestartReachesReentry(s, reply);
    PerformSplits(s, ToReentry(s, reply), [CancelRun(reason), Advance(reply)]);
    CancelDuringReentryTearsTheRecords(Perform(s, ToReentry(s, reply)), reason, reply);
  }

  lemma RestartReachesReentry(s: System, reply: Reply)
    requires Inv(s) && (s.pc.Idle? || s.pc.Finished?) && !s.stop.on && s.ledger.run.state.RunActive?
    ensures var s' := Perform(s, ToReentry(s, reply));
            Inv(s') && s'.pc.Reentering? && !Terminal(s'.ledger)
  {
    var restarted := Step(s, Restart);
    assert restarted == s.(pc := Reconciling);
    hide Inv, WorkerStep;
    hide RecoveredFrom, StateOk;
    var n := RecoveryStepsLeft(s.ledger, Reconciling) - 1;
    assert ToReentry(s, reply)[1..] == Advances(n, reply);
    StepKeepsInv(s, Restart);
    var s' := Perform(restarted, Advances(n, reply));
    assert Perform(s, ToReentry(s, reply)) == s';
    hide Step, Perform;
    RecoveryAdvances(restarted, reply, n);
    InvGivesState(s');
    hide RecoveryStepsLeft, AsListed;
    LastStepIsReentry(s'.ledger, s'.pc);
  }

  lemma LastStepIsReentry(l: Ledger, pc: Pc)
    requires StateOk(l, pc) && RecoveryStepsLeft(l, pc) == 1
    requires InRecovery(pc) ==> l.run.state.RunActive?
    ensures pc.Reentering?
  {
  }

  // ---- cancel is final ----

  /**
   Once a run is terminal its row never changes again, and at most one more handler starts, only where the loop had
   already read the run as active.
   */
  lemma {:induction false} TerminalRunsStayPut(s: System, actions: seq<Action>)
    requires Inv(s) && Terminal(s.ledger)
    ensures var s' := Perform(s, actions);
            && s'.ledger.run == s.ledger.run
            && TallyOf(s'.log).calls <= TallyOf(s.log).calls + (if s.pc.Checked? then 1 else 0)
    decreases |actions|
  {
    if actions != [] {
      var next := Step(s, actions[0]);
      StepKeepsInv(s, actions[0]);
      TerminalStep(s, actions[0]);
      TerminalRunsStayPut(next, actions[1..]);
    }
  }

  lemma TerminalStep(s: System, a: Action)
    requires Inv(s) && Terminal(s.ledger)
    ensures var s' := Step(s, a);
            && s'.ledger.run == s.ledger.run
            && TallyOf(s'.log).calls + (if s'.pc.Checked? then 1 else 0)
               <= TallyOf(s.log).calls + (if s.pc.Checked? then 1 else 0)
  {
    hide TallyOf, Inv, WorkerStep;
    if a.Advance? {
      TallyAfter(s, a.reply);
      TerminalWorker(s, a.reply);
    }
  }

  lemma TerminalWorker(s: System, reply: Reply)
    requires Terminal(s.ledger)
    ensures var (l, pc) := WorkerStep(s, reply); l.run == s.ledger.run && !pc.Checked?
  {
    hide Move, Route;
  }

  /** So a cancel that lands on a live run is the end of it, whatever follows. */
  lemma CancelIsFinal(s: System, reason: string, actions: seq<Action>)
    requires Inv(s) && !Terminal(s.ledger)
    ensures var s' := Perform(Step(s, CancelRun(reason)), actions);
            && s'.ledger.run.state.RunCancelled?
            && s'.ledger.run.failure == Some(FailureCancelled)
            && s'.ledger.run.stage == s.ledger.run.stage
            && TallyOf(s'.log).calls <= TallyOf(s.log).calls + 1
  {
    StepKeepsInv(s, CancelRun(reason));
    TerminalRunsStayPut(Step(s, CancelRun(reason)), actions);
  }

  // ---- the emergency stop ----

  /** While the stop is on, no further handler starts, whatever else happens. */
  lemma {:induction false} StopHoldsHandlers(s: System, actions: seq<Action>)
    requires s.stop.on && forall a :: a in actions ==> !a.SetStop? || a.on
    ensures TallyOf(Perform(s, actions).log).calls == TallyOf(s.log).calls
    decreases |actions|
  {
    if actions != [] {
      assert actions[0] in actions;
      StopHoldsStep(s, actions[0]);
      StopHoldsHandlers(Step(s, actions[0]), actions[1..]);
    }
  }

  lemma StopHoldsStep(s: System, a: Action)
    requires s.stop.on && (a.SetStop? ==> a.on)
    ensures Step(s, a).stop.on && TallyOf(Step(s, a).log).calls == TallyOf(s.log).calls
  {
    hide TallyOf, RecoverStep, Persist, Proceed, AskRepair, Move, Route, Cancel;
    if a.Advance? {
      TallyAfter(s, a.reply);
    }
  }

  // ---- where the cursor goes ----

  /** Every change of stage is an edge of the stage table on an active run, or a wait re-activated at ready. */
  lemma CursorFollowsTheTable(s: System, a: Action)
    requires Inv(s)
    ensures var r, r' := s.ledger.run, Step(s, a).ledger.run;
            r'.stage != r.stage ==>
              if IsWaitState(r.state) then r'.stage == Ready && r'.state.RunActive?
              else r.state.RunActive? && r'.stage in StageTransitions(r.stage)
  {
    hide TallyOf, HistoryOk, LogOk, GateOk, CountsOk;
    if a.Advance? && !InRecovery(s.pc) {
      PcAtCursor(s.ledger, s.pc);
      DriverMoves(s.ledger, s.stop, s.pc, a.reply);
    }
  }

  /** In every history the run state fits the cursor. */
  lemma StateFitsTheCursor(project: string, max: int, stop: Stop, actions: seq<Action>)
    ensures var r := History(project, max, stop, actions).ledger.run;
            && (r.state.RunCompleted? ==> r.stage == Finalize)
            && (r.state.RunWaitingQuota? ==> r.stage == Execute || r.stage == Verify)
            && (r.state.RunBlocked? ==> r.stage == Ready)
  {
    HistoryInv(project, max, stop, actions);
  }

  // ---- a handler whose context is cancelled ----

  predicate WorkerSurvives(actions: seq<Action>) {
    forall a :: a in actions ==> !a.Crash? && !a.Restart?
  }

  function Steps(actions: seq<Action>): nat {
    if actions == [] then 0 else (if actions[0].Advance? then 1 else 0) + Steps(actions[1..])
  }

  // The handler cancelled the run; the drive loop is on its way to returning without an error.
  predicate Unwinding(l: Ledger, pc: Pc) {
    Terminal(l) && match pc
       case Returned(stage, reply) => stage == l.run.stage && reply.Failed?
       case Faulted(_, _, _) => true
       case Confirming => true
       case Finished(result) => result == DriveOk
       case _ => false
  }

  function UnwindingLeft(pc: Pc): nat {
    if pc.Returned? then 3 else if pc.Faulted? then 2 else if pc.Confirming? then 1 else 0
  }

  lemma {:induction false} UnwindingEndsWell(s: System, actions: seq<Action>)
    requires Unwinding(s.ledger, s.pc) && WorkerSurvives(actions)
    ensures var s' := Perform(s, actions);
            && s'.ledger.run == s.ledger.run
            && (Steps(actions) >= UnwindingLeft(s.pc) ==> s'.pc == Finished(DriveOk))
    decreases |actions|
  {
    if actions != [] {
      var next := Step(s, actions[0]);
      assert actions[0] in actions;
      UnwindingStep(s, actions[0]);
      UnwindingEndsWell(next, actions[1..]);
    }
  }

  lemma UnwindingStep(s: System, a: Action)
    requires Unwinding(s.ledger, s.pc) && !a.Crash? && !a.Restart?
    ensures var s' := Step(s, a);
            && Unwinding(s'.ledger, s'.pc) && s'.ledger.run == s.ledger.run
            && UnwindingLeft(s'.pc) <= if a.Advance? && UnwindingLeft(s.pc) > 0 then UnwindingLeft(s.pc) - 1 else UnwindingLeft(s.pc)
  {
    hide Move, Route, AskRepair, Proceed;
  }

  /**
   A handler interrupted with the stop off cancels the run, and its drive then ends in nil: after the cancel and three
   more steps, whatever cancels and stop changes fall in between, and with the cancellation as the recorded failure.
   */
  lemma InterruptedHandlerCancels(s: System, reply: Reply, actions: seq<Action>)
    requires Inv(s) && s.pc.Cancelling? && WorkerSurvives(actions)
    ensures var s' := Perform(Step(s, Advance(reply)), actions);
            && (Steps(actions) >= 3 ==> s'.pc == Finished(DriveOk))
            && (if Terminal(s.ledger) then s'.ledger.run == s.ledger.run
                else s'.ledger.run == s.ledger.run.(state := RunCancelled, failure := Some(FailureCancelled), reason := "cancelled"))
  {
    var c := Step(s, Advance(reply));
    UnwindingEndsWell(c, actions);
  }

  // The stop interrupted the handler; the drive loop is on its way to parking the run.
  predicate Parking(l: Ledger, pc: Pc) {
    l.run.state.RunActive? && match pc
    case Returned(stage, Failed(StageFault(FailureInterrupted, _))) => stage == l.run.stage
    case Faulted(_, FailureInterrupted, _) => true
    case Finished(result) => result == DriveErr(ErrEmergencyStopped)
    case _ => false
  }

  function ParkingLeft(pc: Pc): nat {
    if pc.Returned? then 2 else if pc.Faulted? then 1 else 0
  }

  lemma {:induction false} ParkingEndsParked(s: System, actions: seq<Action>)
    requires Parking(s.ledger, s.pc) && WorkerSurvives(actions) && forall a :: a in actions ==> !a.CancelRun?
    ensures var s' := Perform(s, actions);
            && SameRow(s.ledger.run, s'.ledger.run)
            && (Steps(actions) >= ParkingLeft(s.pc) ==> s'.pc == Finished(DriveErr(ErrEmergencyStopped)))
    decreases |actions|
  {
    if actions != [] {
      assert actions[0] in actions;
      ParkingStep(s, actions[0]);
      ParkingEndsParked(Step(s, actions[0]), actions[1..]);
    }
  }

  lemma ParkingStep(s: System, a: Action)
    requires Parking(s.ledger, s.pc) && !a.Crash? && !a.Restart? && !a.CancelRun?
    ensures var s' := Step(s, a);
            && Parking(s'.ledger, s'.pc) && SameRow(s.ledger.run, s'.ledger.run)
            && ParkingLeft(s'.pc) == if a.Advance? && ParkingLeft(s.pc) > 0 then ParkingLeft(s.pc) - 1 else ParkingLeft(s.pc)
  {
    hide Move, Route, AskRepair, Proceed;
  }

  /**
   A handler interrupted with the stop on parks the run: unless someone cancels it, it stays active at the same
   stage, attempt and repair count, and after three more steps the drive has returned ErrEmergencyStopped.
   */
  lemma InterruptedHandlerParks(s: System, reply: Reply, actions: seq<Action>)
    requires Inv(s) && s.pc.Deciding? && s.stop.on && !Terminal(s.ledger)
    requires WorkerSurvives(actions) && forall a :: a in actions ==> !a.CancelRun?
    ensures var why := if s.stop.reason != "" then s.stop.reason else "emergency stop engaged";
            Step(s, Advance(reply)).pc == Returned(s.pc.stage, Failed(StageFault(FailureInterrupted, why)))
    ensures var s' := Perform(Step(s, Advance(reply)), actions);
            && SameRow(s.ledger.run, s'.ledger.run) && s'.ledger.run.state.RunActive?
            && (Steps(actions) >= 2 ==> s'.pc == Finished(DriveErr(ErrEmergencyStopped)))
  {
    ParkingEndsParked(Step(s, Advance(reply)), actions);
  }
}
