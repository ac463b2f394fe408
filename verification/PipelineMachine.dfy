/**
 One task's run under everything that can happen to it: the driver and the recovery
 pass one transaction at a time, a handler whose context is cancelled, a crash between
 any two transactions, a restart, a durable cancel and the emergency stop.

 A run of the system is a sequence of actions; every theorem about it quantifies over all of them.
 */
module PipelineMachine {
  import opened Options
  import opened Stages
  import opened Ledgers
  import opened PipelineDriver
  import opened Recovery

  datatype Event =
    | Started(stage: Stage, attempt: nat)            // a handler call
    | Answered(stage: Stage, reply: Reply)           // what it returned
    | Moved(from: Stage, to: Stage)                  // the driver moved the cursor
    | Redriven(at: Stage, onTerminal: bool)          // recovery handed the run back to the driver

  datatype System = System(ledger: Ledger, stop: Stop, pc: Pc, log: seq<Event>)

  datatype Action =
    | Advance(reply: Reply)            // the worker's next step; `reply` is what a handler returns
    | Interrupt                        // the running handler's context is cancelled
    | Crash                            // the process dies, or the loop gives up on a database error or a panic
    | Restart                          // a new process starts
    | CancelRun(reason: string)        // durable cancel
    | SetStop(on: bool, reason: string)

  function WorkerStep(s: System, reply: Reply): (Ledger, Pc) {
    if InRecovery(s.pc) then RecoverStep(s.ledger, s.stop, s.pc) else DriverStep(s.ledger, s.stop, s.pc, reply)
  }

  function EventOf(s: System, reply: Reply, l: Ledger, pc: Pc): seq<Event> {
    if s.pc.Checked? && pc.Running? then [Started(s.pc.stage, s.pc.attempt)]
    else if s.pc.Running? then [Answered(s.pc.stage, reply)]
    else if pc.Returned? then [Answered(pc.stage, pc.reply)]
    else if InRecovery(s.pc) && pc.Top? then [Redriven(l.run.stage, Terminal(s.ledger))]
    else if l.run.stage != s.ledger.run.stage then [Moved(s.ledger.run.stage, l.run.stage)]
    else []
  }

  function Step(s: System, a: Action): System {
    match a
    case Advance(reply) =>
      var (l, pc) := WorkerStep(s, reply);
      s.(ledger := l, pc := pc, log := s.log + EventOf(s, reply, l, pc))
    case Interrupt => if s.pc.Running? then s.(pc := Deciding(s.pc.stage)) else s
    case Crash => s.(pc := Idle)
    case Restart => if s.pc.Idle? || s.pc.Finished? then s.(pc := Reconciling) else s
    case CancelRun(reason) => s.(ledger := Cancel(s.ledger, reason))
    case SetStop(on, reason) => s.(stop := Stop(on, if on then reason else ""))
  }

  function Perform(s: System, actions: seq<Action>): System
    decreases |actions|
  {
    if actions == [] then s else Perform(Step(s, actions[0]), actions[1..])
  }

  // A new run, about to be driven.
  function Begin(project: string, max: int, stop: Stop): System {
    System(CreateRun(None, project, max), stop, Top, [])
  }

  // ---- what a log amounts to ----

  // gate 1: verification passed since the last start of execute, repair or verify; gate 2: and then a review approved.
  datatype Tally = Tally(gate: nat, calls: nat, redrives: nat, repairEntries: nat, torn: bool)

  predicate RestartsVerification(e: Event) {
    e.Started? && (e.stage == Execute || e.stage == Repair || e.stage == Verify)
  }

  // The stage's handler returned the verdict true: verification passed, or the review approved.
  predicate SaysYes(e: Event, stage: Stage) {
    e.Answered? && e.stage == stage && Affirms(e.reply)
  }

  function NextGate(g: nat, e: Event): nat {
    if RestartsVerification(e) then 0
    else if e.Answered? && e.stage == Verify then (if Affirms(e.reply) then 1 else 0)
    else if SaysYes(e, Review) then (if g >= 1 then 2 else 0)
    else if (e.Started? || e.Answered?) && e.stage == Review then (if g >= 1 then 1 else 0)
    else g
  }

  function Count(t: Tally, e: Event): Tally {
    Tally(NextGate(t.gate, e),
          t.calls + (if e.Started? then 1 else 0),
          t.redrives + (if e.Redriven? then 1 else 0),
          t.repairEntries + (if e.Moved? && e.to == Repair then 1 else 0),
          t.torn || (e.Redriven? && e.onTerminal))
  }

  function TallyOf(log: seq<Event>): Tally {
    if log == [] then Tally(0, 0, 0, 0, false) else Count(TallyOf(log[..|log| - 1]), log[|log| - 1])
  }

  lemma TallyAppend(log: seq<Event>, e: Event)
    ensures TallyOf(log + [e]) == Count(TallyOf(log), e)
  {
    assert (log + [e])[..|log|] == log;
  }

  // ---- invariants ----

  ghost predicate HistoryOk(l: Ledger) {
    && HasEntry(l, Compile, 1)
    && (forall k :: k in l.records ==> 1 <= k.attempt <= l.run.stageAttempt)
    && (forall k :: k in l.records && l.records[k].open ==> k == Key(l.run.stage, l.run.stageAttempt, RecordEntered))
    && (forall k :: k in l.records && k.attempt == l.run.stageAttempt && k.stage != l.run.stage
          ==> HasEntry(l, k.stage, k.attempt))
    && (OpenHere(l) && HasOutcome(l, l.run.stage, l.run.stageAttempt) ==> Terminal(l))
    && (IsWaitState(l.run.state) ==> EnteredHere(l) && !OpenHere(l))
  }

  predicate RowOk(r: Run) {
    && 1 <= r.stageAttempt && r.repairAttempt <= r.maxRepairAttempts
    && (r.state.RunWaitingQuota? ==> r.stage == Execute || r.stage == Verify)
    && (r.state.RunBlocked? ==> r.stage == Ready)
    && (r.state.RunCompleted? ==> r.stage == Finalize)
    && (r.state.RunRepairExhausted? ==> r.repairAttempt == r.maxRepairAttempts)
  }

  // No record at the current attempt yet.
  ghost predicate Fresh(l: Ledger) {
    forall k :: k in l.records ==> k.attempt < l.run.stageAttempt
  }

  // A handler of this stage is about to run, runs, or has just returned.
  ghost predicate AtHandler(l: Ledger, stage: Stage) {
    stage == l.run.stage && EnteredHere(l) && if Terminal(l) then !OpenHere(l) else l.run.state.RunActive?
  }

  // The handler's outcome is durable, and the run not yet routed.
  ghost predicate Settled(l: Ledger) {
    EnteredHere(l) && !OpenHere(l) && (Terminal(l) || l.run.state.RunActive?)
  }

  predicate Repairable(stage: Stage) {
    stage == Execute || stage == Verify || stage == Review
  }

  ghost predicate PcOk(l: Ledger, pc: Pc) {
    match pc
    case Top => EnteredHere(l)
    case Checked(stage, attempt) => AtHandler(l, stage) && attempt == l.run.stageAttempt
    case Running(stage, attempt) => AtHandler(l, stage) && attempt == l.run.stageAttempt
    case Deciding(stage) => AtHandler(l, stage)
    case Cancelling(stage) => AtHandler(l, stage)
    case Returned(stage, _) => AtHandler(l, stage)
    case Completed(stage, _) => Settled(l) && stage == l.run.stage
    case Faulted(stage, _, _) => Settled(l) && stage == l.run.stage
    case Routing(stage, _, _) => Settled(l) && stage == l.run.stage
    case Rejected(_) => Settled(l) && Repairable(l.run.stage)
    case Granted(_) => Settled(l) && Repairable(l.run.stage)
    case Denied(_) => Settled(l) && Repairable(l.run.stage) && l.run.repairAttempt == l.run.maxRepairAttempts
    case Bumped => l.run.stage == Repair && if Terminal(l) then !OpenHere(l) else l.run.state.RunActive? && Fresh(l)
    case Marking(stage) => stage == l.run.stage && (Terminal(l) || l.run.state.RunActive?)
    case Marked(stage) => stage == l.run.stage && (Terminal(l) || (l.run.state.RunActive? && !OpenHere(l)))
    case Reentering(stage) =>
      stage == l.run.stage && !EnteredHere(l) && (Terminal(l) || (l.run.state.RunActive? && Fresh(l)))
    case Waking(stage) => stage == l.run.stage && (Terminal(l) || IsWaitState(l.run.state))
    case Finished(DriveOk) => Terminal(l) || IsWaitState(l.run.state)
    case _ => true
  }

  ghost predicate Torn(l: Ledger) {
    Terminal(l) && OpenHere(l)
  }

  ghost predicate GateOk(r: Run, pc: Pc, gate: nat) {
    && (r.stage == Review ==> gate >= 1)
    && (r.stage == Finalize ==> gate == 2)
    && (pc.Returned? && Affirms(pc.reply) && pc.stage == Verify ==> gate >= 1)
    && (pc.Returned? && Affirms(pc.reply) && pc.stage == Review ==> gate == 2)
    && (pc.Completed? && pc.stage == Verify ==> gate >= 1)
    && (pc.Completed? && pc.stage == Review ==> gate == 2)
  }

  predicate CountsOk(r: Run, pc: Pc, t: Tally) {
    && t.calls + CallsLeft(r, pc) <= 7 + 3 * r.maxRepairAttempts + 3 * t.redrives
    && t.repairEntries + (if pc.Granted? then 1 else 0) <= r.repairAttempt
  }

  // Every handler start was preceded by its entry record, and every finalize start by both gates.
  ghost predicate LogOk(l: Ledger, log: seq<Event>) {
    && (forall i :: 0 <= i < |log| && log[i].Started? ==> HasEntry(l, log[i].stage, log[i].attempt))
    && (forall i :: 0 <= i < |log| && log[i].Started? && log[i].stage == Finalize ==> TallyOf(log[..i]).gate == 2)
  }

  ghost predicate Inv(s: System) {
    && HistoryOk(s.ledger)
    && RowOk(s.ledger.run)
    && PcOk(s.ledger, s.pc)
    && (Torn(s.ledger) <==> TallyOf(s.log).torn)
    && GateOk(s.ledger.run, s.pc, TallyOf(s.log).gate)
    && CountsOk(s.ledger.run, s.pc, TallyOf(s.log))
    && LogOk(s.ledger, s.log)
  }

  // ---- the history under each transaction ----

  lemma CancelKeepsHistory(l: Ledger, reason: string)
    requires HistoryOk(l)
    ensures var l' := Cancel(l, reason);
            HistoryOk(l') && (Torn(l') <==> Torn(l)) && EnteredHere(l') == EnteredHere(l) && (Terminal(l) || !OpenHere(l'))
  {
  }

  lemma MarkKeepsHistory(l: Ledger, reason: string)
    requires HistoryOk(l)
    ensures var l' := MarkInterrupted(l, reason);
            HistoryOk(l') && l'.run == l.run && EnteredHere(l') == EnteredHere(l) && (if Terminal(l) then l' == l else !OpenHere(l'))
  {
  }

  lemma FinishKeepsHistory(l: Ledger, status: RecordStatus, category: Option<FailureCategory>, reason: string, evidence: string)
    requires HistoryOk(l) && EnteredHere(l) && !Torn(l)
    requires status == RecordCompleted || (status == RecordFailed && category.Some?)
    ensures var (l', out) := FinishStage(l, l.run.stage, status, category, reason, evidence);
            && HistoryOk(l') && EnteredHere(l') && !Torn(l') && (out.Done? ==> !OpenHere(l'))
            && SameRow(l.run, l'.run)
  {
  }

  lemma IncrementKeepsHistory(l: Ledger)
    requires HistoryOk(l) && (Terminal(l) || (l.run.state.RunActive? && !OpenHere(l)))
    ensures var (l', out) := IncrementStageAttempt(l);
            if Terminal(l) then l' == l && out.Refused?
            else
              && out.Done? && HistoryOk(l') && Fresh(l') && !EnteredHere(l')
              && l'.run == l.run.(stageAttempt := l.run.stageAttempt + 1)
  {
  }

  // Moving the cursor to another stage.
  lemma MoveKeepsHistory(l: Ledger, to: Stage, reason: string)
    requires HistoryOk(l) && to != l.run.stage && !OpenHere(l) && (Terminal(l) || EnteredHere(l) || Fresh(l))
    ensures var (l', out) := Transition(l, to, reason, "");
            if out.Done? then HistoryOk(l') && EnteredHere(l') && l'.run.state.RunActive? else l' == l
    ensures Terminal(l) ==> Transition(l, to, reason, "").1.Refused?
  {
  }

  // Re-entering the stage under the cursor at a new attempt.
  lemma ReenterKeepsHistory(l: Ledger, reason: string)
    requires HistoryOk(l) && !EnteredHere(l) && (Terminal(l) || Fresh(l))
    ensures var (l', out) := Transition(l, l.run.stage, reason, "");
            out.Done? && HistoryOk(l') && EnteredHere(l') && OpenHere(l') && l'.run == l.run
  {
  }

  // ---- the ledger and the program counter, step by step ----

  ghost predicate StateOk(l: Ledger, pc: Pc) {
    HistoryOk(l) && RowOk(l.run) && PcOk(l, pc)
  }

  // A handler's outcome on record, or refused.
  lemma OutcomeKeepsState(
    l: Ledger, reply: Reply, status: RecordStatus, category: Option<FailureCategory>, reason: string, evidence: string, next: Pc)
    requires StateOk(l, Returned(l.run.stage, reply))
    requires status == RecordCompleted || (status == RecordFailed && category.Some?)
    requires next == Completed(l.run.stage, evidence) || (next.Rejected? && Repairable(l.run.stage))
             || (next.Faulted? && next.stage == l.run.stage)
    ensures var (l', out) := FinishStage(l, l.run.stage, status, category, reason, evidence);
            StateOk(l', After(out, next)) && !Torn(l')
  {
    hide FinishStage, HistoryOk;
    FinishKeepsHistory(l, status, category, reason, evidence);
  }

  lemma PersistKeepsState(l: Ledger, stage: Stage, reply: Reply)
    requires StateOk(l, Returned(stage, reply))
    ensures var (l', pc') := Persist(l, stage, reply); StateOk(l', pc') && !Torn(l')
  {
    JudgedWell(l.run.stage, reply);
    hide FinishStage, StateOk, Judge, Torn, After;
    assert stage == l.run.stage by { ReturnedAtCursor(l, stage, reply); }
    match Judge(stage, reply) {
      case Accept(evidence) =>
        OutcomeKeepsState(l, reply, RecordCompleted, None, "", evidence, Completed(stage, evidence));
      case NeedsRepair(category, reason, evidence) =>
        OutcomeKeepsState(l, reply, RecordFailed, Some(category), reason, evidence, Rejected(reason));
      case Fatal(category, reason) =>
        OutcomeKeepsState(l, reply, RecordFailed, Some(category), reason, "", Faulted(stage, category, reason));
    }
  }

  lemma ReturnedAtCursor(l: Ledger, stage: Stage, reply: Reply)
    requires StateOk(l, Returned(stage, reply))
    ensures stage == l.run.stage
  {
  }

  // Only known categories are recorded, and only the stages before finalize ask for a repair.
  lemma JudgedWell(stage: Stage, reply: Reply)
    ensures match Judge(stage, reply)
            case Accept(_) => true
            case NeedsRepair(category, _, _) => IsValidFailureCategory(category) && Repairable(stage)
            case Fatal(category, _) => IsValidFailureCategory(category)
  {
  }

  lemma MoveKeepsState(l: Ledger, to: Stage, reason: string)
    requires HistoryOk(l) && RowOk(l.run) && to != l.run.stage && (Fresh(l) || !OpenHere(l))
    requires Terminal(l) || (l.run.state.RunActive? && (EnteredHere(l) || Fresh(l)))
    ensures var (l', pc') := Move(l, to, reason); StateOk(l', pc') && !Torn(l')
  {
    MoveKeepsHistory(l, to, reason);
    hide HistoryOk;
  }

  lemma RouteKeepsState(l: Ledger, to: RunState, reason: string, resultRef: string)
    requires HistoryOk(l) && RowOk(l.run) && EnteredHere(l) && !OpenHere(l)
    requires to.RunBlocked? ==> l.run.stage == Ready
    requires to.RunRepairExhausted? ==> l.run.repairAttempt == l.run.maxRepairAttempts
    ensures var (l', pc') := Route(l, to, reason, resultRef); StateOk(l', pc') && !Torn(l')
  {
  }

  lemma ProceedKeepsState(l: Ledger, evidence: string)
    requires StateOk(l, Completed(l.run.stage, evidence))
    ensures var (l', pc') := Proceed(l, l.run.stage, evidence); StateOk(l', pc') && !Torn(l')
  {
    var stage := l.run.stage;
    if stage == Repair {
      IncrementKeepsHistory(l);
    } else if stage == Finalize {
      RouteKeepsState(l, RunCompleted, "", evidence);
    } else {
      MoveKeepsState(l, NextStage(stage), "");
    }
    hide HistoryOk, Move, Route;
  }

  lemma AskRepairKeepsState(l: Ledger, reason: string)
    requires StateOk(l, Rejected(reason))
    ensures var (l', pc') := AskRepair(l, reason); StateOk(l', pc') && (Torn(l') <==> Torn(l))
  {
  }

  lemma DriverKeepsState(l: Ledger, stop: Stop, pc: Pc, reply: Reply)
    requires StateOk(l, pc) && !InRecovery(pc)
    ensures var (l', pc') := DriverStep(l, stop, pc, reply); StateOk(l', pc') && (Torn(l') <==> Torn(l))
  {
    hide DriverStep, StateOk;
    if Writes(pc) {
      WritingKeepsState(l, stop, pc, reply);
    } else {
      ReadingKeepsState(l, stop, pc, reply);
    }
  }

  // The driver's next step is a store transaction.
  predicate Writes(pc: Pc) {
    || pc.Returned? || pc.Rejected? || pc.Completed? || pc.Bumped? || pc.Granted? || pc.Denied? || pc.Routing?
    || pc.Cancelling?
  }

  lemma WritingKeepsState(l: Ledger, stop: Stop, pc: Pc, reply: Reply)
    requires StateOk(l, pc) && Writes(pc)
    ensures var (l', pc') := DriverStep(l, stop, pc, reply); StateOk(l', pc') && (Torn(l') <==> Torn(l))
  {
    hide Persist, Proceed, Move, Route, AskRepair, Cancel, HistoryOk, RowOk, Fresh;
    match pc {
      case Returned(stage, out) => PersistKeepsState(l, stage, out);
      case Rejected(reason) => AskRepairKeepsState(l, reason);
      case Completed(_, evidence) => ProceedKeepsState(l, evidence);
      case Bumped => MoveKeepsState(l, Verify, "repair applied; re-verify");
      case Granted(reason) => MoveKeepsState(l, Repair, reason);
      case Denied(reason) => RouteKeepsState(l, RunRepairExhausted, "repair budget exhausted: " + reason, "");
      case Routing(stage, category, reason) => RouteKeepsState(l, RouteState(stage, category), reason, "");
      case Cancelling(_) => CancelKeepsState(l, pc, "cancelled");
    }
  }

  lemma ReadingKeepsState(l: Ledger, stop: Stop, pc: Pc, reply: Reply)
    requires StateOk(l, pc) && !InRecovery(pc) && !Writes(pc)
    ensures var (l', pc') := DriverStep(l, stop, pc, reply); l' == l && StateOk(l, pc')
  {
    hide Persist, Proceed, Move, Route, AskRepair, Cancel, HistoryOk, RowOk, Fresh;
  }

  // Out of a wait state: in place at ready, or back to ready.
  lemma WakingKeepsState(l: Ledger)
    requires StateOk(l, Waking(l.run.stage))
    ensures var (l', pc') := RecoverStep(l, Stop(false, ""), Waking(l.run.stage));
            StateOk(l', pc') && (Torn(l') <==> Torn(l)) && (pc'.Top? || (pc'.Idle? && l' == l))
            && (Terminal(l) ==> pc'.Idle?)
  {
    if l.run.stage != Ready && !Terminal(l) {
      MoveKeepsHistory(l, Ready, "resume after restart");
    }
  }

  lemma RecoveryKeepsState(l: Ledger, stop: Stop, pc: Pc)
    requires StateOk(l, pc) && InRecovery(pc)
    ensures var (l', pc') := RecoverStep(l, stop, pc);
            && StateOk(l', pc')
            && (Torn(l') <==> Torn(l) || (pc.Reentering? && Terminal(l)))
            && (pc.Reentering? ==> !Torn(l) && pc'.Top?)
            && (pc'.Top? && Terminal(l) ==> pc.Reentering?)
  {
    hide Transition, SetRunState, MarkInterrupted, IncrementStageAttempt, HistoryOk;
    match pc {
      case Interrupting => MarkingKeepsState(l, stop, pc);
      case Marking(_) => MarkingKeepsState(l, stop, pc);
      case Marked(_) => BumpingKeepsState(l, stop, pc);
      case Reentering(_) => ReenteringKeepsState(l, stop, pc);
      case Waking(_) =>
        WakingKeepsState(l);
        assert RecoverStep(l, stop, pc) == RecoverStep(l, Stop(false, ""), pc);
      case _ => ListingKeepsState(l, stop, pc);
    }
    hide StateOk, RecoverStep;
  }

  lemma MarkingKeepsState(l: Ledger, stop: Stop, pc: Pc)
    requires StateOk(l, pc) && (pc.Interrupting? || pc.Marking?)
    ensures var (l', pc') := RecoverStep(l, stop, pc);
            StateOk(l', pc') && (Torn(l') <==> Torn(l)) && !pc'.Top?
  {
    hide MarkInterrupted, HistoryOk;
    MarkKeepsHistory(l, RESTARTED);
  }

  lemma BumpingKeepsState(l: Ledger, stop: Stop, pc: Pc)
    requires StateOk(l, pc) && pc.Marked?
    ensures var (l', pc') := RecoverStep(l, stop, pc);
            StateOk(l', pc') && (Torn(l') <==> Torn(l)) && !pc'.Top?
  {
    hide HistoryOk;
    IncrementKeepsHistory(l);
  }

  lemma ReenteringKeepsState(l: Ledger, stop: Stop, pc: Pc)
    requires StateOk(l, pc) && pc.Reentering?
    ensures var (l', pc') := RecoverStep(l, stop, pc);
            && StateOk(l', pc') && pc'.Top? && !Torn(l)
            && (Torn(l') <==> Terminal(l))
  {
    hide HistoryOk, Transition;
    ReenterKeepsHistory(l, "re-drive after restart");
  }

  lemma ListingKeepsState(l: Ledger, stop: Stop, pc: Pc)
    requires StateOk(l, pc) && (pc.Reconciling? || pc.ReconcilingActive? || pc.Resuming? || pc.Listing?)
    ensures var (l', pc') := RecoverStep(l, stop, pc); l' == l && StateOk(l, pc') && !pc'.Top?
  {
    hide HistoryOk;
  }

  lemma CancelKeepsState(l: Ledger, pc: Pc, reason: string)
    requires StateOk(l, pc)
    ensures StateOk(Cancel(l, reason), pc) && (Torn(Cancel(l, reason)) <==> Torn(l))
  {
    CancelKeepsHistory(l, reason);
  }

  // ---- the log and the counters, step by step ----

  lemma PcAtCursor(l: Ledger, pc: Pc)
    requires PcOk(l, pc)
    ensures AtCursor(l.run, pc)
  {
  }

  function LogAfter(s: System, reply: Reply): seq<Event> {
    var (l, pc) := WorkerStep(s, reply);
    s.log + EventOf(s, reply, l, pc)
  }

  // The tally after a step: unchanged, or one event counted.
  lemma TallyAfter(s: System, reply: Reply)
    ensures var (l, pc) := WorkerStep(s, reply);
            var es := EventOf(s, reply, l, pc);
            |es| <= 1 && TallyOf(LogAfter(s, reply)) == if es == [] then TallyOf(s.log) else Count(TallyOf(s.log), es[0])
  {
    hide TallyOf;
    var (l, pc) := WorkerStep(s, reply);
    var es := EventOf(s, reply, l, pc);
    if es == [] {
      assert LogAfter(s, reply) == s.log;
    } else {
      assert es == [es[0]];
      TallyAppend(s.log, es[0]);
    }
  }

  // Where a driver step takes the cursor: stay, or the one edge its program counter is about to take.
  lemma DriverMoves(l: Ledger, stop: Stop, pc: Pc, reply: Reply)
    requires AtCursor(l.run, pc)
    ensures var (l', pc') := DriverStep(l, stop, pc, reply);
            l'.run.stage == l.run.stage
            || (pc.Completed? && pc.stage != Repair && pc.stage != Finalize && l'.run.stage == NextStage(pc.stage) && pc'.Top?)
            || (pc.Bumped? && l'.run.stage == Verify && pc'.Top?)
            || (pc.Granted? && l'.run.stage == Repair && pc'.Top?)
  {
    hide Persist, Move, Route;
  }
}
