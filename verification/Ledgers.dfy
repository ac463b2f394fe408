/**
 The durable state of one task's run, and what each store transaction does to it.

 A ledger is the run row plus the stage history. The history is keyed by
 (stage, attempt, status), which is the uniqueness constraint of its table: an
 insert under a key already present does nothing. Every store mutation takes the
 write lock before it reads, so each is one function from ledger to ledger.
 */
module Ledgers {
  import opened Options
  import opened Stages

  datatype RecordStatus = RecordEntered | RecordCompleted | RecordFailed | RecordSkipped

  datatype Run = Run(
    project: string,
    stage: Stage,
    state: RunState,
    stageAttempt: nat,
    repairAttempt: nat,
    maxRepairAttempts: nat,
    failure: Option<FailureCategory>,
    reason: string,
    resultRef: string)

  datatype Key = Key(stage: Stage, attempt: nat, status: RecordStatus)

  // `open` means the record has no finish time yet.
  datatype Record = Record(open: bool, category: Option<FailureCategory>, reason: string, evidence: string)

  type History = map<Key, Record>

  datatype Ledger = Ledger(run: Run, records: History)

  datatype StoreError =
    | ErrRunNotFound
    | ErrUnknownCategory
    | ErrInvalidTransition(state: RunState, from: Stage, to: Stage)
    | ErrInvalidRunStateTransition(fromState: RunState, toState: RunState)
    | ErrStateRestricted(wanted: RunState, cursor: Stage)
    | ErrRunTerminal

  datatype Outcome = Done | Refused(error: StoreError)

  datatype RepairGrant = RepairGranted(count: nat) | RepairSpent(count: nat) | RepairRefused(error: StoreError)

  const DEFAULT_MAX_REPAIR_ATTEMPTS: nat := 3

  // ---- reading a ledger ----

  predicate Terminal(l: Ledger) {
    IsTerminalRunState(l.run.state)
  }

  predicate HasEntry(l: Ledger, stage: Stage, attempt: nat) {
    Key(stage, attempt, RecordEntered) in l.records
  }

  predicate OpenAt(l: Ledger, stage: Stage, attempt: nat) {
    HasEntry(l, stage, attempt) && l.records[Key(stage, attempt, RecordEntered)].open
  }

  predicate HasOutcome(l: Ledger, stage: Stage, attempt: nat) {
    || Key(stage, attempt, RecordCompleted) in l.records
    || Key(stage, attempt, RecordFailed) in l.records
  }

  predicate EnteredHere(l: Ledger) {
    HasEntry(l, l.run.stage, l.run.stageAttempt)
  }

  predicate OpenHere(l: Ledger) {
    OpenAt(l, l.run.stage, l.run.stageAttempt)
  }

  // The record stands under k: as it stood, or as r where there was none.
  predicate Stands(before: History, after: History, k: Key, r: Record) {
    k in after && after[k] == if k in before then before[k] else r
  }

  // Nothing but what is under these keys differs.
  ghost predicate OnlyAt(before: History, after: History, keys: set<Key>) {
    forall k :: k !in keys ==> (k in after <==> k in before) && (k in before ==> after[k] == before[k])
  }

  // ---- row-level edits ----

  function InsertAbsent(records: History, k: Key, r: Record): History {
    if k in records then records else records[k := r]
  }

  function CloseEntry(l: Ledger): History {
    var k := Key(l.run.stage, l.run.stageAttempt, RecordEntered);
    if k in l.records then l.records[k := l.records[k].(open := false)] else l.records
  }

  function EnsureEntered(l: Ledger, reason: string, evidence: string): Ledger {
    l.(records := InsertAbsent(l.records, Key(l.run.stage, l.run.stageAttempt, RecordEntered),
                               Record(true, None, reason, evidence)))
  }

  // ---- the transactions ----

  function CreateRun(existing: Option<Ledger>, project: string, maxRepairAttempts: int): Ledger {
    var entry := Record(true, None, "", "");
    match existing
    case Some(l) => l.(records := InsertAbsent(l.records, Key(Compile, 1, RecordEntered), entry))
    case None =>
      var max: nat := if maxRepairAttempts <= 0 then DEFAULT_MAX_REPAIR_ATTEMPTS else maxRepairAttempts;
      Ledger(Run(project, Compile, RunActive, 1, 0, max, None, "", ""),
             map[Key(Compile, 1, RecordEntered) := entry])
  }

  function Transition(l: Ledger, to: Stage, reason: string, evidence: string): (Ledger, Outcome) {
    var r := l.run;
    if r.stage == to then
      (EnsureEntered(l, reason, evidence), Done)
    else if !CanTransitionStage(r.state, r.stage, to) then
      (l, Refused(ErrInvalidTransition(r.state, r.stage, to)))
    else
      var state := if IsWaitState(r.state) then RunActive else r.state;
      (EnsureEntered(l.(run := r.(stage := to, state := state)), reason, evidence), Done)
  }

  function FinishStage(l: Ledger, stage: Stage, status: RecordStatus, category: Option<FailureCategory>,
                       reason: string, evidence: string): (Ledger, Outcome)
    requires status == RecordFailed ==> category.Some?
  {
    var r := l.run;
    var k := Key(stage, r.stageAttempt, status);
    if k in l.records then
      (l, Done)
    else if r.stage != stage then
      (l, Refused(ErrInvalidTransition(r.state, r.stage, stage)))
    else if IsTerminalRunState(r.state) then
      (l, Refused(ErrRunTerminal))
    else
      var run := if status == RecordFailed then r.(failure := category, reason := reason) else r;
      (Ledger(run, CloseEntry(l)[k := Record(false, category, reason, evidence)]), Done)
  }

  function CompleteStage(l: Ledger, stage: Stage, evidence: string): (Ledger, Outcome) {
    FinishStage(l, stage, RecordCompleted, None, "", evidence)
  }

  function FailStage(l: Ledger, stage: Stage, category: FailureCategory, reason: string, evidence: string)
    : (Ledger, Outcome)
  {
    if !IsValidFailureCategory(category) then (l, Refused(ErrUnknownCategory))
    else FinishStage(l, stage, RecordFailed, Some(category), reason, evidence)
  }

  function IncrementStageAttempt(l: Ledger): (Ledger, Outcome) {
    if Terminal(l) then (l, Refused(ErrRunTerminal))
    else (l.(run := l.run.(stageAttempt := l.run.stageAttempt + 1)), Done)
  }

  function IncrementRepairAttempt(l: Ledger): (Ledger, RepairGrant) {
    var r := l.run;
    if Terminal(l) then (l, RepairRefused(ErrRunTerminal))
    else if r.repairAttempt >= r.maxRepairAttempts then (l, RepairSpent(r.repairAttempt))
    else (l.(run := r.(repairAttempt := r.repairAttempt + 1)), RepairGranted(r.repairAttempt + 1))
  }

  // Closes the entry under the cursor and records a failure there.
  function FailHere(l: Ledger, category: FailureCategory, reason: string): History {
    InsertAbsent(CloseEntry(l), Key(l.run.stage, l.run.stageAttempt, RecordFailed),
                 Record(false, Some(category), reason, ""))
  }

  function MarkInterrupted(l: Ledger, reason: string): Ledger {
    if Terminal(l) then l
    else l.(records := FailHere(l, FailureInterrupted, if reason == "" then "run interrupted" else reason))
  }

  function SetRunState(l: Ledger, to: RunState, reason: string, resultRef: string): (Ledger, Outcome) {
    var r := l.run;
    if r.state == to then
      (l, Done)
    else if !CanTransitionRunState(r.state, to) then
      (l, Refused(ErrInvalidRunStateTransition(r.state, to)))
    else if to.RunWaitingQuota? && !r.stage.Execute? && !r.stage.Verify? then
      (l, Refused(ErrStateRestricted(to, r.stage)))
    else if to.RunCompleted? && !r.stage.Finalize? then
      (l, Refused(ErrStateRestricted(to, r.stage)))
    else
      var moved := r.(state := to);
      var detailed :=
        if (to.RunFailed? || to.RunCancelled? || to.RunRepairExhausted?) && reason != "" then
          moved.(failure := if to.RunCancelled? then Some(FailureCancelled) else r.failure, reason := reason)
        else if to.RunCompleted? && resultRef != "" then moved.(resultRef := resultRef)
        else moved;
      (l.(run := detailed), Done)
  }

  function Cancel(l: Ledger, reason: string): Ledger {
    if Terminal(l) then l
    else
      var why := if reason == "" then "cancelled" else reason;
      Ledger(l.run.(state := RunCancelled, failure := Some(FailureCancelled), reason := why),
             FailHere(l, FailureCancelled, why))
  }

  // ---- what holds of every transaction ----

  /** Any one store transaction, with its arguments. */
  datatype Transaction =
    | DoCreate(project: string, max: int)
    | DoTransition(to: Stage, reason: string, evidence: string)
    | DoComplete(stage: Stage, evidence: string)
    | DoFail(stage: Stage, category: FailureCategory, reason: string, evidence: string)
    | DoIncrementStage
    | DoIncrementRepair
    | DoMarkInterrupted(reason: string)
    | DoSetRunState(state: RunState, reason: string, resultRef: string)
    | DoCancel(reason: string)

  function Apply(l: Ledger, t: Transaction): Ledger {
    match t
    case DoCreate(project, max) => CreateRun(Some(l), project, max)
    case DoTransition(to, reason, evidence) => Transition(l, to, reason, evidence).0
    case DoComplete(stage, evidence) => CompleteStage(l, stage, evidence).0
    case DoFail(stage, category, reason, evidence) => FailStage(l, stage, category, reason, evidence).0
    case DoIncrementStage => IncrementStageAttempt(l).0
    case DoIncrementRepair => IncrementRepairAttempt(l).0
    case DoMarkInterrupted(reason) => MarkInterrupted(l, reason)
    case DoSetRunState(state, reason, resultRef) => SetRunState(l, state, reason, resultRef).0
    case DoCancel(reason) => Cancel(l, reason)
  }

  function ApplyAll(l: Ledger, ts: seq<Transaction>): Ledger
    decreases |ts|
  {
    if ts == [] then l else ApplyAll(Apply(l, ts[0]), ts[1..])
  }

  /** A terminal run's row is frozen under every sequence of transactions, and a cancelled one stays cancelled. */
  lemma {:induction false} TerminalRunsAreAbsorbing(l: Ledger, ts: seq<Transaction>)
    requires Terminal(l)
    ensures ApplyAll(l, ts).run == l.run
    decreases |ts|
  {
    if ts != [] {
      assert Apply(l, ts[0]).run == l.run;
      TerminalRunsAreAbsorbing(Apply(l, ts[0]), ts[1..]);
    }
  }

  predicate SameOrClosed(before: Record, after: Record, k: Key) {
    after == before || (k.status == RecordEntered && after == before.(open := false))
  }

  lemma TransactionsOnlyClose(l: Ledger, t: Transaction, k: Key)
    requires k in l.records
    ensures k in Apply(l, t).records && SameOrClosed(l.records[k], Apply(l, t).records[k], k)
  {
  }

  /** The history only grows: no transaction removes a key or changes a recorded outcome, and no entry reopens. */
  lemma {:induction false} HistoryIsAppendOnly(l: Ledger, ts: seq<Transaction>, k: Key)
    requires k in l.records
    ensures k in ApplyAll(l, ts).records && SameOrClosed(l.records[k], ApplyAll(l, ts).records[k], k)
    decreases |ts|
  {
    hide Apply;
    if ts != [] {
      TransactionsOnlyClose(l, ts[0], k);
      HistoryIsAppendOnly(Apply(l, ts[0]), ts[1..], k);
    }
  }

  /** Apart from the two increments, a transaction repeated any number of times leaves what it left the first time. */
  lemma {:induction false} TransactionsAreIdempotent(l: Ledger, t: Transaction, times: nat)
    requires !t.DoIncrementStage? && !t.DoIncrementRepair?
    ensures ApplyAll(l, [t] + seq(times, _ => t)) == Apply(l, t)
    decreases times
  {
    var ts := [t] + seq(times, _ => t);
    assert ts[1..] == seq(times, _ => t);
    if times > 0 {
      assert ts[1..] == [t] + seq(times - 1, _ => t);
      TransactionsAreIdempotent(Apply(l, t), t, times - 1);
      assert Apply(Apply(l, t), t) == Apply(l, t);
    }
  }

  /** Creating a run that exists returns it unchanged, as long as its first compile entry is on record. */
  lemma CreateRunKeepsAnExistingRun(l: Ledger, project: string, max: int)
    ensures CreateRun(Some(l), project, max) == l <==> HasEntry(l, Compile, 1)
  {
    if !HasEntry(l, Compile, 1) {
      assert HasEntry(CreateRun(Some(l), project, max), Compile, 1);
    }
  }

  predicate ShowsFailure(r: Run, category: FailureCategory, reason: string) {
    r.failure == Some(category) && r.reason == reason
  }

  /**
   "Last failure wins" on the run row holds exactly when this attempt of the stage has not failed before. A run
   resumed out of a wait keeps its attempt, so a second failure there leaves the first one on the row.
   */
  lemma LastFailureWins(l: Ledger, category: FailureCategory, reason: string, evidence: string)
    requires IsValidFailureCategory(category) && !Terminal(l) && !ShowsFailure(l.run, category, reason)
    ensures FailStage(l, l.run.stage, category, reason, evidence).1.Done?
    ensures ShowsFailure(FailStage(l, l.run.stage, category, reason, evidence).0.run, category, reason)
            <==> Key(l.run.stage, l.run.stageAttempt, RecordFailed) !in l.records
  {
  }
}
