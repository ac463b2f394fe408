/**
 Startup recovery: the reconciler's interruption pass and the resume pass that
 re-drives every non-terminal run.
 */
module Recovery {
  import opened Options
  import opened Stages
  import opened Ledgers
  import opened RunStore
  import opened PipelineDriver

  const RESTARTED := "daemon restarted mid-stage"

  function OrIdle(out: Outcome, next: Pc): Pc {
    if out.Done? then next else Idle
  }

  /** One step of startup recovery for one task. */
  function RecoverStep(l: Ledger, stop: Stop, pc: Pc): (Ledger, Pc) {
    match pc
    case Reconciling => (l, if l.run.state.RunActive? then ReconcilingActive else Resuming)
    case ReconcilingActive => (l, if stop.on then Resuming else Interrupting)
    case Interrupting => (MarkInterrupted(l, RESTARTED), Resuming)
    case Resuming => (l, if stop.on then Idle else Listing)
    case Listing =>
      (l, if Terminal(l) then Idle
          else if IsWaitState(l.run.state) then Waking(l.run.stage)
          else Marking(l.run.stage))
    case Marking(stage) => (MarkInterrupted(l, RESTARTED), Marked(stage))
    case Marked(stage) =>
      var (l', out) := IncrementStageAttempt(l);
      (l', OrIdle(out, Reentering(stage)))
    case Reentering(stage) =>
      var (l', out) := Transition(l, stage, "re-drive after restart", "");
      (l', OrIdle(out, Top))
    case Waking(stage) =>
      if stage == Ready then
        var (l', out) := SetRunState(l, RunActive, "", "");
        (l', OrIdle(out, Top))
      else
        var (l', out) := Transition(l, Ready, "resume after restart", "");
        (l', OrIdle(out, Top))
    case _ => (l, pc)
  }

  predicate InRecovery(pc: Pc) {
    || pc.Reconciling? || pc.ReconcilingActive? || pc.Interrupting? || pc.Resuming? || pc.Listing?
    || pc.Marking? || pc.Marked? || pc.Reentering? || pc.Waking?
  }

  // The reconciler's pass and the resume pass over one run, the stop being off.
  function Reconciled(l: Ledger): Ledger {
    if l.run.state.RunActive? then MarkInterrupted(l, RESTARTED) else l
  }

  function Resumed(l: Ledger): Ledger {
    if Terminal(l) then l
    else if IsWaitState(l.run.state) then
      if l.run.stage == Ready then SetRunState(l, RunActive, "", "").0
      else Transition(l, Ready, "resume after restart", "").0
    else
      Transition(IncrementStageAttempt(MarkInterrupted(l, RESTARTED)).0, l.run.stage, "re-drive after restart", "").0
  }

  /** The interruption pass before the resume pass changes nothing about the outcome. */
  lemma ReconcileThenResume(l: Ledger)
    ensures Resumed(Reconciled(l)) == Resumed(l)
  {
    var m := MarkInterrupted(l, RESTARTED);
    if l.run.state.RunActive? {
      assert CloseEntry(m) == m.records;
      assert MarkInterrupted(m, RESTARTED) == m;
    }
  }

  /**
   What one resume pass achieves, for every ledger whose waiting runs are recorded as entered where they wait: a
   terminal run is left alone; any other becomes active, with an entry on record under its cursor, at its old stage
   or, out of a wait elsewhere, at ready. Only a re-driven active run gets a new attempt, which is open.
   */
  lemma RecoveryIsTotal(l: Ledger)
    requires IsWaitState(l.run.state) && l.run.stage == Ready ==> EnteredHere(l)
    ensures var l' := Resumed(l);
            if Terminal(l) then l' == l
            else
              && l'.run.state.RunActive? && EnteredHere(l')
              && l'.run.stage == (if IsWaitState(l.run.state) then Ready else l.run.stage)
              && l'.run.stageAttempt == l.run.stageAttempt + (if IsWaitState(l.run.state) then 0 else 1)
              && l'.run == l.run.(stage := l'.run.stage, state := RunActive, stageAttempt := l'.run.stageAttempt)
              && (l.run.state.RunActive? ==> Interrupted(l, l'))
              && (IsWaitState(l.run.state) ==> OnlyAt(l.records, l'.records, {Key(Ready, l.run.stageAttempt, RecordEntered)}))
  {
  }

  // The attempt l is at is closed, and on record as interrupted unless it had failed.
  predicate Interrupted(l: Ledger, after: Ledger) {
    && !OpenAt(after, l.run.stage, l.run.stageAttempt)
    && Stands(l.records, after.records, Key(l.run.stage, l.run.stageAttempt, RecordFailed),
              Record(false, Some(FailureInterrupted), RESTARTED, ""))
  }

  /** The interruption pass marks what an active run was at, and changes nothing else of it and nothing of other runs. */
  lemma ReconcilingInterrupts(l: Ledger)
    ensures Reconciled(l).run == l.run
    ensures if l.run.state.RunActive? then
              && Interrupted(l, Reconciled(l))
              && OnlyAt(l.records, Reconciled(l).records, {Key(l.run.stage, l.run.stageAttempt, RecordFailed),
                                                          Key(l.run.stage, l.run.stageAttempt, RecordEntered)})
            else Reconciled(l) == l
  {
  }

  // ---- the passes over a store ----

  class RecoveryService {
    const store: Store

    constructor (store: Store)
      ensures this.store == store
    {
      this.store := store;
    }

    /** The reconciler: every active run's in-flight stage is marked interrupted, unless the stop is on. */
    method Reconcile() returns (parked: bool)
      modifies store`ledgers
      ensures parked ==> store.ledgers == old(store.ledgers)
      ensures parked <==> store.stopped && exists t :: t in old(store.ledgers) && !Terminal(old(store.ledgers)[t])
      ensures !store.stopped ==>
                store.ledgers == map t | t in old(store.ledgers) :: Reconciled(old(store.ledgers)[t])
    {
      var tasks := store.ListActiveRuns();
      if tasks == {} {
        forall t | t in store.ledgers
          ensures Terminal(store.ledgers[t])
        {
          assert t !in tasks;
        }
        assert store.ledgers == map t | t in old(store.ledgers) :: Reconciled(old(store.ledgers)[t]);
        return false;
      }
      var on, _ := store.EmergencyStop();
      if on {
        return true;
      }
      parked := false;
      var left := tasks;
      while left != {}
        invariant left <= tasks
        invariant store.ledgers.Keys == old(store.ledgers).Keys
        invariant forall t :: t in store.ledgers ==>
                    store.ledgers[t] == if t in left then old(store.ledgers)[t] else Reconciled(old(store.ledgers)[t])
        decreases left
      {
        var task :| task in left;
        left := left - {task};
        var run := store.CurrentRun(task);
        if IsWaitState(run.value.state) {
          continue;
        }
        var _ := store.MarkInterrupted(task, RESTARTED);
      }
    }

    /** The resume pass: every listed run is re-activated or re-entered; `driven` are the runs handed to the driver. */
    method ResumeActiveRuns() returns (driven: set<TaskId>)
      modifies store`ledgers
      ensures store.stopped ==> store.ledgers == old(store.ledgers) && driven == {}
      ensures !store.stopped ==>
                && store.ledgers == (map t | t in old(store.ledgers) :: Resumed(old(store.ledgers)[t]))
                && driven == set t | t in old(store.ledgers) && !Terminal(old(store.ledgers)[t])
    {
      driven := {};
      var on, _ := store.EmergencyStop();
      if on {
        return;
      }
      var tasks := store.ListActiveRuns();
      var left := tasks;
      while left != {}
        invariant left <= tasks && driven == tasks - left
        invariant store.ledgers.Keys == old(store.ledgers).Keys
        invariant forall t :: t in store.ledgers ==>
                    store.ledgers[t] == if t in left then old(store.ledgers)[t] else Resumed(old(store.ledgers)[t])
        decreases left
      {
        var task :| task in left;
        left := left - {task};
        var resumed := ResumeRun(task);
        if resumed {
          driven := driven + {task};
        }
      }
    }

    // Resumes one listed run; reports whether it is to be driven.
    method ResumeRun(task: TaskId) returns (resumed: bool)
      requires task in store.ledgers && !Terminal(store.ledgers[task])
      modifies store`ledgers
      ensures store.ledgers == old(store.ledgers)[task := Resumed(old(store.ledgers)[task])]
      ensures resumed
    {
      var run := store.CurrentRun(task);
      var stage := run.value.stage;
      var out: Outcome;
      if IsWaitState(run.value.state) {
        if stage == Ready {
          out := store.SetRunState(task, RunActive, "", "");
        } else {
          out := store.Transition(task, Ready, "resume after restart", "");
        }
        return out.Done?;
      }
      out := store.MarkInterrupted(task, RESTARTED);
      if out.Refused? {
        return false;
      }
      out := store.IncrementStageAttempt(task);
      if out.Refused? {
        return false;
      }
      out := store.Transition(task, stage, "re-drive after restart", "");
      resumed := out.Done?;
    }
  }
}
