/**
 The repair counter under concurrent repair loops.

 Each loop reads the run and then issues `UPDATE ... SET repair_attempt = repair_attempt + 1 WHERE repair_attempt = ?`
 as a separate step, so the guard alone has to keep the counter within its budget.
 */
module RepairRace {

  datatype Loop =
    | Ready                 // about to read
    | HasRead(seen: nat)    // read below the budget; guarded update pending

  datatype Answer =
    | Ok(count: nat)        // ok=true and the new count
    | Spent(count: nat)     // ok=false and the count read
    | Conflict              // the guard matched no row

  // What each loop was told, newest last, next to where it stands.
  datatype Race = Race(counter: nat, budget: nat, loops: seq<Loop>, answers: seq<Answer>)

  function StepLoop(r: Race, i: nat): Race
    requires i < |r.loops|
  {
    match r.loops[i]
    case Ready =>
      if r.counter >= r.budget then r.(answers := r.answers + [Spent(r.counter)])
      else r.(loops := r.loops[i := HasRead(r.counter)])
    case HasRead(seen) =>
      if r.counter == seen then
        r.(counter := seen + 1, loops := r.loops[i := Ready], answers := r.answers + [Ok(seen + 1)])
      else
        r.(loops := r.loops[i := Ready], answers := r.answers + [Conflict])
  }

  // A schedule names the loop that moves next; names out of range do nothing.
  function RunRace(r: Race, schedule: seq<nat>): Race
    decreases |schedule|
  {
    if schedule == [] then r
    else RunRace(if schedule[0] < |r.loops| then StepLoop(r, schedule[0]) else r, schedule[1..])
  }

  function Grants(answers: seq<Answer>): nat {
    if answers == [] then 0
    else Grants(answers[..|answers| - 1]) + if answers[|answers| - 1].Ok? then 1 else 0
  }

  lemma GrantsAppend(answers: seq<Answer>, a: Answer)
    ensures Grants(answers + [a]) == Grants(answers) + if a.Ok? then 1 else 0
  {
    assert (answers + [a])[..|answers|] == answers;
  }

  // Grants handed out so far account for the counter's growth, in order and without gaps.
  ghost predicate RaceOk(r: Race, start: nat) {
    && start <= r.counter <= r.budget
    && r.counter == start + Grants(r.answers)
    && (forall i :: 0 <= i < |r.loops| && r.loops[i].HasRead? ==> r.loops[i].seen < r.budget)
    && CountsInOrder(r.answers, start)
    && (forall n :: 0 <= n < |r.answers| && r.answers[n].Spent? ==> r.answers[n].count == r.budget == r.counter)
  }

  // Each grant names the count it made.
  ghost predicate CountsInOrder(answers: seq<Answer>, start: nat) {
    forall n :: 0 <= n < |answers| && answers[n].Ok? ==> answers[n].count == start + Grants(answers[..n]) + 1
  }

  lemma CountsAppend(answers: seq<Answer>, a: Answer, start: nat)
    requires CountsInOrder(answers, start) && (a.Ok? ==> a.count == start + Grants(answers) + 1)
    ensures CountsInOrder(answers + [a], start)
  {
    forall n | 0 <= n < |answers|
      ensures (answers + [a])[n] == answers[n] && (answers + [a])[..n] == answers[..n]
    {
    }
    assert (answers + [a])[..|answers|] == answers;
  }

  lemma StepKeepsRaceOk(r: Race, start: nat, i: nat)
    requires RaceOk(r, start) && i < |r.loops|
    ensures RaceOk(StepLoop(r, i), start) && |StepLoop(r, i).loops| == |r.loops| && StepLoop(r, i).budget == r.budget
  {
    var r' := StepLoop(r, i);
    if |r'.answers| > |r.answers| {
      var a := r'.answers[|r.answers|];
      assert r'.answers == r.answers + [a];
      GrantsAppend(r.answers, a);
      CountsAppend(r.answers, a, start);
    }
    hide CountsInOrder, Grants;
  }

  /**
   For any number of loops and any schedule: the counter never passes the budget, it grows by one for each ok=true
   and by nothing else, the counts handed out are all different, and ok=false is only said when the budget is spent.
   */
  lemma {:induction false} CounterStaysWithinBudget(r: Race, start: nat, schedule: seq<nat>)
    requires RaceOk(r, start)
    ensures RaceOk(RunRace(r, schedule), start)
    decreases |schedule|
  {
    if schedule != [] {
      if schedule[0] < |r.loops| {
        StepKeepsRaceOk(r, start, schedule[0]);
      }
      CounterStaysWithinBudget(if schedule[0] < |r.loops| then StepLoop(r, schedule[0]) else r, start, schedule[1..]);
    }
  }

  lemma RaceOutcome(start: nat, budget: nat, loops: nat, schedule: seq<nat>)
    requires start <= budget
    ensures var r := RunRace(Race(start, budget, seq(loops, _ => Ready), []), schedule);
            && r.counter <= budget
            && r.counter - start == Grants(r.answers)
            && (forall m, n :: 0 <= m < n < |r.answers| && r.answers[m].Ok? && r.answers[n].Ok?
                  ==> r.answers[m].count < r.answers[n].count)
            && (forall n :: 0 <= n < |r.answers| && r.answers[n].Spent? ==> r.answers[n].count == budget)
  {
    CounterStaysWithinBudget(Race(start, budget, seq(loops, _ => Ready), []), start, schedule);
    BudgetUnchanged(Race(start, budget, seq(loops, _ => Ready), []), schedule);
    var r := RunRace(Race(start, budget, seq(loops, _ => Ready), []), schedule);
    forall m, n | 0 <= m < n < |r.answers| && r.answers[m].Ok? && r.answers[n].Ok?
      ensures r.answers[m].count < r.answers[n].count
    {
      GrantsAppend(r.answers[..m], r.answers[m]);
      assert r.answers[..m + 1] == r.answers[..m] + [r.answers[m]];
      GrantsGrow(r.answers, m + 1, n);
    }
  }

  lemma BudgetUnchanged(r: Race, schedule: seq<nat>)
    ensures RunRace(r, schedule).budget == r.budget
    decreases |schedule|
  {
    if schedule != [] {
      BudgetUnchanged(if schedule[0] < |r.loops| then StepLoop(r, schedule[0]) else r, schedule[1..]);
    }
  }

  lemma GrantsGrow(answers: seq<Answer>, m: nat, n: nat)
    requires m <= n <= |answers|
    ensures Grants(answers[..m]) <= Grants(answers[..n])
    decreases n
  {
    if m < n {
      GrantsGrow(answers, m, n - 1);
      assert answers[..n][..n - 1] == answers[..n - 1];
    }
  }

  // ---- a loop alone ----

  function Alone(n: nat): seq<nat> {
    seq(n, _ => 0)
  }

  // The next k grants from this count on.
  function NextGrants(count: nat, k: nat): seq<Answer>
    decreases k
  {
    if k == 0 then [] else [Ok(count + 1)] + NextGrants(count + 1, k - 1)
  }

  lemma AloneStep(r: Race, n: nat)
    requires |r.loops| == 1
    ensures RunRace(r, Alone(n + 1)) == RunRace(StepLoop(r, 0), Alone(n)) && RunRace(r, Alone(0)) == r
  {
    assert Alone(n + 1)[1..] == Alone(n);
  }

  /** A loop that no other disturbs takes the attempts one by one until the budget is spent, and is then told so. */
  lemma {:induction false} LoneLoopIsGranted(count: nat, budget: nat, answers: seq<Answer>, k: nat)
    requires count + k <= budget
    ensures RunRace(Race(count, budget, [Ready], answers), Alone(2 * k))
         == Race(count + k, budget, [Ready], answers + NextGrants(count, k))
    ensures count + k == budget ==>
              RunRace(Race(count, budget, [Ready], answers), Alone(2 * k + 1))
              == Race(budget, budget, [Ready], answers + NextGrants(count, k) + [Spent(budget)])
    decreases k
  {
    var r := Race(count, budget, [Ready], answers);
    if k == 0 {
      AloneStep(r, 0);
      AloneStep(StepLoop(r, 0), 0);
      assert answers + [] == answers;
    } else {
      var read := StepLoop(r, 0);
      var granted := StepLoop(read, 0);
      assert granted == Race(count + 1, budget, [Ready], answers + [Ok(count + 1)]);
      AloneStep(r, 2 * k - 1);
      AloneStep(read, 2 * k - 2);
      AloneStep(r, 2 * k);
      AloneStep(read, 2 * k - 1);
      LoneLoopIsGranted(count + 1, budget, answers + [Ok(count + 1)], k - 1);
      assert answers + [Ok(count + 1)] + NextGrants(count + 1, k - 1) == answers + NextGrants(count, k);
    }
  }
}
