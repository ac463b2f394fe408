/** The Merge Governor: a deterministic verdict over the delivery gates. */
module Governor {
  import opened PolicyResolution
  import opened Testing

  datatype Decision =
    | AllowLocalResult
    | AllowPush
    | AllowChangeRequest
    | AllowMerge
    | RequireRebase
    | RequireRepair
    | PolicyBlocked
    | Quarantine

  predicate IsAllow(d: Decision) {
    d.AllowLocalResult? || d.AllowPush? || d.AllowChangeRequest? || d.AllowMerge?
  }

  datatype FindingSeverity = Info | Minor | Major | Blocker

  datatype Input = Input(
    policy: Resolved, specificationLocked: bool, scopeValid: bool, requiredChecksPassed: bool,
    acceptanceEvidenceComplete: bool, blockerFindings: int, majorFindings: int, targetAllowed: bool,
    branchCurrent: bool, budgetPolicySatisfied: bool, visualPolicySatisfied: bool,
    evidence: seq<Evidence>, tests: Summary, findings: seq<FindingSeverity>)

  datatype GateName =
    | SpecificationLocked
    | ScopeValid
    | RequiredChecksPassed
    | AcceptanceEvidenceComplete
    | BlockerFindings
    | MajorFindings
    | TargetAllowed
    | BranchCurrent
    | BudgetPolicySatisfied
    | VisualPolicySatisfied
    | TestsRequiredForMerge
    | TestsDisabledBlockedMerge
    | TestsFailedRepair
    | MandatoryReview

  datatype Gate = Gate(name: GateName, passed: bool)

  datatype Reason =
    | RebaseNeeded
    | RepairNeeded
    | TestsDisabled
    | TestsMandatory
    | ReviewBlocked
    | BlockedBy(gates: seq<GateName>)
    | Permitted

  datatype Verdict = Verdict(decision: Decision, gates: seq<Gate>, reason: Reason)

  // ---- the gates ----

  predicate TestsGated(input: Input) {
    input.policy.pipeline.merge && input.policy.pipeline.tests.requireForRemoteMerge
  }

  ghost predicate TestsPassed(input: Input) {
    input.tests.testsWereRun && Overall(input.tests.results) == StatusPassed
  }

  // Whether a gate is on the list at all.
  ghost predicate Listed(input: Input, name: GateName) {
    match name
    case TestsRequiredForMerge => TestsGated(input)
    case TestsDisabledBlockedMerge => TestsGated(input) && !input.tests.testsWereRun
    case TestsFailedRepair => TestsGated(input) && input.tests.testsWereRun && !TestsPassed(input)
    case MandatoryReview => input.policy.pipeline.merge && Blocker in input.findings
    case _ => true
  }

  // What a gate checks. The last three are listed only to fail.
  ghost predicate Holds(input: Input, name: GateName) {
    match name
    case SpecificationLocked => input.specificationLocked
    case ScopeValid => input.scopeValid
    case RequiredChecksPassed => input.requiredChecksPassed
    case AcceptanceEvidenceComplete => input.acceptanceEvidenceComplete && Complete(input.evidence)
    case BlockerFindings => input.blockerFindings == 0
    case MajorFindings => input.majorFindings == 0
    case TargetAllowed => input.targetAllowed
    case BranchCurrent => input.branchCurrent
    case BudgetPolicySatisfied => input.budgetPolicySatisfied
    case VisualPolicySatisfied => input.visualPolicySatisfied
    case TestsRequiredForMerge => TestsPassed(input)
    case TestsDisabledBlockedMerge => false
    case TestsFailedRepair => false
    case MandatoryReview => false
  }

  ghost function BaseGates(input: Input): seq<Gate> {
    [
      Gate(SpecificationLocked, input.specificationLocked),
      Gate(ScopeValid, input.scopeValid),
      Gate(RequiredChecksPassed, input.requiredChecksPassed),
      Gate(AcceptanceEvidenceComplete, input.acceptanceEvidenceComplete && Complete(input.evidence)),
      Gate(BlockerFindings, input.blockerFindings == 0),
      Gate(MajorFindings, input.majorFindings == 0),
      Gate(TargetAllowed, input.targetAllowed),
      Gate(BranchCurrent, input.branchCurrent),
      Gate(BudgetPolicySatisfied, input.budgetPolicySatisfied),
      Gate(VisualPolicySatisfied, input.visualPolicySatisfied)
    ]
  }

  ghost function TestGates(input: Input): seq<Gate> {
    if !TestsGated(input) then []
    else [Gate(TestsRequiredForMerge, TestsPassed(input))]
         + (if !input.tests.testsWereRun then [Gate(TestsDisabledBlockedMerge, false)]
            else if !TestsPassed(input) then [Gate(TestsFailedRepair, false)]
            else [])
  }

  ghost function ReviewGates(input: Input): seq<Gate> {
    if input.policy.pipeline.merge && Blocker in input.findings then [Gate(MandatoryReview, false)] else []
  }

  ghost function Gates(input: Input): seq<Gate> {
    BaseGates(input) + TestGates(input) + ReviewGates(input)
  }

  lemma BaseGatesMembers(input: Input, g: Gate)
    ensures g in BaseGates(input)
            <==> Listed(input, g.name) && g.passed == Holds(input, g.name) && !g.name.MandatoryReview?
                 && !g.name.TestsRequiredForMerge? && !g.name.TestsDisabledBlockedMerge? && !g.name.TestsFailedRepair?
  {
    var i := match g.name
             case SpecificationLocked => 0
             case ScopeValid => 1
             case RequiredChecksPassed => 2
             case AcceptanceEvidenceComplete => 3
             case BlockerFindings => 4
             case MajorFindings => 5
             case TargetAllowed => 6
             case BranchCurrent => 7
             case BudgetPolicySatisfied => 8
             case _ => 9;
    assert BaseGates(input)[i] in BaseGates(input);
  }

  lemma TestGatesMembers(input: Input, g: Gate)
    ensures g in TestGates(input)
            <==> Listed(input, g.name) && g.passed == Holds(input, g.name)
                 && (g.name.TestsRequiredForMerge? || g.name.TestsDisabledBlockedMerge? || g.name.TestsFailedRepair?)
  {
    if g.name.TestsRequiredForMerge? && TestsGated(input) {
      assert TestGates(input)[0] == Gate(TestsRequiredForMerge, TestsPassed(input));
    } else if g.name.TestsDisabledBlockedMerge? && Listed(input, g.name) {
      assert TestGates(input)[1] == Gate(TestsDisabledBlockedMerge, false);
    } else if g.name.TestsFailedRepair? && Listed(input, g.name) {
      assert TestGates(input)[1] == Gate(TestsFailedRepair, false);
    }
  }

  /** The gate list holds each listed gate, with what that gate checks, and nothing else. */
  lemma GatesAreExact(input: Input, g: Gate)
    ensures g in Gates(input) <==> Listed(input, g.name) && g.passed == Holds(input, g.name)
  {
    hide BaseGates, TestGates;
    BaseGatesMembers(input, g);
    TestGatesMembers(input, g);
  }

  method BuildGates(input: Input) returns (gates: seq<Gate>)
    ensures gates == Gates(input)
  {
    var evidenced := IsComplete(input.evidence);
    gates := [
      Gate(SpecificationLocked, input.specificationLocked),
      Gate(ScopeValid, input.scopeValid),
      Gate(RequiredChecksPassed, input.requiredChecksPassed),
      Gate(AcceptanceEvidenceComplete, input.acceptanceEvidenceComplete && evidenced),
      Gate(BlockerFindings, input.blockerFindings == 0),
      Gate(MajorFindings, input.majorFindings == 0),
      Gate(TargetAllowed, input.targetAllowed),
      Gate(BranchCurrent, input.branchCurrent),
      Gate(BudgetPolicySatisfied, input.budgetPolicySatisfied),
      Gate(VisualPolicySatisfied, input.visualPolicySatisfied)
    ];
    assert gates == BaseGates(input);
    if input.policy.pipeline.merge && input.policy.pipeline.tests.requireForRemoteMerge {
      var testsRan := input.tests.testsWereRun;
      var status := OverallStatus(input.tests);
      var testsPassed := testsRan && status == StatusPassed;
      gates := gates + [Gate(TestsRequiredForMerge, testsPassed)];
      if !testsRan {
        gates := gates + [Gate(TestsDisabledBlockedMerge, false)];
      } else if !testsPassed {
        gates := gates + [Gate(TestsFailedRepair, false)];
      }
    }
    hide BaseGates;
    assert gates == BaseGates(input) + TestGates(input);
    if input.policy.pipeline.merge {
      var found, i := false, 0;
      while i < |input.findings| && !found
        invariant 0 <= i <= |input.findings|
        invariant found <==> Blocker in input.findings[..i]
        invariant gates == BaseGates(input) + TestGates(input) + if found then [Gate(MandatoryReview, false)] else []
      {
        if input.findings[i] == Blocker {
          gates := gates + [Gate(MandatoryReview, false)];
          found := true;
        }
        i := i + 1;
      }
      assert found ==> Blocker in input.findings;
    }
  }

  // ---- the verdict ----

  // The names of the failed gates, in order.
  function Failed(gates: seq<Gate>): seq<GateName> {
    if gates == [] then []
    else
      var last := gates[|gates| - 1];
      Failed(gates[..|gates| - 1]) + if last.passed then [] else [last.name]
  }

  lemma {:induction false} FailedMembers(gates: seq<Gate>, name: GateName)
    ensures name in Failed(gates) <==> Gate(name, false) in gates
  {
    if gates != [] {
      FailedMembers(gates[..|gates| - 1], name);
      assert gates == gates[..|gates| - 1] + [gates[|gates| - 1]];
    }
  }

  lemma {:induction false} FailedPrefix(gates: seq<Gate>, n: nat)
    requires n <= |gates|
    ensures Failed(gates[..n]) <= Failed(gates)
  {
    if n == |gates| {
      assert gates[..n] == gates;
    } else {
      FailedPrefix(gates[..|gates| - 1], n);
      assert gates[..|gates| - 1][..n] == gates[..n];
    }
  }

  predicate CallsForRepair(name: GateName) {
    name.BlockerFindings? || name.MajorFindings? || name.TestsFailedRepair?
  }

  predicate IsMandatory(name: GateName) {
    name.TestsDisabledBlockedMerge? || name.TestsRequiredForMerge? || name.MandatoryReview?
  }

  function MandatoryReason(name: GateName): Reason
    requires IsMandatory(name)
  {
    match name
    case TestsDisabledBlockedMerge => TestsDisabled
    case TestsRequiredForMerge => TestsMandatory
    case MandatoryReview => ReviewBlocked
  }

  // Index of the first mandatory gate, or the length.
  function FirstMandatory(names: seq<GateName>): (i: nat)
    ensures i <= |names| && (i < |names| ==> IsMandatory(names[i]))
    ensures forall j :: 0 <= j < i ==> !IsMandatory(names[j])
  {
    if names == [] || IsMandatory(names[0]) then 0 else 1 + FirstMandatory(names[1..])
  }

  function Highest(p: Policy.Pipeline): Decision {
    if p.merge then AllowMerge
    else if p.changeRequest.create && p.git.push then AllowChangeRequest
    else if p.git.push then AllowPush
    else AllowLocalResult
  }

  ghost function DecisionOn(failed: seq<GateName>, p: Policy.Pipeline): Decision {
    if BranchCurrent in failed then RequireRebase
    else if exists n :: n in failed && CallsForRepair(n) then RequireRepair
    else if failed != [] then PolicyBlocked
    else Highest(p)
  }

  ghost function ReasonOn(failed: seq<GateName>): Reason {
    if BranchCurrent in failed then RebaseNeeded
    else if exists n :: n in failed && CallsForRepair(n) then RepairNeeded
    else if FirstMandatory(failed) < |failed| then MandatoryReason(failed[FirstMandatory(failed)])
    else if failed != [] then BlockedBy(failed)
    else Permitted
  }

  method CollectFailed(gates: seq<Gate>) returns (failed: seq<GateName>)
    ensures failed == Failed(gates)
  {
    failed := [];
    for i := 0 to |gates|
      invariant failed == Failed(gates[..i])
    {
      assert gates[..i + 1][..i] == gates[..i];
      if !gates[i].passed {
        failed := failed + [gates[i].name];
      }
    }
    assert gates[..|gates|] == gates;
  }

  method Decide(input: Input) returns (v: Verdict)
    ensures v.gates == Gates(input)
    ensures v.decision == DecisionOn(Failed(v.gates), input.policy.pipeline)
    ensures v.reason == ReasonOn(Failed(v.gates))
  {
    hide Gates, Failed, FirstMandatory, Highest;
    var gates := BuildGates(input);
    var failed := CollectFailed(gates);
    for i := 0 to |failed|
      invariant BranchCurrent !in failed[..i]
    {
      if failed[i] == BranchCurrent {
        return Verdict(RequireRebase, gates, RebaseNeeded);
      }
    }
    for i := 0 to |failed|
      invariant forall j :: 0 <= j < i ==> !CallsForRepair(failed[j])
    {
      if CallsForRepair(failed[i]) {
        return Verdict(RequireRepair, gates, RepairNeeded);
      }
    }
    for i := 0 to |failed|
      invariant forall j :: 0 <= j < i ==> !IsMandatory(failed[j])
    {
      if failed[i] == TestsDisabledBlockedMerge {
        return Verdict(PolicyBlocked, gates, TestsDisabled);
      }
      if failed[i] == TestsRequiredForMerge {
        return Verdict(PolicyBlocked, gates, TestsMandatory);
      }
      if failed[i] == MandatoryReview {
        return Verdict(PolicyBlocked, gates, ReviewBlocked);
      }
    }
    if |failed| > 0 {
      return Verdict(PolicyBlocked, gates, BlockedBy(failed));
    }
    return Verdict(Highest(input.policy.pipeline), gates, Permitted);
  }

  // ---- what the verdict means ----

  // Stated on the input alone: a merge also needs the tests, unless policy waives them, and no blocker in the review.
  ghost predicate AllGatesPass(input: Input) {
    && input.specificationLocked && input.scopeValid && input.requiredChecksPassed
    && input.acceptanceEvidenceComplete && Complete(input.evidence)
    && input.blockerFindings == 0 && input.majorFindings == 0
    && input.targetAllowed && input.branchCurrent && input.budgetPolicySatisfied && input.visualPolicySatisfied
    && (input.policy.pipeline.merge ==>
          && Blocker !in input.findings
          && (input.policy.pipeline.tests.requireForRemoteMerge ==>
                input.tests.testsWereRun && Overall(input.tests.results) == StatusPassed))
  }

  ghost predicate NeedsRepair(input: Input) {
    || input.blockerFindings != 0
    || input.majorFindings != 0
    || (TestsGated(input) && input.tests.testsWereRun && Overall(input.tests.results) != StatusPassed)
  }

  ghost function Decided(input: Input): Decision {
    DecisionOn(Failed(Gates(input)), input.policy.pipeline)
  }

  // A gate fails when it is listed and what it checks does not hold.
  lemma FailsExactly(input: Input, name: GateName)
    ensures name in Failed(Gates(input)) <==> Listed(input, name) && !Holds(input, name)
  {
    FailedMembers(Gates(input), name);
    GatesAreExact(input, Gate(name, false));
  }

  lemma NothingFails(input: Input)
    ensures Failed(Gates(input)) == [] <==> AllGatesPass(input)
  {
    hide Gates, Failed;
    forall name
      ensures name in Failed(Gates(input)) <==> Listed(input, name) && !Holds(input, name)
    {
      FailsExactly(input, name);
    }
    if Failed(Gates(input)) == [] {
      EachHolds(input);
    } else {
      assert Failed(Gates(input))[0] in Failed(Gates(input));
    }
  }

  lemma EachHolds(input: Input)
    requires forall name :: Listed(input, name) ==> Holds(input, name)
    ensures AllGatesPass(input)
  {
    assert Holds(input, SpecificationLocked) && Holds(input, ScopeValid) && Holds(input, RequiredChecksPassed);
    assert Holds(input, AcceptanceEvidenceComplete) && Holds(input, BlockerFindings) && Holds(input, MajorFindings);
    assert Holds(input, TargetAllowed) && Holds(input, BranchCurrent);
    assert Holds(input, BudgetPolicySatisfied) && Holds(input, VisualPolicySatisfied);
    assert Listed(input, TestsRequiredForMerge) ==> Holds(input, TestsRequiredForMerge);
    assert Listed(input, MandatoryReview) ==> Holds(input, MandatoryReview);
  }

  /**
   What is decided, on the input alone: a stale branch comes before any repair, a repair before any other gate, and
   an allow is given exactly when every gate passes. Quarantine is never decided.
   */
  lemma DecisionMeaning(input: Input)
    ensures Decided(input) ==
              if !input.branchCurrent then RequireRebase
              else if NeedsRepair(input) then RequireRepair
              else if !AllGatesPass(input) then PolicyBlocked
              else Highest(input.policy.pipeline)
    ensures IsAllow(Decided(input)) <==> AllGatesPass(input)
  {
    hide Gates, Failed;
    NothingFails(input);
    FailsExactly(input, BranchCurrent);
    FailsExactly(input, BlockerFindings);
    FailsExactly(input, MajorFindings);
    FailsExactly(input, TestsFailedRepair);
  }

  /** An allow is at the highest level policy takes part in: merging, change requests, pushing, or none of them. */
  lemma LevelMeaning(input: Input)
    requires AllGatesPass(input)
    ensures var p, d := input.policy.pipeline, Decided(input);
            && (d == AllowMerge <==> p.merge)
            && (d == AllowChangeRequest <==> !p.merge && p.changeRequest.create && p.git.push)
            && (d == AllowPush <==> !p.merge && !p.changeRequest.create && p.git.push)
            && (d == AllowLocalResult <==> !p.merge && !p.git.push)
  {
    hide Decided, AllGatesPass;
    DecisionMeaning(input);
  }

  /**
   The reason given, on the input alone. Among blocks, tests that did not run but are mandatory come first, then a
   review's blocker, and everything else names the gates that failed.
   */
  lemma ReasonMeaning(input: Input)
    ensures var failed := Failed(Gates(input));
            var merge := input.policy.pipeline.merge;
            ReasonOn(failed) ==
              if !input.branchCurrent then RebaseNeeded
              else if NeedsRepair(input) then RepairNeeded
              else if AllGatesPass(input) then Permitted
              else if merge && input.policy.pipeline.tests.requireForRemoteMerge && !input.tests.testsWereRun
              then TestsMandatory
              else if merge && Blocker in input.findings then ReviewBlocked
              else BlockedBy(failed)
  {
    hide Gates, Failed, FirstMandatory, AllGatesPass;
    DecisionMeaning(input);
    NothingFails(input);
    FailsExactly(input, BranchCurrent);
    FailsExactly(input, BlockerFindings);
    FailsExactly(input, MajorFindings);
    FailsExactly(input, TestsFailedRepair);
    FailsExactly(input, TestsRequiredForMerge);
    FailsExactly(input, TestsDisabledBlockedMerge);
    FailsExactly(input, MandatoryReview);
    TestsDisabledIsNeverTheReason(input);
    if TestsGated(input) && !input.tests.testsWereRun {
      TestsComeBeforeReview(input);
    }
  }

  lemma TestsComeBeforeReview(input: Input)
    requires TestsGated(input) && !input.tests.testsWereRun
    ensures var failed := Failed(Gates(input));
            var i := FirstMandatory(failed); i < |failed| && failed[i] == TestsRequiredForMerge
  {
    hide Gates, FirstMandatory;
    TestsComeAfterBase(input);
    var base, failed := Failed(BaseGates(input)), Failed(Gates(input));
    assert failed[|base|] == (base + [TestsRequiredForMerge])[|base|];
    var i := FirstMandatory(failed);
    if i < |base| {
      assert failed[i] == (base + [TestsRequiredForMerge])[i] == base[i];
      BaseIsNotMandatory(input, base[i]);
    }
  }

  lemma BaseIsNotMandatory(input: Input, name: GateName)
    requires name in Failed(BaseGates(input))
    ensures !IsMandatory(name)
  {
    FailedMembers(BaseGates(input), name);
    BaseGatesMembers(input, Gate(name, false));
  }

  /**
   A merge is blocked for "tests were disabled" in no case: the general tests gate fails first in the list, so that
   wording is never given.
   */
  lemma TestsDisabledIsNeverTheReason(input: Input)
    ensures ReasonOn(Failed(Gates(input))) != TestsDisabled
  {
    hide Gates, Failed, FirstMandatory;
    if TestsDisabledBlockedMerge in Failed(Gates(input)) {
      FailsExactly(input, TestsDisabledBlockedMerge);
      BaseIsNoTest(input);
      TestsComeAfterBase(input);
      var base, failed := Failed(BaseGates(input)), Failed(Gates(input));
      var first := FirstMandatory(failed);
      assert failed[|base|] == (base + [TestsRequiredForMerge])[|base|] == TestsRequiredForMerge;
      assert first < |base| ==> failed[first] == (base + [TestsRequiredForMerge])[first] == base[first];
    }
  }

  lemma TestsComeAfterBase(input: Input)
    requires TestsGated(input) && !input.tests.testsWereRun
    ensures Failed(BaseGates(input)) + [TestsRequiredForMerge] <= Failed(Gates(input))
  {
    hide BaseGates;
    var gates, n := Gates(input), |BaseGates(input)| + 1;
    assert gates[..n] == BaseGates(input) + [Gate(TestsRequiredForMerge, false)];
    assert gates[..n][..n - 1] == BaseGates(input);
    FailedPrefix(gates, n);
  }

  lemma BaseIsNoTest(input: Input)
    ensures TestsDisabledBlockedMerge !in Failed(BaseGates(input))
  {
    FailedMembers(BaseGates(input), TestsDisabledBlockedMerge);
    BaseGatesMembers(input, Gate(TestsDisabledBlockedMerge, false));
  }
}
