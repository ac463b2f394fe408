/**
 Policy resolution: merging a task override into a project's pipeline, the mandatory
 checks, the dependency rules and the network lock.
 */
module Policy {

  datatype TriState = TriAuto | TriOn | TriOff

  datatype DesignConfig = DesignConfig(generate: bool, humanSelection: bool, visualVerification: bool)

  datatype TestsConfig = TestsConfig(
    generate: bool, modifyExisting: bool, runExisting: bool, runGenerated: bool,
    requiredForCompletion: bool, requireForLocalResult: bool, requireForRemoteMerge: bool)

  datatype ReviewConfig = ReviewConfig(aiReview: bool, securityReview: TriState, architectureReview: TriState)

  datatype GitConfig = GitConfig(localCheckpointCommits: bool, finalLocalCommit: bool, push: bool)

  datatype ChangeRequestConfig = ChangeRequestConfig(create: bool, updateExisting: bool)

  datatype PostMergeConfig = PostMergeConfig(enabled: bool, autoRevert: bool)

  datatype Pipeline = Pipeline(
    specification: bool, planning: bool, design: DesignConfig, implementation: bool, tests: TestsConfig,
    review: ReviewConfig, git: GitConfig, changeRequest: ChangeRequestConfig, merge: bool, postMerge: PostMergeConfig)

  // The 22 boolean toggles, by name.
  datatype Toggle =
    | SpecificationEnabled
    | PlanningEnabled
    | ImplementationEnabled
    | DesignGenerate
    | DesignHumanSelection
    | DesignVisualVerification
    | TestsGenerate
    | TestsModifyExisting
    | TestsRunExisting
    | TestsRunGenerated
    | TestsRequiredForCompletion
    | TestsRequireForLocalResult
    | TestsRequireForRemoteMerge
    | ReviewAIReview
    | GitLocalCheckpointCommits
    | GitFinalLocalCommit
    | GitPush
    | ChangeRequestCreate
    | ChangeRequestUpdateExisting
    | MergeEnabled
    | PostMergeEnabled
    | PostMergeAutoRevert

  const TOGGLES: seq<Toggle> := [
    SpecificationEnabled, PlanningEnabled, ImplementationEnabled, DesignGenerate, DesignHumanSelection,
    DesignVisualVerification, TestsGenerate, TestsModifyExisting, TestsRunExisting, TestsRunGenerated,
    TestsRequiredForCompletion, TestsRequireForLocalResult, TestsRequireForRemoteMerge, ReviewAIReview,
    GitLocalCheckpointCommits, GitFinalLocalCommit, GitPush, ChangeRequestCreate,
    ChangeRequestUpdateExisting, MergeEnabled, PostMergeEnabled, PostMergeAutoRevert
  ]

  function Get(p: Pipeline, t: Toggle): bool {
    match t
    case SpecificationEnabled => p.specification
    case PlanningEnabled => p.planning
    case ImplementationEnabled => p.implementation
    case DesignGenerate => p.design.generate
    case DesignHumanSelection => p.design.humanSelection
    case DesignVisualVerification => p.design.visualVerification
    case TestsGenerate => p.tests.generate
    case TestsModifyExisting => p.tests.modifyExisting
    case TestsRunExisting => p.tests.runExisting
    case TestsRunGenerated => p.tests.runGenerated
    case TestsRequiredForCompletion => p.tests.requiredForCompletion
    case TestsRequireForLocalResult => p.tests.requireForLocalResult
    case TestsRequireForRemoteMerge => p.tests.requireForRemoteMerge
    case ReviewAIReview => p.review.aiReview
    case GitLocalCheckpointCommits => p.git.localCheckpointCommits
    case GitFinalLocalCommit => p.git.finalLocalCommit
    case GitPush => p.git.push
    case ChangeRequestCreate => p.changeRequest.create
    case ChangeRequestUpdateExisting => p.changeRequest.updateExisting
    case MergeEnabled => p.merge
    case PostMergeEnabled => p.postMerge.enabled
    case PostMergeAutoRevert => p.postMerge.autoRevert
  }

  function Set(p: Pipeline, t: Toggle, on: bool): Pipeline {
    match t
    case SpecificationEnabled => p.(specification := on)
    case PlanningEnabled => p.(planning := on)
    case ImplementationEnabled => p.(implementation := on)
    case DesignGenerate => p.(design := p.design.(generate := on))
    case DesignHumanSelection => p.(design := p.design.(humanSelection := on))
    case DesignVisualVerification => p.(design := p.design.(visualVerification := on))
    case TestsGenerate => p.(tests := p.tests.(generate := on))
    case TestsModifyExisting => p.(tests := p.tests.(modifyExisting := on))
    case TestsRunExisting => p.(tests := p.tests.(runExisting := on))
    case TestsRunGenerated => p.(tests := p.tests.(runGenerated := on))
    case TestsRequiredForCompletion => p.(tests := p.tests.(requiredForCompletion := on))
    case TestsRequireForLocalResult => p.(tests := p.tests.(requireForLocalResult := on))
    case TestsRequireForRemoteMerge => p.(tests := p.tests.(requireForRemoteMerge := on))
    case ReviewAIReview => p.(review := p.review.(aiReview := on))
    case GitLocalCheckpointCommits => p.(git := p.git.(localCheckpointCommits := on))
    case GitFinalLocalCommit => p.(git := p.git.(finalLocalCommit := on))
    case GitPush => p.(git := p.git.(push := on))
    case ChangeRequestCreate => p.(changeRequest := p.changeRequest.(create := on))
    case ChangeRequestUpdateExisting => p.(changeRequest := p.changeRequest.(updateExisting := on))
    case MergeEnabled => p.(merge := on)
    case PostMergeEnabled => p.(postMerge := p.postMerge.(enabled := on))
    case PostMergeAutoRevert => p.(postMerge := p.postMerge.(autoRevert := on))
  }

  // Setting one toggle is reading it back, and no other toggle or review switch moves.
  lemma SetThenGet(p: Pipeline, t: Toggle, on: bool, other: Toggle)
    ensures Get(Set(p, t, on), other) == if other == t then on else Get(p, other)
    ensures SameSwitches(Set(p, t, on), p)
  {
    hide Get, Set;
    if IsTests(t) && RequiresTests(t) {
      SetRequiredTestsThenGet(p, t, on, other);
    } else if IsTests(t) {
      SetTestsThenGet(p, t, on, other);
    } else if IsStage(t) {
      SetStageThenGet(p, t, on, other);
    } else if IsGit(t) {
      SetGitThenGet(p, t, on, other);
    } else {
      SetDeliveryThenGet(p, t, on, other);
    }
  }

  predicate IsGit(t: Toggle) {
    t.GitLocalCheckpointCommits? || t.GitFinalLocalCommit? || t.GitPush?
  }

  lemma SetGitThenGet(p: Pipeline, t: Toggle, on: bool, other: Toggle)
    requires IsGit(t)
    ensures Get(Set(p, t, on), other) == if other == t then on else Get(p, other)
    ensures SameSwitches(Set(p, t, on), p)
  {
  }

  predicate IsTests(t: Toggle) {
    || t.TestsGenerate? || t.TestsModifyExisting? || t.TestsRunExisting? || t.TestsRunGenerated?
    || t.TestsRequiredForCompletion? || t.TestsRequireForLocalResult? || t.TestsRequireForRemoteMerge?
  }

  predicate RequiresTests(t: Toggle) {
    t.TestsRequiredForCompletion? || t.TestsRequireForLocalResult? || t.TestsRequireForRemoteMerge?
  }

  predicate IsStage(t: Toggle) {
    || t.SpecificationEnabled? || t.PlanningEnabled? || t.ImplementationEnabled? || t.DesignGenerate?
    || t.DesignHumanSelection? || t.DesignVisualVerification? || t.ReviewAIReview?
  }

  lemma SetRequiredTestsThenGet(p: Pipeline, t: Toggle, on: bool, other: Toggle)
    requires RequiresTests(t)
    ensures Get(Set(p, t, on), other) == if other == t then on else Get(p, other)
    ensures SameSwitches(Set(p, t, on), p)
  {
  }

  lemma SetTestsThenGet(p: Pipeline, t: Toggle, on: bool, other: Toggle)
    requires IsTests(t) && !RequiresTests(t)
    ensures Get(Set(p, t, on), other) == if other == t then on else Get(p, other)
    ensures SameSwitches(Set(p, t, on), p)
  {
  }

  lemma SetStageThenGet(p: Pipeline, t: Toggle, on: bool, other: Toggle)
    requires IsStage(t)
    ensures Get(Set(p, t, on), other) == if other == t then on else Get(p, other)
    ensures SameSwitches(Set(p, t, on), p)
  {
  }

  lemma SetDeliveryThenGet(p: Pipeline, t: Toggle, on: bool, other: Toggle)
    requires !IsTests(t) && !IsStage(t) && !IsGit(t)
    ensures Get(Set(p, t, on), other) == if other == t then on else Get(p, other)
    ensures SameSwitches(Set(p, t, on), p)
  {
  }

  predicate SameSwitches(p: Pipeline, q: Pipeline) {
    p.review.securityReview == q.review.securityReview && p.review.architectureReview == q.review.architectureReview
  }

  // Where a toggle stands in the list.
  function Position(t: Toggle): nat {
    match t
    case SpecificationEnabled => 0
    case PlanningEnabled => 1
    case ImplementationEnabled => 2
    case DesignGenerate => 3
    case DesignHumanSelection => 4
    case DesignVisualVerification => 5
    case TestsGenerate => 6
    case TestsModifyExisting => 7
    case TestsRunExisting => 8
    case TestsRunGenerated => 9
    case TestsRequiredForCompletion => 10
    case TestsRequireForLocalResult => 11
    case TestsRequireForRemoteMerge => 12
    case ReviewAIReview => 13
    case GitLocalCheckpointCommits => 14
    case GitFinalLocalCommit => 15
    case GitPush => 16
    case ChangeRequestCreate => 17
    case ChangeRequestUpdateExisting => 18
    case MergeEnabled => 19
    case PostMergeEnabled => 20
    case PostMergeAutoRevert => 21
  }

  lemma EveryToggleIsListed(t: Toggle)
    ensures t in TOGGLES
  {
    assert TOGGLES[Position(t)] == t;
  }

  lemma ToggleListHasNoRepeats(i: nat, j: nat)
    requires i < j < |TOGGLES|
    ensures TOGGLES[i] != TOGGLES[j]
  {
    PositionIsIndex(i);
    PositionIsIndex(j);
  }

  lemma PositionIsIndex(i: nat)
    requires i < |TOGGLES|
    ensures Position(TOGGLES[i]) == i
  {
  }

  predicate Agree(p: Pipeline, q: Pipeline, t: Toggle) {
    Get(p, t) == Get(q, t)
  }

  lemma SameDesign(p: Pipeline, q: Pipeline)
    requires Agree(p, q, DesignGenerate) && Agree(p, q, DesignHumanSelection)
    requires Agree(p, q, DesignVisualVerification)
    ensures p.design == q.design
  {
  }

  lemma SameTests(p: Pipeline, q: Pipeline)
    requires Agree(p, q, TestsGenerate) && Agree(p, q, TestsModifyExisting) && Agree(p, q, TestsRunExisting)
    requires Agree(p, q, TestsRunGenerated) && Agree(p, q, TestsRequiredForCompletion)
    requires Agree(p, q, TestsRequireForLocalResult) && Agree(p, q, TestsRequireForRemoteMerge)
    ensures p.tests == q.tests
  {
  }

  lemma SameGit(p: Pipeline, q: Pipeline)
    requires Agree(p, q, GitLocalCheckpointCommits) && Agree(p, q, GitFinalLocalCommit) && Agree(p, q, GitPush)
    ensures p.git == q.git
  {
  }

  lemma SameRest(p: Pipeline, q: Pipeline)
    requires Agree(p, q, SpecificationEnabled) && Agree(p, q, PlanningEnabled)
    requires Agree(p, q, ImplementationEnabled) && Agree(p, q, ReviewAIReview)
    requires Agree(p, q, ChangeRequestCreate) && Agree(p, q, ChangeRequestUpdateExisting)
    requires Agree(p, q, MergeEnabled) && Agree(p, q, PostMergeEnabled) && Agree(p, q, PostMergeAutoRevert)
    ensures p.specification == q.specification && p.planning == q.planning && p.implementation == q.implementation
            && p.review.aiReview == q.review.aiReview && p.changeRequest == q.changeRequest && p.merge == q.merge
            && p.postMerge == q.postMerge
  {
  }

  // Pipelines agreeing on every toggle and both switches are equal.
  lemma SamePipeline(p: Pipeline, q: Pipeline)
    requires (forall t :: Agree(p, q, t)) && SameSwitches(p, q)
    ensures p == q
  {
    hide Agree;
    SameDesign(p, q);
    SameTests(p, q);
    SameGit(p, q);
    SameRest(p, q);
  }

  // ---- merging a task override: only restrict ----

  // Off is the most restrictive; the switches otherwise follow the project.
  function TriRank(t: TriState): nat {
    match t
    case TriOff => 2
    case TriAuto => 1
    case TriOn => 0
  }

  predicate MoreRestrictive(a: TriState, b: TriState) {
    TriRank(a) > TriRank(b)
  }

  function TriToBool(t: TriState): bool {
    t != TriOff
  }

  datatype Switch = SecurityReview | ArchitectureReview

  datatype Check = MandatoryAI | MandatorySecurity | MandatoryArchitecture

  datatype Adjustment =
    | ForcedOff(toggle: Toggle, because: Toggle)
    | LocalMergeMode

  datatype Violation =
    | OverrideClamped(toggle: Toggle)
    | SwitchClamped(switch: Switch)
    | MandatoryRestored(check: Check)
    | Normalized(adjustment: Adjustment)
    | NetworkLocked(toggle: Toggle)
    | VisualVerificationRequired

  datatype Severity = SeverityInfo | SeverityWarn | SeverityBlock

  function SeverityOf(v: Violation): Severity {
    match v
    case Normalized(_) => SeverityInfo
    case NetworkLocked(_) => SeverityBlock
    case VisualVerificationRequired => SeverityBlock
    case _ => SeverityWarn
  }

  /** A network lock and missing visual verification block; a normalisation informs; everything else warns. */
  lemma SeverityMeaning(v: Violation)
    ensures SeverityOf(v) == SeverityBlock <==> v.NetworkLocked? || v == VisualVerificationRequired
    ensures SeverityOf(v) == SeverityInfo <==> v.Normalized?
  {
  }

  // The pointwise conjunction of base and override, and the merged switches.
  function Meet(base: Pipeline, over: Pipeline): Pipeline {
    Pipeline(
      base.specification && over.specification,
      base.planning && over.planning,
      DesignConfig(base.design.generate && over.design.generate,
                   base.design.humanSelection && over.design.humanSelection,
                   base.design.visualVerification && over.design.visualVerification),
      base.implementation && over.implementation,
      TestsConfig(base.tests.generate && over.tests.generate,
                  base.tests.modifyExisting && over.tests.modifyExisting,
                  base.tests.runExisting && over.tests.runExisting,
                  base.tests.runGenerated && over.tests.runGenerated,
                  base.tests.requiredForCompletion && over.tests.requiredForCompletion,
                  base.tests.requireForLocalResult && over.tests.requireForLocalResult,
                  base.tests.requireForRemoteMerge && over.tests.requireForRemoteMerge),
      ReviewConfig(base.review.aiReview && over.review.aiReview,
                   MergedTri(base.review.securityReview, over.review.securityReview),
                   MergedTri(base.review.architectureReview, over.review.architectureReview)),
      GitConfig(base.git.localCheckpointCommits && over.git.localCheckpointCommits,
                base.git.finalLocalCommit && over.git.finalLocalCommit,
                base.git.push && over.git.push),
      ChangeRequestConfig(base.changeRequest.create && over.changeRequest.create,
                          base.changeRequest.updateExisting && over.changeRequest.updateExisting),
      base.merge && over.merge,
      PostMergeConfig(base.postMerge.enabled && over.postMerge.enabled,
                      base.postMerge.autoRevert && over.postMerge.autoRevert))
  }

  function MergedTri(base: TriState, over: TriState): TriState {
    if over == TriAuto || over == base then base
    else if MoreRestrictive(over, base) then over
    else base
  }

  /** A review switch gates as the conjunction of both sides, and never ends up anything but one of them. */
  lemma MergedTriRestricts(base: TriState, over: TriState)
    ensures TriToBool(MergedTri(base, over)) == (TriToBool(base) && TriToBool(over))
    ensures MergedTri(base, over) != base ==> MergedTri(base, over) == over == TriOff
  {
  }

  // The order the code's own comment gives: on before auto before off.
  function DocumentedRank(t: TriState): nat {
    match t
    case TriOn => 2
    case TriAuto => 1
    case TriOff => 0
  }

  /** The merged switch is the more restrictive one of that order only for equal sides, and for auto over on. */
  lemma DocumentedOrderHoldsExactly(base: TriState, over: TriState)
    ensures MergedTri(base, over) == (if DocumentedRank(over) > DocumentedRank(base) then over else base)
            <==> over == base || (base == TriOn && over == TriAuto)
  {
  }

  lemma MeetIsPointwise(base: Pipeline, over: Pipeline, t: Toggle)
    ensures Get(Meet(base, over), t) == (Get(base, t) && Get(over, t))
  {
  }

  // The clamps to report for the first n toggles, in list order.
  function Clamps(base: Pipeline, over: Pipeline, n: nat): seq<Violation>
    requires n <= |TOGGLES|
  {
    if n == 0 then []
    else Clamps(base, over, n - 1)
         + if Get(over, TOGGLES[n - 1]) && !Get(base, TOGGLES[n - 1]) then [OverrideClamped(TOGGLES[n - 1])] else []
  }

  /** A clamp is reported for exactly the toggles the override tried to enable against the project. */
  lemma {:induction false} ClampsAreExact(base: Pipeline, over: Pipeline, n: nat, v: Violation)
    requires n <= |TOGGLES|
    ensures v in Clamps(base, over, n)
            <==> v.OverrideClamped? && v.toggle in TOGGLES[..n] && Get(over, v.toggle) && !Get(base, v.toggle)
  {
    hide Get;
    if n > 0 {
      ClampsAreExact(base, over, n - 1, v);
      var t := TOGGLES[n - 1];
      assert TOGGLES[..n] == TOGGLES[..n - 1] + [t];
    }
  }

  function SwitchClamp(base: TriState, over: TriState, switch: Switch): seq<Violation> {
    if over != TriAuto && over != base && !MoreRestrictive(over, base) then [SwitchClamped(switch)] else []
  }

  method MergeTri(base: TriState, over: TriState, switch: Switch, vs: seq<Violation>)
    returns (merged: TriState, out: seq<Violation>)
    ensures merged == MergedTri(base, over)
    ensures out == vs + SwitchClamp(base, over, switch)
  {
    out := vs;
    if over == TriAuto || over == base {
      return base, out;
    }
    if MoreRestrictive(over, base) {
      return over, out;
    }
    out := out + [SwitchClamped(switch)];
    merged := base;
  }

  /** The loop over the named toggles computes the pointwise conjunction. */
  method MergeRestrict(base: Pipeline, over: Pipeline, vs: seq<Violation>)
    returns (merged: Pipeline, out: seq<Violation>)
    ensures merged == Meet(base, over)
    ensures out == vs + Clamps(base, over, |TOGGLES|)
                   + SwitchClamp(base.review.securityReview, over.review.securityReview, SecurityReview)
                   + SwitchClamp(base.review.architectureReview, over.review.architectureReview, ArchitectureReview)
  {
    hide Get, Set, Meet;
    merged, out := base, vs;
    var i := 0;
    while i < |TOGGLES|
      invariant 0 <= i <= |TOGGLES|
      invariant SameSwitches(merged, base)
      invariant forall j {:trigger TOGGLES[j]} :: 0 <= j < i ==> Get(merged, TOGGLES[j]) == (Get(base, TOGGLES[j]) && Get(over, TOGGLES[j]))
      invariant forall j {:trigger TOGGLES[j]} :: i <= j < |TOGGLES| ==> Get(merged, TOGGLES[j]) == Get(base, TOGGLES[j])
      invariant out == vs + Clamps(base, over, i)
    {
      var t := TOGGLES[i];
      var effective := Get(base, t) && Get(over, t);
      forall j | 0 <= j < |TOGGLES|
        ensures Get(Set(merged, t, effective), TOGGLES[j]) == if j == i then effective else Get(merged, TOGGLES[j])
      {
        SetThenGet(merged, t, effective, TOGGLES[j]);
        if j < i { ToggleListHasNoRepeats(j, i); } else if i < j { ToggleListHasNoRepeats(i, j); }
      }
      SetThenGet(merged, t, effective, t);
      merged := Set(merged, t, effective);
      if Get(over, t) && !Get(base, t) {
        out := out + [OverrideClamped(t)];
      }
      i := i + 1;
    }
    ghost var looped := merged;
    var security, architecture;
    security, out := MergeTri(base.review.securityReview, over.review.securityReview, SecurityReview, out);
    architecture, out := MergeTri(base.review.architectureReview, over.review.architectureReview, ArchitectureReview, out);
    merged := merged.(review := merged.review.(securityReview := security, architectureReview := architecture));
    forall t
      ensures Agree(merged, Meet(base, over), t)
    {
      SwitchesAreNoToggles(looped, security, architecture, t);
      MeetIsPointwise(base, over, t);
      EveryToggleIsListed(t);
      var j :| 0 <= j < |TOGGLES| && TOGGLES[j] == t;
    }
    MeetSwitches(base, over);
    SamePipeline(merged, Meet(base, over));
  }

  lemma SwitchesAreNoToggles(p: Pipeline, security: TriState, architecture: TriState, t: Toggle)
    ensures Get(p.(review := p.review.(securityReview := security, architectureReview := architecture)), t) == Get(p, t)
  {
  }

  lemma MeetSwitches(base: Pipeline, over: Pipeline)
    ensures Meet(base, over).review.securityReview == MergedTri(base.review.securityReview, over.review.securityReview)
    ensures Meet(base, over).review.architectureReview == MergedTri(base.review.architectureReview, over.review.architectureReview)
  {
  }
}
