/** The dependency rules, the mandatory checks, the network lock, and the policy they resolve to. */
module PolicyResolution {
  import opened Options
  import opened Policy

  datatype Profile = PlanOnly | LocalReview | RemoteReview | Autonomous | Custom

  predicate IsNetworkLocked(p: Profile) {
    p.PlanOnly? || p.LocalReview?
  }

  // ---- the dependency rules ----

  // R1-R4, R6 and R7. R5 forces nothing.
  predicate ObeysRules(p: Pipeline) {
    && (!p.git.push ==> !p.changeRequest.create && !p.merge && !p.postMerge.enabled)
    && (!p.merge ==> !p.postMerge.enabled)
    && (!p.tests.generate ==> !p.tests.modifyExisting && !p.tests.runGenerated)
  }

  // p enables nothing q does not, and has the same review switches.
  ghost predicate Below(p: Pipeline, q: Pipeline) {
    SameSwitches(p, q) && forall t :: Get(p, t) ==> Get(q, t)
  }

  // What normalisation leaves of a pipeline.
  function NormalForm(p: Pipeline): Pipeline {
    var merge := p.merge && p.git.push;
    p.(changeRequest := p.changeRequest.(create := p.changeRequest.create && p.git.push),
       merge := merge,
       postMerge := p.postMerge.(enabled := p.postMerge.enabled && merge),
       tests := p.tests.(modifyExisting := p.tests.modifyExisting && p.tests.generate,
                         runGenerated := p.tests.runGenerated && p.tests.generate))
  }

  // The toggle whose being off turned t off, if normalisation did.
  function ForcedBy(p: Pipeline, t: Toggle): Option<Toggle> {
    match t
    case ChangeRequestCreate => if p.changeRequest.create && !p.git.push then Some(GitPush) else None
    case MergeEnabled => if p.merge && !p.git.push then Some(GitPush) else None
    case PostMergeEnabled =>
      if p.postMerge.enabled && !p.git.push then Some(GitPush)
      else if p.postMerge.enabled && !p.merge then Some(MergeEnabled)
      else None
    case TestsModifyExisting => if p.tests.modifyExisting && !p.tests.generate then Some(TestsGenerate) else None
    case TestsRunGenerated => if p.tests.runGenerated && !p.tests.generate then Some(TestsGenerate) else None
    case _ => None
  }

  function Note<T>(when: bool, what: T): seq<T> {
    if when then [what] else []
  }

  function PushAdjustments(p: Pipeline): seq<Adjustment> {
    Note(p.changeRequest.create && !p.git.push, ForcedOff(ChangeRequestCreate, GitPush))
    + Note(p.merge && !p.git.push, ForcedOff(MergeEnabled, GitPush))
    + Note(p.postMerge.enabled && !p.git.push, ForcedOff(PostMergeEnabled, GitPush))
  }

  function MergeAdjustments(p: Pipeline): seq<Adjustment> {
    Note(p.postMerge.enabled && p.git.push && !p.merge, ForcedOff(PostMergeEnabled, MergeEnabled))
    + Note(!p.changeRequest.create && p.merge && p.git.push, LocalMergeMode)
  }

  function TestAdjustments(p: Pipeline): seq<Adjustment> {
    Note(p.tests.modifyExisting && !p.tests.generate, ForcedOff(TestsModifyExisting, TestsGenerate))
    + Note(p.tests.runGenerated && !p.tests.generate, ForcedOff(TestsRunGenerated, TestsGenerate))
  }

  // The adjustments in the order they are made.
  function Adjustments(p: Pipeline): seq<Adjustment> {
    PushAdjustments(p) + MergeAdjustments(p) + TestAdjustments(p)
  }

  lemma PushAdjustmentsMembers(p: Pipeline, a: Adjustment)
    ensures a in PushAdjustments(p) <==>
              a.ForcedOff? && a.because == GitPush && !p.git.push && Get(p, a.toggle)
              && (a.toggle == ChangeRequestCreate || a.toggle == MergeEnabled || a.toggle == PostMergeEnabled)
  {
  }

  lemma MergeAdjustmentsMembers(p: Pipeline, a: Adjustment)
    ensures a in MergeAdjustments(p) <==>
              || (a == ForcedOff(PostMergeEnabled, MergeEnabled) && p.postMerge.enabled && p.git.push && !p.merge)
              || (a == LocalMergeMode && !p.changeRequest.create && p.merge && p.git.push)
  {
  }

  lemma TestAdjustmentsMembers(p: Pipeline, a: Adjustment)
    ensures a in TestAdjustments(p) <==>
              a.ForcedOff? && a.because == TestsGenerate && !p.tests.generate && Get(p, a.toggle)
              && (a.toggle == TestsModifyExisting || a.toggle == TestsRunGenerated)
  {
  }

  /** Exactly what was turned off is reported, with the toggle that forced it, and local-merge mode exactly when it holds. */
  lemma AdjustmentsAreExact(p: Pipeline, t: Toggle, because: Toggle)
    ensures ForcedOff(t, because) in Adjustments(p) <==> ForcedBy(p, t) == Some(because)
    ensures LocalMergeMode in Adjustments(p) <==> NormalForm(p).merge && !NormalForm(p).changeRequest.create
  {
    hide PushAdjustments, MergeAdjustments, TestAdjustments;
    PushAdjustmentsMembers(p, ForcedOff(t, because));
    MergeAdjustmentsMembers(p, ForcedOff(t, because));
    TestAdjustmentsMembers(p, ForcedOff(t, because));
    PushAdjustmentsMembers(p, LocalMergeMode);
    MergeAdjustmentsMembers(p, LocalMergeMode);
    TestAdjustmentsMembers(p, LocalMergeMode);
  }

  method Normalize(p: Pipeline) returns (out: Pipeline, adjustments: seq<Adjustment>)
    ensures out == NormalForm(p)
    ensures adjustments == Adjustments(p)
  {
    hide PushAdjustments, MergeAdjustments, TestAdjustments;
    var fromPush, fromMerge, fromTests;
    out, fromPush := ForceFromPush(p);
    out, fromMerge := ForceFromMerge(out, p);
    out, fromTests := ForceFromTests(out, p);
    adjustments := fromPush + fromMerge + fromTests;
  }

  // Rules R4 and R5, on what R1 to R3 left of p.
  method ForceFromMerge(q: Pipeline, ghost p: Pipeline) returns (out: Pipeline, adjustments: seq<Adjustment>)
    requires q == AfterPush(p)
    ensures out == q.(postMerge := q.postMerge.(enabled := q.postMerge.enabled && q.merge))
    ensures adjustments == MergeAdjustments(p)
  {
    out := q;
    adjustments := [];
    if !out.merge && out.postMerge.enabled {
      adjustments := adjustments + [ForcedOff(PostMergeEnabled, MergeEnabled)];
      out := out.(postMerge := out.postMerge.(enabled := false));
    }
    if !out.changeRequest.create && out.merge {
      adjustments := adjustments + [LocalMergeMode];
    }
  }

  // Rules R6 and R7.
  method ForceFromTests(q: Pipeline, ghost p: Pipeline) returns (out: Pipeline, adjustments: seq<Adjustment>)
    requires q.tests == p.tests
    ensures out == q.(tests := q.tests.(modifyExisting := q.tests.modifyExisting && q.tests.generate,
                                        runGenerated := q.tests.runGenerated && q.tests.generate))
    ensures adjustments == TestAdjustments(p)
  {
    var tests := q.tests;
    adjustments := [];
    if !tests.generate && tests.modifyExisting {
      adjustments := adjustments + [ForcedOff(TestsModifyExisting, TestsGenerate)];
      tests := tests.(modifyExisting := false);
    }
    if !tests.generate && tests.runGenerated {
      adjustments := adjustments + [ForcedOff(TestsRunGenerated, TestsGenerate)];
      tests := tests.(runGenerated := false);
    }
    out := q.(tests := tests);
  }

  function AfterPush(p: Pipeline): Pipeline {
    p.(changeRequest := p.changeRequest.(create := p.changeRequest.create && p.git.push),
       merge := p.merge && p.git.push,
       postMerge := p.postMerge.(enabled := p.postMerge.enabled && p.git.push))
  }

  // Rules R1 to R3.
  method ForceFromPush(p: Pipeline) returns (out: Pipeline, adjustments: seq<Adjustment>)
    ensures out == AfterPush(p)
    ensures adjustments == PushAdjustments(p)
  {
    out := p;
    adjustments := [];
    if !p.git.push {
      if p.changeRequest.create {
        adjustments := adjustments + [ForcedOff(ChangeRequestCreate, GitPush)];
        out := out.(changeRequest := out.changeRequest.(create := false));
      }
      if p.merge {
        adjustments := adjustments + [ForcedOff(MergeEnabled, GitPush)];
        out := out.(merge := false);
      }
      if p.postMerge.enabled {
        adjustments := adjustments + [ForcedOff(PostMergeEnabled, GitPush)];
        out := out.(postMerge := out.postMerge.(enabled := false));
      }
    }
  }

  lemma ForcedOffIsWhatChanged(p: Pipeline, t: Toggle)
    ensures ForcedBy(p, t).Some? <==> Get(p, t) != Get(NormalForm(p), t)
    ensures Get(NormalForm(p), t) ==> Get(p, t)
  {
  }

  /** The normal form is the greatest pipeline below its input that obeys the rules. */
  lemma NormalFormIsGreatest(p: Pipeline, q: Pipeline)
    ensures ObeysRules(NormalForm(p)) && Below(NormalForm(p), p)
    ensures ObeysRules(q) && Below(q, p) ==> Below(q, NormalForm(p))
  {
    forall t
      ensures Get(NormalForm(p), t) ==> Get(p, t)
    {
      ForcedOffIsWhatChanged(p, t);
    }
    if ObeysRules(q) && Below(q, p) {
      forall t | Get(q, t)
        ensures Get(NormalForm(p), t)
      {
        GreatestAt(p, q, t);
      }
    }
  }

  lemma GreatestAt(p: Pipeline, q: Pipeline, t: Toggle)
    requires ObeysRules(q) && Below(q, p) && Get(q, t)
    ensures Get(NormalForm(p), t)
  {
    assert Get(p, t);
    match t {
      case ChangeRequestCreate => assert Get(q, GitPush);
      case MergeEnabled => assert Get(q, GitPush);
      case PostMergeEnabled => assert Get(q, GitPush) && Get(q, MergeEnabled);
      case TestsModifyExisting => assert Get(q, TestsGenerate);
      case TestsRunGenerated => assert Get(q, TestsGenerate);
      case _ =>
    }
  }

  /** Hence it is monotone, and its fixed points are exactly the pipelines that obey the rules. */
  lemma NormalizationIsAClosure(p: Pipeline, q: Pipeline)
    ensures Below(p, q) ==> Below(NormalForm(p), NormalForm(q))
    ensures NormalForm(p) == p <==> ObeysRules(p)
    ensures NormalForm(NormalForm(p)) == NormalForm(p)
  {
    NormalFormIsGreatest(p, p);
    if Below(p, q) {
      NormalFormIsGreatest(q, NormalForm(p));
    }
  }

  // ---- mandatory checks and the network lock ----

  datatype MandatoryChecks = MandatoryChecks(aiReview: bool, securityReview: bool, architectureReview: bool)

  datatype Security = Security(mandatory: MandatoryChecks, networkLocked: bool, allowVisualVerificationBypass: bool)

  datatype Project = Project(profile: Profile, pipeline: Pipeline, security: Security)

  datatype Resolved = Resolved(profile: Profile, pipeline: Pipeline)

  function Restored(t: TriState, mandatory: bool): TriState {
    if mandatory && t == TriOff then TriOn else t
  }

  function WithMandatory(p: Pipeline, m: MandatoryChecks): Pipeline {
    p.(review := ReviewConfig(p.review.aiReview || m.aiReview,
                              Restored(p.review.securityReview, m.securityReview),
                              Restored(p.review.architectureReview, m.architectureReview)))
  }

  function MandatoryNotes(p: Pipeline, m: MandatoryChecks): seq<Violation> {
    Note(m.aiReview && !p.review.aiReview, MandatoryRestored(MandatoryAI))
    + Note(m.securityReview && p.review.securityReview == TriOff, MandatoryRestored(MandatorySecurity))
    + Note(m.architectureReview && p.review.architectureReview == TriOff, MandatoryRestored(MandatoryArchitecture))
  }

  method EnforceMandatory(p: Pipeline, m: MandatoryChecks, vs: seq<Violation>)
    returns (out: Pipeline, reported: seq<Violation>)
    ensures out == WithMandatory(p, m)
    ensures reported == vs + MandatoryNotes(p, m)
  {
    out, reported := p, vs;
    if m.aiReview && !out.review.aiReview {
      out := out.(review := out.review.(aiReview := true));
      reported := reported + [MandatoryRestored(MandatoryAI)];
    }
    if m.securityReview && out.review.securityReview == TriOff {
      out := out.(review := out.review.(securityReview := TriOn));
      reported := reported + [MandatoryRestored(MandatorySecurity)];
    }
    if m.architectureReview && out.review.architectureReview == TriOff {
      out := out.(review := out.review.(architectureReview := TriOn));
      reported := reported + [MandatoryRestored(MandatoryArchitecture)];
    }
  }

  function Locked(p: Pipeline): Pipeline {
    p.(git := p.git.(push := false),
       changeRequest := ChangeRequestConfig(false, false),
       merge := false,
       postMerge := p.postMerge.(enabled := false))
  }

  function LockNotes(p: Pipeline): seq<Violation> {
    Note(p.git.push, NetworkLocked(GitPush))
    + Note(p.changeRequest.create, NetworkLocked(ChangeRequestCreate))
    + Note(p.merge, NetworkLocked(MergeEnabled))
  }

  method ApplyNetworkLock(p: Pipeline, vs: seq<Violation>) returns (out: Pipeline, reported: seq<Violation>)
    ensures out == Locked(p)
    ensures reported == vs + LockNotes(p)
  {
    out, reported := p, vs;
    if p.git.push {
      reported := reported + [NetworkLocked(GitPush)];
      out := out.(git := out.git.(push := false));
    }
    if p.changeRequest.create {
      reported := reported + [NetworkLocked(ChangeRequestCreate)];
      out := out.(changeRequest := out.changeRequest.(create := false));
    }
    if p.changeRequest.updateExisting {
      out := out.(changeRequest := out.changeRequest.(updateExisting := false));
    }
    if p.merge {
      reported := reported + [NetworkLocked(MergeEnabled)];
      out := out.(merge := false);
    }
    if p.postMerge.enabled {
      out := out.(postMerge := out.postMerge.(enabled := false));
    }
  }

  // ---- resolution ----

  predicate NetworkForbidden(project: Project) {
    project.security.networkLocked || IsNetworkLocked(project.profile)
  }

  function Merged(base: Pipeline, override: Option<Pipeline>): Pipeline {
    if override.Some? then Meet(base, override.value) else base
  }

  function Resolution(project: Project, override: Option<Pipeline>): Pipeline {
    var merged := Merged(project.pipeline, override);
    var normal := NormalForm(WithMandatory(merged, project.security.mandatory));
    if NetworkForbidden(project) then Locked(normal) else normal
  }

  function MergeNotes(base: Pipeline, override: Option<Pipeline>): seq<Violation> {
    match override
    case None => []
    case Some(over) =>
      Clamps(base, over, |TOGGLES|)
      + SwitchClamp(base.review.securityReview, over.review.securityReview, SecurityReview)
      + SwitchClamp(base.review.architectureReview, over.review.architectureReview, ArchitectureReview)
  }

  // Every violation resolution reports, in order.
  function Violations(project: Project, override: Option<Pipeline>, isUI: bool): seq<Violation> {
    var merged := Merged(project.pipeline, override);
    var mandated := WithMandatory(merged, project.security.mandatory);
    var adjusted := Adjustments(mandated);
    var final := Resolution(project, override);
    MergeNotes(project.pipeline, override)
    + MandatoryNotes(merged, project.security.mandatory)
    + seq(|adjusted|, i requires 0 <= i < |adjusted| => Normalized(adjusted[i]))
    + (if NetworkForbidden(project) then LockNotes(NormalForm(mandated)) else [])
    + Note(isUI && final.merge && !final.design.visualVerification && !project.security.allowVisualVerificationBypass,
           VisualVerificationRequired)
  }

  method Resolve(project: Project, override: Option<Pipeline>, isUI: bool)
    returns (resolved: Resolved, violations: seq<Violation>)
    ensures resolved == Resolved(project.profile, Resolution(project, override))
    ensures violations == Violations(project, override, isUI)
  {
    hide Meet, NormalForm, Clamps, Adjustments, MandatoryNotes, LockNotes, WithMandatory, SwitchClamp;
    var eff := project.pipeline;
    violations := [];
    if override.Some? {
      eff, violations := MergeRestrict(eff, override.value, violations);
    }
    assert eff == Merged(project.pipeline, override) && violations == MergeNotes(project.pipeline, override);
    eff, violations := EnforceMandatory(eff, project.security.mandatory, violations);
    var adjustments;
    eff, adjustments := Normalize(eff);
    violations := violations + seq(|adjustments|, i requires 0 <= i < |adjustments| => Normalized(adjustments[i]));
    if project.security.networkLocked || IsNetworkLocked(project.profile) {
      eff, violations := ApplyNetworkLock(eff, violations);
    }
    if isUI && eff.merge && !eff.design.visualVerification && !project.security.allowVisualVerificationBypass {
      violations := violations + [VisualVerificationRequired];
    }
    resolved := Resolved(project.profile, eff);
  }

  method Blocks(vs: seq<Violation>) returns (blocks: bool)
    ensures blocks <==> HasBlock(vs)
  {
    for i := 0 to |vs|
      invariant forall j :: 0 <= j < i ==> !SeverityOf(vs[j]).SeverityBlock?
    {
      if SeverityOf(vs[i]).SeverityBlock? {
        return true;
      }
    }
    return false;
  }

  ghost predicate HasBlock(vs: seq<Violation>) {
    exists v :: v in vs && SeverityOf(v).SeverityBlock?
  }

  lemma BlocksConcat(a: seq<Violation>, b: seq<Violation>)
    ensures HasBlock(a + b) <==> HasBlock(a) || HasBlock(b)
  {
    if HasBlock(a) || HasBlock(b) {
      var v :| (v in a || v in b) && SeverityOf(v).SeverityBlock?;
      assert v in a + b;
    }
  }

  lemma MergeNotesNeverBlock(base: Pipeline, override: Option<Pipeline>)
    ensures !HasBlock(MergeNotes(base, override))
  {
    if override.Some? {
      forall v | v in Clamps(base, override.value, |TOGGLES|)
        ensures !SeverityOf(v).SeverityBlock?
      {
        ClampsAreExact(base, override.value, |TOGGLES|, v);
      }
      hide Clamps;
    }
  }

  lemma LockNotesBlock(p: Pipeline)
    ensures HasBlock(LockNotes(p)) <==> p.git.push || p.changeRequest.create || p.merge
  {
    var push := Note(p.git.push, NetworkLocked(GitPush));
    var create := Note(p.changeRequest.create, NetworkLocked(ChangeRequestCreate));
    var merge := Note(p.merge, NetworkLocked(MergeEnabled));
    BlocksConcat(push + create, merge);
    BlocksConcat(push, create);
    assert p.git.push ==> push[0] in push;
    assert p.changeRequest.create ==> create[0] in create;
    assert p.merge ==> merge[0] in merge;
  }

  /**
   Resolution reports a blocking violation exactly when a lock had a push to take away, or a user-interface task would
   merge without visual verification and no exemption.
   */
  lemma ResolutionBlocksExactly(project: Project, override: Option<Pipeline>, isUI: bool)
    ensures var normal := NormalForm(WithMandatory(Merged(project.pipeline, override), project.security.mandatory));
            var final := Resolution(project, override);
            HasBlock(Violations(project, override, isUI))
            <==> || (NetworkForbidden(project) && normal.git.push)
                 || (isUI && final.merge && !final.design.visualVerification && !project.security.allowVisualVerificationBypass)
  {
    hide Meet, MergeNotes, MandatoryNotes, LockNotes, Adjustments, NormalForm, WithMandatory, HasBlock, Clamps;
    var merged := Merged(project.pipeline, override);
    var mandated := WithMandatory(merged, project.security.mandatory);
    var normal, final, adjusted := NormalForm(mandated), Resolution(project, override), Adjustments(mandated);
    var a := MergeNotes(project.pipeline, override);
    var b := MandatoryNotes(merged, project.security.mandatory);
    var c := seq(|adjusted|, i requires 0 <= i < |adjusted| => Normalized(adjusted[i]));
    var d := if NetworkForbidden(project) then LockNotes(normal) else [];
    var e := Note(isUI && final.merge && !final.design.visualVerification && !project.security.allowVisualVerificationBypass,
                  VisualVerificationRequired);
    BlocksConcat(a + b + c + d, e);
    BlocksConcat(a + b + c, d);
    BlocksConcat(a + b, c);
    BlocksConcat(a, b);
    MergeNotesNeverBlock(project.pipeline, override);
    WarningsDoNotBlock(merged, project.security.mandatory, adjusted);
    LockNotesBlock(normal);
    NormalFormIsGreatest(mandated, mandated);
    NoteBlocks(isUI && final.merge && !final.design.visualVerification && !project.security.allowVisualVerificationBypass);
  }

  /** A blocking violation does not keep merge off: there merge survives exactly where no lock takes it away. */
  lemma BlockingLeavesMergeOn(project: Project, override: Option<Pipeline>, isUI: bool)
    ensures HasBlock(Violations(project, override, isUI))
            ==> (Resolution(project, override).merge <==> !NetworkForbidden(project))
  {
    hide HasBlock, Violations, Merged, WithMandatory, NormalForm;
    ResolutionBlocksExactly(project, override, isUI);
  }

  lemma MergeNotesAreExact(base: Pipeline, override: Option<Pipeline>, v: Violation)
    ensures v in MergeNotes(base, override)
            <==> override.Some? && match v
                 case OverrideClamped(t) => Get(override.value, t) && !Get(base, t)
                 case SwitchClamped(SecurityReview) =>
                   override.value.review.securityReview == TriOn && base.review.securityReview != TriOn
                 case SwitchClamped(ArchitectureReview) =>
                   override.value.review.architectureReview == TriOn && base.review.architectureReview != TriOn
                 case _ => false
  {
    if override.Some? {
      ClampsAreExact(base, override.value, |TOGGLES|, v);
      if v.OverrideClamped? {
        EveryToggleIsListed(v.toggle);
      }
      assert TOGGLES[..|TOGGLES|] == TOGGLES;
      hide Clamps, Get;
    }
  }

  lemma MandatoryNotesAreExact(p: Pipeline, m: MandatoryChecks, v: Violation)
    ensures v in MandatoryNotes(p, m)
            <==> match v
                 case MandatoryRestored(MandatoryAI) => m.aiReview && !p.review.aiReview
                 case MandatoryRestored(MandatorySecurity) => m.securityReview && p.review.securityReview == TriOff
                 case MandatoryRestored(MandatoryArchitecture) =>
                   m.architectureReview && p.review.architectureReview == TriOff
                 case _ => false
  {
  }

  lemma LockNotesAreExact(p: Pipeline, v: Violation)
    ensures v in LockNotes(p)
            <==> v.NetworkLocked? && v.toggle in {GitPush, ChangeRequestCreate, MergeEnabled} && Get(p, v.toggle)
  {
  }

  /** Exactly what resolution changed, or refused, is reported. */
  lemma ViolationsAreExact(project: Project, override: Option<Pipeline>, isUI: bool, v: Violation)
    ensures var merged := Merged(project.pipeline, override);
            var mandated := WithMandatory(merged, project.security.mandatory);
            var final := Resolution(project, override);
            v in Violations(project, override, isUI)
            <==> match v
                 case OverrideClamped(_) => v in MergeNotes(project.pipeline, override)
                 case SwitchClamped(_) => v in MergeNotes(project.pipeline, override)
                 case MandatoryRestored(_) => v in MandatoryNotes(merged, project.security.mandatory)
                 case Normalized(a) => a in Adjustments(mandated)
                 case NetworkLocked(_) => NetworkForbidden(project) && v in LockNotes(NormalForm(mandated))
                 case VisualVerificationRequired =>
                   && isUI && final.merge && !final.design.visualVerification
                   && !project.security.allowVisualVerificationBypass
  {
    hide Meet, MergeNotes, MandatoryNotes, LockNotes, Adjustments, NormalForm, WithMandatory, Merged, Resolution;
    var merged := Merged(project.pipeline, override);
    var mandated := WithMandatory(merged, project.security.mandatory);
    MergeNotesAreExact(project.pipeline, override, v);
    MandatoryNotesAreExact(merged, project.security.mandatory, v);
    LockNotesAreExact(NormalForm(mandated), v);
    NormalizedNotes(Adjustments(mandated), v);
    hide Get;
  }

  lemma NormalizedNotes(adjusted: seq<Adjustment>, v: Violation)
    ensures v in seq(|adjusted|, i requires 0 <= i < |adjusted| => Normalized(adjusted[i]))
            <==> v.Normalized? && v.adjustment in adjusted
  {
    var notes := seq(|adjusted|, i requires 0 <= i < |adjusted| => Normalized(adjusted[i]));
    if v.Normalized? && v.adjustment in adjusted {
      var i :| 0 <= i < |adjusted| && adjusted[i] == v.adjustment;
      assert notes[i] == v;
    }
  }

  lemma WarningsDoNotBlock(p: Pipeline, m: MandatoryChecks, adjusted: seq<Adjustment>)
    ensures !HasBlock(MandatoryNotes(p, m)) && !HasBlock([])
    ensures !HasBlock(seq(|adjusted|, i requires 0 <= i < |adjusted| => Normalized(adjusted[i])))
  {
  }

  lemma NoteBlocks(when: bool)
    ensures HasBlock(Note(when, VisualVerificationRequired)) <==> when
  {
    if when {
      assert VisualVerificationRequired in Note<Violation>(when, VisualVerificationRequired);
      assert SeverityOf(VisualVerificationRequired).SeverityBlock?;
    }
  }

  // ---- what resolution guarantees ----

  /**
   The resolved pipeline is a fixed point of normalisation; it enables no toggle the project disables, and none the
   override disables, except a mandatory AI review; and every mandatory review is allowed.
   */
  lemma ResolutionOnlyRestricts(project: Project, override: Option<Pipeline>, t: Toggle)
    ensures var r := Resolution(project, override);
            && NormalForm(r) == r
            && (Get(r, t) ==> Get(project.pipeline, t) || (t == ReviewAIReview && project.security.mandatory.aiReview))
            && (Get(r, t) && override.Some? ==> Get(override.value, t) || (t == ReviewAIReview && project.security.mandatory.aiReview))
            && (project.security.mandatory.aiReview ==> r.review.aiReview)
            && (project.security.mandatory.securityReview ==> TriToBool(r.review.securityReview))
            && (project.security.mandatory.architectureReview ==> TriToBool(r.review.architectureReview))
  {
    var merged := Merged(project.pipeline, override);
    if override.Some? {
      MeetIsPointwise(project.pipeline, override.value, t);
    }
    var mandated := WithMandatory(merged, project.security.mandatory);
    MandatoryAt(merged, project.security.mandatory, t);
    ForcedOffIsWhatChanged(mandated, t);
    LockedAt(NormalForm(mandated), t);
    NormalizationIsAClosure(Resolution(project, override), mandated);
    NormalFormIsGreatest(mandated, mandated);
    hide Get, Meet;
  }

  // What a toggle needs besides itself, by R1-R4, R6 and R7.
  function DependsOn(t: Toggle): set<Toggle> {
    match t
    case ChangeRequestCreate => {GitPush}
    case MergeEnabled => {GitPush}
    case PostMergeEnabled => {GitPush, MergeEnabled}
    case TestsModifyExisting => {TestsGenerate}
    case TestsRunGenerated => {TestsGenerate}
    case _ => {}
  }

  predicate IsDeliveryToggle(t: Toggle) {
    t in {GitPush, ChangeRequestCreate, ChangeRequestUpdateExisting, MergeEnabled, PostMergeEnabled}
  }

  // Project and override both have the toggle on, or it is a mandatory AI review.
  predicate Wanted(project: Project, override: Option<Pipeline>, t: Toggle) {
    || (Get(project.pipeline, t) && (override.Some? ==> Get(override.value, t)))
    || (t == ReviewAIReview && project.security.mandatory.aiReview)
  }

  /** A toggle is on exactly when it and all it depends on are wanted, and no network lock takes it. */
  lemma TogglesResolveExactly(project: Project, override: Option<Pipeline>, t: Toggle)
    ensures Get(Resolution(project, override), t)
            <==> && Wanted(project, override, t)
                 && (forall d :: d in DependsOn(t) ==> Wanted(project, override, d))
                 && ((project.security.networkLocked || project.profile in {PlanOnly, LocalReview}) ==> !IsDeliveryToggle(t))
  {
    hide Get, Meet, NormalForm, Locked, WithMandatory, DependsOn, IsDeliveryToggle;
    var merged := Merged(project.pipeline, override);
    var mandated := WithMandatory(merged, project.security.mandatory);
    forall d
      ensures Get(mandated, d) <==> Wanted(project, override, d)
    {
      if override.Some? {
        MeetIsPointwise(project.pipeline, override.value, d);
      }
      MandatoryAt(merged, project.security.mandatory, d);
    }
    NormalAt(mandated, t);
    LockedExactly(NormalForm(mandated), t);
  }

  lemma NormalAt(p: Pipeline, t: Toggle)
    ensures Get(NormalForm(p), t) <==> Get(p, t) && forall d :: d in DependsOn(t) ==> Get(p, d)
  {
    if t == PostMergeEnabled {
      assert GitPush in DependsOn(t) && MergeEnabled in DependsOn(t);
    } else if t == ChangeRequestCreate || t == MergeEnabled {
      assert GitPush in DependsOn(t);
    } else if t == TestsModifyExisting || t == TestsRunGenerated {
      assert TestsGenerate in DependsOn(t);
    }
  }

  lemma LockedExactly(p: Pipeline, t: Toggle)
    ensures Get(Locked(p), t) <==> Get(p, t) && !IsDeliveryToggle(t)
  {
  }

  // What becomes of a review switch.
  predicate SwitchResolves(base: TriState, over: Option<TriState>, mandatory: bool, resolved: TriState) {
    if base != TriOff && over != Some(TriOff) then resolved == base
    else resolved == if mandatory then TriOn else TriOff
  }

  /** A review switch keeps the project's value unless project or override has it off; then it is on if mandatory, or off. */
  lemma SwitchesResolveExactly(project: Project, override: Option<Pipeline>)
    ensures var base, mandatory := project.pipeline.review, project.security.mandatory;
            var resolved := Resolution(project, override).review;
            && SwitchResolves(base.securityReview, if override.Some? then Some(override.value.review.securityReview) else None,
                              mandatory.securityReview, resolved.securityReview)
            && SwitchResolves(base.architectureReview,
                              if override.Some? then Some(override.value.review.architectureReview) else None,
                              mandatory.architectureReview, resolved.architectureReview)
  {
    hide Meet;
    if override.Some? {
      MeetSwitches(project.pipeline, override.value);
    }
  }

  lemma MandatoryAt(p: Pipeline, m: MandatoryChecks, t: Toggle)
    ensures Get(WithMandatory(p, m), t) == (Get(p, t) || (t == ReviewAIReview && m.aiReview))
  {
  }

  lemma LockedAt(p: Pipeline, t: Toggle)
    ensures Get(Locked(p), t) ==> Get(p, t)
    ensures ObeysRules(p) ==> ObeysRules(Locked(p))
  {
  }

  /**
   The tests-for-merge rule is on after resolution exactly when the project sets it and the override, if there is
   one, sets it too: an override can drop it.
   */
  lemma TestsForMergeSurvivesExactly(project: Project, override: Option<Pipeline>)
    ensures Resolution(project, override).tests.requireForRemoteMerge
            <==> project.pipeline.tests.requireForRemoteMerge
                 && (override.Some? ==> override.value.tests.requireForRemoteMerge)
  {
    hide NormalForm, Get;
    var merged := Merged(project.pipeline, override);
    assert NormalForm(WithMandatory(merged, project.security.mandatory)).tests.requireForRemoteMerge
        == merged.tests.requireForRemoteMerge by { NormalFormKeepsTestGate(WithMandatory(merged, project.security.mandatory)); }
  }

  lemma NormalFormKeepsTestGate(p: Pipeline)
    ensures NormalForm(p).tests.requireForRemoteMerge == p.tests.requireForRemoteMerge
  {
  }

  // ---- profiles ----

  const PLAN_ONLY_DEFAULTS :=
    Pipeline(true, true, DesignConfig(false, false, true), false,
             TestsConfig(false, false, true, false, true, false, true),
             ReviewConfig(true, TriAuto, TriAuto), GitConfig(false, false, false),
             ChangeRequestConfig(false, false), false, PostMergeConfig(false, false))

  // Also the canonical defaults of a custom profile.
  const LOCAL_REVIEW_DEFAULTS :=
    Pipeline(true, true, DesignConfig(false, false, true), true,
             TestsConfig(true, true, true, true, true, false, true),
             ReviewConfig(true, TriAuto, TriAuto), GitConfig(true, true, false),
             ChangeRequestConfig(false, false), false, PostMergeConfig(false, false))

  const REMOTE_REVIEW_DEFAULTS :=
    LOCAL_REVIEW_DEFAULTS.(git := GitConfig(true, true, true), changeRequest := ChangeRequestConfig(true, true))

  function ProfileDefaults(p: Profile): Pipeline {
    match p
    case PlanOnly => PLAN_ONLY_DEFAULTS
    case LocalReview => LOCAL_REVIEW_DEFAULTS
    case RemoteReview => REMOTE_REVIEW_DEFAULTS
    case Autonomous => REMOTE_REVIEW_DEFAULTS.(merge := true, postMerge := PostMergeConfig(true, true))
    case Custom => LOCAL_REVIEW_DEFAULTS
  }

  function NewProject(p: Profile): Project {
    Project(p, ProfileDefaults(p), Security(MandatoryChecks(false, false, false), IsNetworkLocked(p), false))
  }

  /** A project fresh from its profile resolves, without an override, to the profile's own defaults. */
  lemma ProfilesResolveToTheirDefaults(p: Profile)
    ensures Resolution(NewProject(p), None) == ProfileDefaults(p)
    ensures forall isUI :: Violations(NewProject(p), None, isUI) == []
  {
  }

  /** And it makes no review mandatory: an override that switches a review off has it off. */
  lemma NewProjectsMandateNothing(p: Profile, over: Pipeline)
    ensures var resolved := Resolution(NewProject(p), Some(over)).review;
            && (!over.review.aiReview ==> !resolved.aiReview)
            && (over.review.securityReview == TriOff ==> resolved.securityReview == TriOff)
            && (over.review.architectureReview == TriOff ==> resolved.architectureReview == TriOff)
  {
    SwitchesResolveExactly(NewProject(p), Some(over));
    TogglesResolveExactly(NewProject(p), Some(over), ReviewAIReview);
    hide Resolution, ProfileDefaults, DependsOn, IsDeliveryToggle;
  }

  /**
   The profiles widen in order: each enables all the one before does, and adds exactly its stage, its delivery, or its
   merging. A profile other than custom is network-locked exactly when its defaults do not push.
   */
  lemma ProfilesWiden(t: Toggle)
    ensures var plan, review := ProfileDefaults(PlanOnly), ProfileDefaults(LocalReview);
            var remote, autonomous := ProfileDefaults(RemoteReview), ProfileDefaults(Autonomous);
            && ProfileDefaults(Custom) == review
            && (Get(review, t) <==> || Get(plan, t)
                                    || t in {ImplementationEnabled, TestsGenerate, TestsModifyExisting, TestsRunGenerated,
                                             GitLocalCheckpointCommits, GitFinalLocalCommit})
            && (Get(remote, t) <==> Get(review, t) || t in {GitPush, ChangeRequestCreate, ChangeRequestUpdateExisting})
            && (Get(autonomous, t) <==> Get(remote, t) || t in {MergeEnabled, PostMergeEnabled, PostMergeAutoRevert})
            && (Get(plan, t) <==> t in {SpecificationEnabled, PlanningEnabled, DesignVisualVerification, TestsRunExisting,
                                        TestsRequiredForCompletion, TestsRequireForRemoteMerge, ReviewAIReview})
    ensures forall p: Profile :: p != Custom ==> (IsNetworkLocked(p) <==> !ProfileDefaults(p).git.push)
    ensures !IsNetworkLocked(Custom)
  {
  }

  // ---- gating actions ----

  datatype Action =
    | ActPush
    | ActCreateChangeRequest
    | ActUpdateChangeRequest
    | ActMerge
    | ActPostMerge
    | ActPostMergeAutoRevert
    | ActImplement
    | ActGenerateTests
    | ActModifyExistingTests
    | ActRunExistingTests
    | ActRunGeneratedTests
    | ActGenerateDesign
    | ActAIReview
    | ActSecurityReview
    | ActArchReview
    | ActLocalCheckpoint
    | ActUnknown(name: string)

  predicate Allows(p: Pipeline, a: Action) {
    match a
    case ActPush => p.git.push
    case ActCreateChangeRequest => p.git.push && p.changeRequest.create
    case ActUpdateChangeRequest => p.git.push && p.changeRequest.updateExisting
    case ActMerge => p.merge
    case ActPostMerge => p.merge && p.postMerge.enabled
    case ActPostMergeAutoRevert => p.merge && p.postMerge.enabled && p.postMerge.autoRevert
    case ActImplement => p.implementation
    case ActGenerateTests => p.tests.generate
    case ActModifyExistingTests => p.tests.generate && p.tests.modifyExisting
    case ActRunExistingTests => p.tests.runExisting
    case ActRunGeneratedTests => p.tests.runGenerated && p.tests.generate
    case ActGenerateDesign => p.design.generate
    case ActAIReview => p.review.aiReview
    case ActSecurityReview => TriToBool(p.review.securityReview)
    case ActArchReview => TriToBool(p.review.architectureReview)
    case ActLocalCheckpoint => p.git.localCheckpointCommits
    case ActUnknown(_) => false
  }

  predicate IsDelivery(a: Action) {
    || a.ActPush? || a.ActCreateChangeRequest? || a.ActUpdateChangeRequest? || a.ActMerge? || a.ActPostMerge?
    || a.ActPostMergeAutoRevert?
  }

  // The toggle of an action that has one.
  function OwnToggle(a: Action): Option<Toggle> {
    match a
    case ActPush => Some(GitPush)
    case ActCreateChangeRequest => Some(ChangeRequestCreate)
    case ActUpdateChangeRequest => Some(ChangeRequestUpdateExisting)
    case ActMerge => Some(MergeEnabled)
    case ActPostMerge => Some(PostMergeEnabled)
    case ActPostMergeAutoRevert => Some(PostMergeAutoRevert)
    case ActImplement => Some(ImplementationEnabled)
    case ActGenerateTests => Some(TestsGenerate)
    case ActModifyExistingTests => Some(TestsModifyExisting)
    case ActRunExistingTests => Some(TestsRunExisting)
    case ActRunGeneratedTests => Some(TestsRunGenerated)
    case ActGenerateDesign => Some(DesignGenerate)
    case ActAIReview => Some(ReviewAIReview)
    case ActLocalCheckpoint => Some(GitLocalCheckpointCommits)
    case _ => None
  }

  /**
   On a pipeline that obeys the rules an action with a toggle is allowed exactly when its toggle is on, save that an
   update also needs push, and an automatic revert post-merge; a review exactly when its switch is not off; and an
   action nobody knows never.
   */
  lemma ActionsFollowTheirToggles(p: Pipeline, a: Action)
    requires ObeysRules(p)
    ensures OwnToggle(a).Some? ==>
              (Allows(p, a) <==> && Get(p, OwnToggle(a).value)
                                 && (a.ActUpdateChangeRequest? ==> Get(p, GitPush))
                                 && (a.ActPostMergeAutoRevert? ==> Get(p, PostMergeEnabled)))
    ensures a.ActSecurityReview? ==> (Allows(p, a) <==> p.review.securityReview != TriOff)
    ensures a.ActArchReview? ==> (Allows(p, a) <==> p.review.architectureReview != TriOff)
    ensures a.ActUnknown? ==> !Allows(p, a)
  {
  }

  /** No policy resolved from a network-locked project allows any delivery action. */
  lemma LockedProjectsDeliverNothing(project: Project, override: Option<Pipeline>, a: Action)
    requires NetworkForbidden(project) && IsDelivery(a)
    ensures !Allows(Resolution(project, override), a)
  {
  }

  /**
   On a pipeline that obeys the rules the gates need no conjunctions: an action's own toggle decides, save that
   updating a change request also needs push and reverting also needs post-merge.
   */
  lemma GatesOnNormalPipelines(p: Pipeline)
    requires ObeysRules(p)
    ensures Allows(p, ActCreateChangeRequest) == p.changeRequest.create
    ensures Allows(p, ActPostMerge) == p.postMerge.enabled
    ensures Allows(p, ActPostMergeAutoRevert) == (p.postMerge.enabled && p.postMerge.autoRevert)
    ensures Allows(p, ActModifyExistingTests) == p.tests.modifyExisting
    ensures Allows(p, ActRunGeneratedTests) == p.tests.runGenerated
    ensures Allows(p, ActMerge) ==> Allows(p, ActPush)
  {
  }
}
