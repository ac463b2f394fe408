/** The delivery authority: the only path to a provider, re-checking verdict, policy and network lock on each call. */
module Authority {
  import opened Options
  import opened PolicyResolution
  import opened Governor

  datatype Provider = Provider(id: string, isNetwork: bool, getChecks: bool)

  datatype Operation =
    | OpPush
    | OpCreateChangeRequest
    | OpUpdateChangeRequest
    | OpEnableAutoMerge
    | OpMerge
    | OpRevert

  datatype Error =
    | PolicyDenied
    | NetworkForbiddenHere
    | BranchNotCurrent
    | ChecksFailed
    | Unsupported
    | AuthFailed
    | OtherError

  datatype MergeMethod = MergeCommit | Squash | Rebase

  // What a provider, or the authority in its place, returns.
  datatype Answer = Done(merged: bool, how: MergeMethod, commit: string) | Failed(error: Error)

  // A delivery request. The number is that of the change request, 0 for a local merge.
  datatype Request = Request(
    op: Operation, decision: Decision, policy: Resolved, provider: Provider, number: int, how: MergeMethod)

  // What reached a provider, and what was refused.
  datatype Event =
    | Called(request: Request, answer: Answer)
    | Denied(request: Request, error: Error)
    | Read(provider: Provider, policy: Resolved, answer: Answer)

  function ActionOf(op: Operation): PolicyResolution.Action {
    match op
    case OpPush => ActPush
    case OpCreateChangeRequest => ActCreateChangeRequest
    case OpUpdateChangeRequest => ActUpdateChangeRequest
    case OpEnableAutoMerge => ActMerge
    case OpMerge => ActMerge
    case OpRevert => ActMerge
  }

  function LevelOf(op: Operation): Decision {
    match op
    case OpPush => AllowPush
    case OpCreateChangeRequest => AllowChangeRequest
    case OpUpdateChangeRequest => AllowChangeRequest
    case OpEnableAutoMerge => AllowMerge
    case OpMerge => AllowMerge
    case OpRevert => AllowMerge
  }

  function DecisionRank(d: Decision): int {
    match d
    case AllowLocalResult => 0
    case AllowPush => 1
    case AllowChangeRequest => 2
    case AllowMerge => 3
    case _ => -1
  }

  // Why a request is refused, if it is.
  function Authorise(r: Request): Option<Error> {
    if DecisionRank(r.decision) < DecisionRank(LevelOf(r.op)) then Some(PolicyDenied)
    else if !Allows(r.policy.pipeline, ActionOf(r.op)) then Some(PolicyDenied)
    else if r.provider.isNetwork && IsNetworkLocked(r.policy.profile) then Some(NetworkForbiddenHere)
    else None
  }

  function AuthoriseRead(policy: Resolved, provider: Provider): Option<Error> {
    if !provider.getChecks then Some(Unsupported)
    else if provider.isNetwork && IsNetworkLocked(policy.profile) then Some(NetworkForbiddenHere)
    else if !Allows(policy.pipeline, ActPush) then Some(PolicyDenied)
    else None
  }

  function EventOf(r: Request, reply: Answer): Event {
    if Authorise(r).Some? then Denied(r, Authorise(r).value) else Called(r, reply)
  }

  function AnswerOf(r: Request, reply: Answer): Answer {
    if Authorise(r).Some? then Failed(Authorise(r).value) else reply
  }

  // reply is what the provider would answer.
  class Authority {
    var trail: seq<Event>

    constructor ()
      ensures trail == []
    {
      trail := [];
    }

    // The six delivery methods, which differ in the action and the level they ask for.
    method Deliver(r: Request, reply: Answer) returns (answer: Answer)
      modifies this
      ensures match Authorise(r)
              case None => answer == reply && trail == old(trail) + [Called(r, reply)]
              case Some(error) => answer == Failed(error) && trail == old(trail) + [Denied(r, error)]
      ensures answer == AnswerOf(r, reply) && trail == old(trail) + [EventOf(r, reply)]
    {
      var refusal := Authorise(r);
      if refusal.Some? {
        trail := trail + [Denied(r, refusal.value)];
        return Failed(refusal.value);
      }
      answer := reply;
      trail := trail + [Called(r, answer)];
    }

    // Read-only, and leaves no trace when refused.
    method GetChecks(policy: Resolved, provider: Provider, reply: Answer) returns (answer: Answer)
      modifies this
      ensures answer == match AuthoriseRead(policy, provider)
                        case Some(error) => Failed(error)
                        case None => reply
      ensures trail == old(trail) + if AuthoriseRead(policy, provider).Some? then [] else [Read(provider, policy, reply)]
    {
      var refusal := AuthoriseRead(policy, provider);
      if refusal.Some? {
        return Failed(refusal.value);
      }
      answer := reply;
      trail := trail + [Read(provider, policy, answer)];
    }
  }

  // ---- the layers agree ----

  /**
   Who may do what, for any verdict: pushing needs a verdict to push or more and policy's push; a change request one for
   change requests or more, and policy's push with create or update; merging, reverting and auto-merge a verdict to merge
   and policy's merge. Only a request that passes both, and is for a network provider under a locked profile, is refused
   for the lock.
   */
  lemma AuthorisationMeaning(r: Request)
    ensures var p, d := r.policy.pipeline, r.decision;
            var permitted :=
              match r.op
              case OpPush => d in {AllowPush, AllowChangeRequest, AllowMerge} && p.git.push
              case OpCreateChangeRequest => d in {AllowChangeRequest, AllowMerge} && p.git.push && p.changeRequest.create
              case OpUpdateChangeRequest =>
                d in {AllowChangeRequest, AllowMerge} && p.git.push && p.changeRequest.updateExisting
              case _ => d == AllowMerge && p.merge;
            var locked := r.provider.isNetwork && r.policy.profile in {PlanOnly, LocalReview};
            Authorise(r) == if !permitted then Some(PolicyDenied) else if locked then Some(NetworkForbiddenHere) else None
  {
  }

  /** Reading needs a provider that can, then no lock on a network provider, then policy's push; with all three it passes. */
  lemma ReadingMeaning(policy: Resolved, provider: Provider)
    ensures var refusal := AuthoriseRead(policy, provider);
            var locked := provider.isNetwork && policy.profile in {PlanOnly, LocalReview};
            && (refusal.None? <==> provider.getChecks && !locked && policy.pipeline.git.push)
            && (refusal == Some(Unsupported) <==> !provider.getChecks)
            && (refusal == Some(NetworkForbiddenHere) <==> provider.getChecks && locked)
            && (refusal == Some(PolicyDenied) <==> provider.getChecks && !locked && !policy.pipeline.git.push)
  {
  }

  ghost predicate Deliverable(input: Input, provider: Provider, op: Operation) {
    && AllGatesPass(input)
    && Allows(input.policy.pipeline, ActionOf(op))
    && !(provider.isNetwork && IsNetworkLocked(input.policy.profile))
  }

  /**
   On the Governor's own verdict the authority lets an operation through exactly when every gate passes, the policy
   allows the action, and it is no network provider under a locked profile. An update needs more: the verdict
   reaches the change-request level only if policy merges or creates change requests.
   */
  lemma LayersAgree(input: Input, provider: Provider, op: Operation, number: int, how: MergeMethod)
    ensures Authorise(Request(op, Decided(input), input.policy, provider, number, how)).None?
            <==> Deliverable(input, provider, op)
                 && (op == OpUpdateChangeRequest ==>
                       input.policy.pipeline.merge || input.policy.pipeline.changeRequest.create)
  {
    hide Decided, AllGatesPass;
    DecisionMeaning(input);
  }

  /** A policy may allow updating change requests without creating them, and then no verdict ever lets one through. */
  lemma UpdatesCanBeOutOfReach(input: Input, provider: Provider, number: int, how: MergeMethod)
    requires var p := input.policy.pipeline;
             p.git.push && p.changeRequest.updateExisting && !p.changeRequest.create && !p.merge
    ensures Allows(input.policy.pipeline, ActUpdateChangeRequest)
    ensures Authorise(Request(OpUpdateChangeRequest, Decided(input), input.policy, provider, number, how)).Some?
  {
    LayersAgree(input, provider, OpUpdateChangeRequest, number, how);
  }

  /**
   The levels nest: under policies that obey the rules, whatever the verdict, a request that passes for merging
   passes for pushing on the same provider.
   */
  lemma MergeAuthorityIncludesPush(d: Decision, policy: Resolved, provider: Provider, number: int, how: MergeMethod)
    requires ObeysRules(policy.pipeline)
    ensures Authorise(Request(OpMerge, d, policy, provider, number, how)).None?
            ==> Authorise(Request(OpPush, d, policy, provider, number, how)).None?
  {
  }

  ghost predicate FromLockedProject(policy: Resolved) {
    exists project, override :: NetworkForbidden(project) && policy == Resolved(project.profile, Resolution(project, override))
  }

  /** Under a policy resolved from a network-locked project nothing is authorised, whatever the verdict and provider. */
  lemma LockedProjectsAreRefused(r: Request)
    requires FromLockedProject(r.policy)
    ensures Authorise(r).Some?
    ensures AuthoriseRead(r.policy, r.provider).Some?
  {
    hide Resolution, Allows;
    var project, override :| NetworkForbidden(project) && r.policy == Resolved(project.profile, Resolution(project, override));
    LockedProjectsDeliverNothing(project, override, ActionOf(r.op));
    LockedProjectsDeliverNothing(project, override, ActPush);
  }
}
