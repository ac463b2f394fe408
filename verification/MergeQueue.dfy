/** The merge queue: verdicts to merge, processed first in first out, with a local fallback. */
module MergeQueue {
  import opened Options
  import Policy
  import opened PolicyResolution
  import opened Governor
  import opened Authority

  datatype Item = Item(
    task: string, decision: Decision, policy: Resolved, provider: Option<Provider>, number: int, how: MergeMethod,
    allowLocalFallback: bool)

  datatype EnqueueError = NoAuthority | NotQueueable | NoProvider | QueueClosed

  datatype MergeError = MergeFailed(error: Error) | BothFailed(remote: Error, fallback: Error)

  datatype Outcome = Outcome(
    item: Item, merged: bool, how: Option<MergeMethod>, commit: string, fellBack: bool, error: Option<MergeError>)

  // What the item's own provider and the local one would answer.
  datatype Replies = Replies(remote: Answer, fallback: Answer)

  datatype State = State(hasAuthority: bool, local: Option<Provider>, items: seq<Item>, closed: bool, trail: seq<Event>)

  // Merging locally instead of through a change request.
  predicate CanLocalMergeMode(policy: Resolved) {
    policy.pipeline.merge && !policy.pipeline.changeRequest.create
  }

  /** The queue may fall back exactly where normalisation reported local-merge mode and no lock came after it. */
  lemma LocalMergeModeIsReported(project: Project, override: Option<Policy.Pipeline>)
    ensures CanLocalMergeMode(Resolved(project.profile, Resolution(project, override)))
            <==> && !NetworkForbidden(project)
                 && Policy.LocalMergeMode in Adjustments(
                      WithMandatory(Merged(project.pipeline, override), project.security.mandatory))
  {
    hide Merged, WithMandatory, Adjustments;
    AdjustmentsAreExact(WithMandatory(Merged(project.pipeline, override), project.security.mandatory), Policy.GitPush, Policy.GitPush);
  }

  // ---- the specification ----

  function Refusal(s: State, item: Item): Option<EnqueueError> {
    if !s.hasAuthority then Some(NoAuthority)
    else if item.decision != AllowMerge then Some(NotQueueable)
    else if item.provider.None? then Some(NoProvider)
    else if s.closed then Some(QueueClosed)
    else None
  }

  /** What an enqueue asks for, in order: an authority, a verdict to merge, a provider, and a queue that is still open. */
  lemma RefusalMeaning(s: State, item: Item)
    ensures var refusal := Refusal(s, item);
            && (refusal.None? <==> s.hasAuthority && item.decision == AllowMerge && item.provider.Some? && !s.closed)
            && (refusal == Some(NoAuthority) <==> !s.hasAuthority)
            && (refusal == Some(NotQueueable) <==> s.hasAuthority && item.decision != AllowMerge)
            && (refusal == Some(NoProvider) <==> s.hasAuthority && item.decision == AllowMerge && item.provider.None?)
            && (refusal == Some(QueueClosed) <==>
                  s.hasAuthority && item.decision == AllowMerge && item.provider.Some? && s.closed)
  {
  }

  function Enqueued(s: State, item: Item): State {
    if Refusal(s, item).Some? then s else s.(items := s.items + [item])
  }

  predicate Queueable(item: Item) {
    item.decision == AllowMerge && item.provider.Some?
  }

  predicate Valid(s: State) {
    (!s.hasAuthority ==> s.items == []) && forall i :: 0 <= i < |s.items| ==> Queueable(s.items[i])
  }

  function RemoteRequest(item: Item): Request
    requires item.provider.Some?
  {
    Request(OpMerge, item.decision, item.policy, item.provider.value, item.number, item.how)
  }

  function LocalRequest(item: Item, local: Provider): Request {
    Request(OpMerge, item.decision, item.policy, local, 0, item.how)
  }

  predicate FallsBack(item: Item, local: Option<Provider>, first: Answer)
    requires item.provider.Some?
  {
    && first.Failed? && first.error != BranchNotCurrent
    && item.allowLocalFallback && local.Some? && item.provider.value.isNetwork
    && CanLocalMergeMode(item.policy)
  }

  function MergeEvents(item: Item, local: Option<Provider>, replies: Replies): seq<Event>
    requires item.provider.Some?
  {
    var first := AnswerOf(RemoteRequest(item), replies.remote);
    [EventOf(RemoteRequest(item), replies.remote)]
    + if FallsBack(item, local, first) then [EventOf(LocalRequest(item, local.value), replies.fallback)] else []
  }

  function MergeOutcome(item: Item, local: Option<Provider>, replies: Replies): Outcome
    requires item.provider.Some?
  {
    match AnswerOf(RemoteRequest(item), replies.remote)
    case Done(merged, how, commit) => Outcome(item, merged, Some(how), commit, false, None)
    case Failed(error) =>
      if !FallsBack(item, local, Failed(error)) then Outcome(item, false, None, "", false, Some(MergeFailed(error)))
      else match AnswerOf(LocalRequest(item, local.value), replies.fallback)
        case Done(merged, how, commit) => Outcome(item, merged, Some(how), commit, true, None)
        case Failed(fallback) => Outcome(item, false, None, "", false, Some(BothFailed(error, fallback)))
  }

  function ProcessedOne(s: State, replies: Replies): State
    requires Valid(s)
  {
    if s.items == [] then s
    else s.(items := s.items[1..], trail := s.trail + MergeEvents(s.items[0], s.local, replies))
  }

  // Process: item i of the call gets replies(i); it stops once cancelled(i) holds after item i.
  function Drained(s: State, replies: nat -> Replies, cancelled: nat -> bool, i: nat): (State, seq<Outcome>, bool)
    requires Valid(s)
    decreases |s.items|
  {
    if s.items == [] then (s, [], false)
    else
      var outcome := MergeOutcome(s.items[0], s.local, replies(i));
      var next := ProcessedOne(s, replies(i));
      if cancelled(i) then (next, [outcome], true)
      else
        var (end, outcomes, stopped) := Drained(next, replies, cancelled, i + 1);
        (end, [outcome] + outcomes, stopped)
  }

  function Onto(before: seq<Outcome>, d: (State, seq<Outcome>, bool)): (State, seq<Outcome>, bool) {
    (d.0, before + d.1, d.2)
  }

  lemma OntoNothing(d: (State, seq<Outcome>, bool))
    ensures Onto([], d) == d
  {
    assert [] + d.1 == d.1;
  }

  lemma DrainedStep(s: State, replies: nat -> Replies, cancelled: nat -> bool, i: nat, before: seq<Outcome>)
    requires Valid(s)
    ensures |ProcessedOne(s, replies(i)).items| == if s.items == [] then 0 else |s.items| - 1
    ensures s.items == [] ==> ProcessedOne(s, replies(i)) == s
    ensures Onto(before, Drained(s, replies, cancelled, i)) ==
              if s.items == [] then (s, before, false)
              else var next := ProcessedOne(s, replies(i));
                   var all := before + [MergeOutcome(s.items[0], s.local, replies(i))];
                   if cancelled(i) then (next, all, true) else Onto(all, Drained(next, replies, cancelled, i + 1))
  {
    hide MergeOutcome, MergeEvents;
    assert before + [] == before;
    if s.items != [] && !cancelled(i) {
      var rest := Drained(ProcessedOne(s, replies(i)), replies, cancelled, i + 1).1;
      var outcome := MergeOutcome(s.items[0], s.local, replies(i));
      assert before + ([outcome] + rest) == before + [outcome] + rest;
    }
  }

  // ---- the queue ----

  class Queue {
    const auth: Authority?
    const local: Option<Provider>
    var items: seq<Item>
    var closed: bool

    constructor (auth: Authority?, local: Option<Provider>)
      ensures this.auth == auth && this.local == local && items == [] && !closed
    {
      this.auth := auth;
      this.local := local;
      items := [];
      closed := false;
    }

    function Now(): State
      reads this, auth
    {
      State(auth != null, local, items, closed, if auth != null then auth.trail else [])
    }

    method Enqueue(item: Item) returns (refusal: Option<EnqueueError>)
      requires Valid(Now())
      modifies this
      ensures refusal == Refusal(old(Now()), item)
      ensures Now() == Enqueued(old(Now()), item) && Valid(Now())
    {
      if auth == null {
        return Some(NoAuthority);
      }
      if item.decision != AllowMerge {
        return Some(NotQueueable);
      }
      if item.provider.None? {
        return Some(NoProvider);
      }
      if closed {
        return Some(QueueClosed);
      }
      items := items + [item];
      refusal := None;
    }

    method Dequeue() returns (item: Option<Item>)
      modifies this`items
      ensures item == if old(items) == [] then None else Some(old(items)[0])
      ensures items == if old(items) == [] then [] else old(items)[1..]
    {
      if |items| == 0 {
        return None;
      }
      item := Some(items[0]);
      items := items[1..];
    }

    method MergeItem(item: Item, replies: Replies) returns (outcome: Outcome)
      requires auth != null && Queueable(item)
      modifies auth
      ensures outcome == MergeOutcome(item, local, replies)
      ensures auth.trail == old(auth.trail) + MergeEvents(item, local, replies)
    {
      outcome := Outcome(item, false, None, "", false, None);
      var answer := auth.Deliver(RemoteRequest(item), replies.remote);
      if answer.Done? {
        return Outcome(item, answer.merged, Some(answer.how), answer.commit, false, None);
      }
      outcome := outcome.(error := Some(MergeFailed(answer.error)));
      if answer.error == BranchNotCurrent {
        return;
      }
      if item.allowLocalFallback && local.Some? && item.provider.value.isNetwork {
        if CanLocalMergeMode(item.policy) {
          var second := auth.Deliver(LocalRequest(item, local.value), replies.fallback);
          if second.Done? {
            return Outcome(item, second.merged, Some(second.how), second.commit, true, None);
          }
          outcome := outcome.(error := Some(BothFailed(answer.error, second.error)));
        }
      }
    }

    method ProcessOne(replies: Replies) returns (outcome: Option<Outcome>)
      requires Valid(Now())
      modifies this`items, auth
      ensures Now() == ProcessedOne(old(Now()), replies) && Valid(Now())
      ensures outcome == if old(items) == [] then None else Some(MergeOutcome(old(items)[0], local, replies))
    {
      hide MergeOutcome, MergeEvents;
      var item := Dequeue();
      if item.None? {
        return None;
      }
      var processed := MergeItem(item.value, replies);
      outcome := Some(processed);
    }

    method Process(replies: nat -> Replies, cancelled: nat -> bool) returns (outcomes: seq<Outcome>, stopped: bool)
      requires Valid(Now())
      modifies this`items, auth
      ensures (Now(), outcomes, stopped) == Drained(old(Now()), replies, cancelled, 0)
    {
      hide MergeOutcome, MergeEvents, Valid, Drained, Onto, ProcessedOne;
      outcomes := [];
      var i := 0;
      OntoNothing(Drained(Now(), replies, cancelled, 0));
      while true
        invariant i == |outcomes| && Valid(Now())
        invariant Onto(outcomes, Drained(Now(), replies, cancelled, i)) == Drained(old(Now()), replies, cancelled, 0)
        decreases |items|
      {
        DrainedStep(Now(), replies, cancelled, i, outcomes);
        var outcome := ProcessOne(replies(i));
        if outcome.None? {
          return outcomes, false;
        }
        outcomes := outcomes + [outcome.value];
        if cancelled(i) {
          return outcomes, true;
        }
        i := i + 1;
      }
    }

    method Close()
      modifies this`closed
      ensures closed
    {
      closed := true;
    }
  }
}
