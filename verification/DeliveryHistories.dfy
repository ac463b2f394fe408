/** Whole histories of the merge queue and of direct deliveries through the same authority. */
module DeliveryHistories {
  import opened Options
  import opened PolicyResolution
  import opened Governor
  import opened Authority
  import opened MergeQueue

  datatype Op =
    | DoEnqueue(item: Item)
    | DoProcessOne(replies: Replies)
    | DoClose
    | DoDeliver(request: Request, reply: Answer)
    | DoRead(policy: Resolved, provider: Provider, reply: Answer)

  // What one operation put on the trail: a queue item with its outcome, or a call made directly.
  datatype Segment =
    | Processed(item: Item, outcome: Outcome, events: seq<Event>)
    | Direct(events: seq<Event>)

  datatype History = History(queue: State, accepted: seq<Item>, segments: seq<Segment>)

  function Begin(local: Option<Provider>): History {
    History(State(true, local, [], false, []), [], [])
  }

  function ReadEvents(policy: Resolved, provider: Provider, reply: Answer): seq<Event> {
    if AuthoriseRead(policy, provider).Some? then [] else [Read(provider, policy, reply)]
  }

  function Step(h: History, op: Op): History
    requires Valid(h.queue)
  {
    match op
    case DoEnqueue(item) =>
      h.(queue := Enqueued(h.queue, item),
         accepted := if Refusal(h.queue, item).None? then h.accepted + [item] else h.accepted)
    case DoProcessOne(replies) =>
      if h.queue.items == [] then h
      else
        var item := h.queue.items[0];
        h.(queue := ProcessedOne(h.queue, replies),
           segments := h.segments + [Processed(item, MergeOutcome(item, h.queue.local, replies),
                                               MergeEvents(item, h.queue.local, replies))])
    case DoClose => h.(queue := h.queue.(closed := true))
    case DoDeliver(r, reply) => Directly(h, [EventOf(r, reply)])
    case DoRead(policy, provider, reply) => Directly(h, ReadEvents(policy, provider, reply))
  }

  function Directly(h: History, events: seq<Event>): History {
    h.(queue := h.queue.(trail := h.queue.trail + events), segments := h.segments + [Direct(events)])
  }

  function Run(h: History, ops: seq<Op>): History
    requires Valid(h.queue)
    decreases |ops|
  {
    if ops == [] then h
    else StepValid(h, ops[0]); Run(Step(h, ops[0]), ops[1..])
  }

  lemma StepValid(h: History, op: Op)
    requires Valid(h.queue)
    ensures Valid(Step(h, op).queue)
  {
    hide MergeOutcome, MergeEvents;
  }

  function Items(segments: seq<Segment>): seq<Item> {
    if segments == [] then []
    else Items(segments[..|segments| - 1])
         + (match segments[|segments| - 1]
            case Processed(item, _, _) => [item]
            case Direct(_) => [])
  }

  function Events(segments: seq<Segment>): seq<Event> {
    if segments == [] then []
    else Events(segments[..|segments| - 1]) + segments[|segments| - 1].events
  }

  // ---- what one item can cause ----

  predicate Succeeded(e: Event) {
    e.Called? && e.answer.Done?
  }

  predicate IsMergeOf(e: Event, item: Item, provider: Provider, number: int) {
    !e.Read? && e.request == Request(OpMerge, item.decision, item.policy, provider, number, item.how)
  }

  predicate FailedOtherwise(e: Event) {
    || e.Denied?
    || (e.Called? && e.answer.Failed? && e.answer.error != BranchNotCurrent)
  }

  function ErrorOf(e: Event): Error
    requires !Succeeded(e) && !e.Read?
  {
    if e.Denied? then e.error else e.answer.error
  }

  /**
   One or two merges by the authority, at most one success, which is then the outcome. The second is of the same
   item on the local provider without a number, only after a failure other than a stale branch, for a network
   provider, with the item's leave and in local-merge mode.
   */
  ghost predicate ItemOk(local: Option<Provider>, s: Segment) {
    s.Processed? ==>
      && 1 <= |s.events| <= 2
      && s.item.provider.Some? && IsMergeOf(s.events[0], s.item, s.item.provider.value, s.item.number)
      && (|s.events| == 2 ==>
            && FailedOtherwise(s.events[0])
            && local.Some? && IsMergeOf(s.events[1], s.item, local.value, 0)
            && s.item.provider.value.isNetwork && s.item.allowLocalFallback && CanLocalMergeMode(s.item.policy))
      && (|s.events| == 1 ==>
            || Succeeded(s.events[0])
            || s.events[0] == Called(RemoteRequest(s.item), Failed(BranchNotCurrent))
            || !(s.item.provider.value.isNetwork && s.item.allowLocalFallback && local.Some?
                 && CanLocalMergeMode(s.item.policy)))
      && var last := s.events[|s.events| - 1];
      && s.outcome.item == s.item
      && (!Succeeded(last) ==>
            s.outcome.error == Some(if |s.events| == 1 then MergeFailed(ErrorOf(last)) else BothFailed(ErrorOf(s.events[0]), ErrorOf(last))))
      && (s.outcome.error.None? <==> Succeeded(last))
      && (s.outcome.fellBack <==> |s.events| == 2 && Succeeded(last))
      && (s.outcome.merged <==> Succeeded(last) && last.answer.merged)
      && (Succeeded(last) ==> s.outcome.commit == last.answer.commit && s.outcome.how == Some(last.answer.how))
  }

  lemma MergeIsOk(item: Item, local: Option<Provider>, replies: Replies)
    requires Queueable(item)
    ensures ItemOk(local, Processed(item, MergeOutcome(item, local, replies), MergeEvents(item, local, replies)))
  {
    hide Allows, IsNetworkLocked, LevelOf, DecisionRank;
    var events := MergeEvents(item, local, replies);
    var first := AnswerOf(RemoteRequest(item), replies.remote);
    if FallsBack(item, local, first) {
      assert |events| == 2;
    } else {
      assert |events| == 1;
    }
  }

  // ---- conservation ----

  ghost predicate Conserved(h: History) {
    && Valid(h.queue)
    && h.accepted == Items(h.segments) + h.queue.items
    && h.queue.trail == Events(h.segments)
    && forall s :: s in h.segments ==> ItemOk(h.queue.local, s)
  }

  lemma AppendSegment(segments: seq<Segment>, s: Segment)
    ensures Items(segments + [s]) == Items(segments) + if s.Processed? then [s.item] else []
    ensures Events(segments + [s]) == Events(segments) + s.events
  {
    assert (segments + [s])[..|segments|] == segments;
  }

  lemma StepConserves(h: History, op: Op)
    requires Conserved(h)
    ensures Conserved(Step(h, op)) && Step(h, op).queue.local == h.queue.local
  {
    hide MergeOutcome, MergeEvents, ItemOk, EventOf, ReadEvents, Items, Events, Queueable;
    StepValid(h, op);
    match op {
      case DoEnqueue(item) => assert Items(h.segments) + (h.queue.items + [item]) == h.accepted + [item];
      case DoProcessOne(replies) =>
        if h.queue.items != [] {
          var item := h.queue.items[0];
          MergeIsOk(item, h.queue.local, replies);
          AppendSegment(h.segments, Step(h, op).segments[|h.segments|]);
          assert h.queue.items == [item] + h.queue.items[1..];
        }
      case DoClose =>
      case DoDeliver(r, reply) => DirectConserves(h, [EventOf(r, reply)]);
      case DoRead(policy, provider, reply) => DirectConserves(h, ReadEvents(policy, provider, reply));
    }
  }

  lemma DirectConserves(h: History, events: seq<Event>)
    requires Conserved(h)
    ensures Conserved(Directly(h, events))
  {
    hide Items, Events;
    AppendSegment(h.segments, Direct(events));
    assert Items(h.segments) + [] == Items(h.segments);
    assert ItemOk(h.queue.local, Direct(events));
    hide ItemOk;
  }

  /**
   Over every history of enqueueing, processing, closing and direct deliveries: the accepted items are the
   processed ones followed by the pending ones, in order; the trail is what each step put on it; and every
   processed item stayed within its merges.
   */
  lemma {:induction false} QueueConserves(h: History, ops: seq<Op>)
    requires Conserved(h)
    ensures Conserved(Run(h, ops))
    decreases |ops|
  {
    hide Step, ItemOk, Items, Events;
    if ops != [] {
      StepConserves(h, ops[0]);
      QueueConserves(Step(h, ops[0]), ops[1..]);
    }
  }

  lemma {:induction false} RunConcat(h: History, a: seq<Op>, b: seq<Op>)
    requires Valid(h.queue)
    ensures Valid(Run(h, a).queue) && Run(h, a + b) == Run(Run(h, a), b)
    decreases |a|
  {
    hide Step, Valid;
    if a == [] {
      assert a + b == b;
    } else {
      StepValid(h, a[0]);
      RunConcat(Step(h, a[0]), a[1..], b);
      assert (a + b)[1..] == a[1..] + b;
    }
  }

  // The steps of one call of Process: one per item until cancelled.
  function ProcessOps(s: State, replies: nat -> Replies, cancelled: nat -> bool, i: nat): seq<Op>
    requires Valid(s)
    decreases |s.items|
  {
    if s.items == [] then []
    else [DoProcessOne(replies(i))]
         + if cancelled(i) then [] else ProcessOps(ProcessedOne(s, replies(i)), replies, cancelled, i + 1)
  }

  // One outcome per item of the queue's front, in order, and the rest still pending.
  ghost predicate Takes(items: seq<Item>, outcomes: seq<Outcome>, left: seq<Item>) {
    && |items| == |outcomes| + |left|
    && (forall k :: 0 <= k < |outcomes| ==> outcomes[k].item == items[k])
    && left == items[|outcomes|..]
  }

  lemma TakesOne(items: seq<Item>, outcome: Outcome, outcomes: seq<Outcome>, left: seq<Item>)
    requires items != [] && outcome.item == items[0] && Takes(items[1..], outcomes, left)
    ensures Takes(items, [outcome] + outcomes, left)
  {
  }

  /**
   Process is one single step per outcome, and returns one outcome per item it took, in order; it leaves items
   pending only if cancelled, right after the last outcome.
   */
  lemma ProcessIsSteps(h: History, replies: nat -> Replies, cancelled: nat -> bool)
    requires Valid(h.queue)
    ensures var (end, outcomes, stopped) := Drained(h.queue, replies, cancelled, 0);
            var ops := ProcessOps(h.queue, replies, cancelled, 0);
            && Run(h, ops).queue == end && |ops| == |outcomes|
            && Takes(h.queue.items, outcomes, end.items)
            && (end.items != [] ==> stopped)
            && (stopped ==> outcomes != [] && cancelled(|outcomes| - 1))
  {
    ProcessRuns(h, replies, cancelled, 0);
    ProcessTakes(h.queue, replies, cancelled, 0);
  }

  lemma {:induction false} ProcessRuns(h: History, replies: nat -> Replies, cancelled: nat -> bool, i: nat)
    requires Valid(h.queue)
    ensures Run(h, ProcessOps(h.queue, replies, cancelled, i)).queue == Drained(h.queue, replies, cancelled, i).0
    decreases |h.queue.items|
  {
    hide MergeEvents, MergeOutcome, EventOf, ReadEvents, Queueable;
    if h.queue.items != [] {
      var next := Step(h, DoProcessOne(replies(i)));
      StepValid(h, DoProcessOne(replies(i)));
      var rest := if cancelled(i) then [] else ProcessOps(next.queue, replies, cancelled, i + 1);
      assert ([DoProcessOne(replies(i))] + rest)[1..] == rest;
      if !cancelled(i) {
        ProcessRuns(next, replies, cancelled, i + 1);
      }
    }
  }

  lemma {:induction false} ProcessTakes(s: State, replies: nat -> Replies, cancelled: nat -> bool, i: nat)
    requires Valid(s)
    ensures var (end, outcomes, stopped) := Drained(s, replies, cancelled, i);
            && |ProcessOps(s, replies, cancelled, i)| == |outcomes|
            && Takes(s.items, outcomes, end.items)
            && (end.items != [] ==> stopped)
            && (stopped ==> outcomes != [] && cancelled(i + |outcomes| - 1))
    decreases |s.items|
  {
    hide MergeEvents;
    if s.items != [] {
      var next := ProcessedOne(s, replies(i));
      var outcome := MergeOutcome(s.items[0], s.local, replies(i));
      assert outcome.item == s.items[0];
      hide MergeOutcome, Queueable;
      if cancelled(i) {
        TakesOne(s.items, outcome, [], next.items);
      } else {
        ProcessTakes(next, replies, cancelled, i + 1);
        var (end, outcomes, _) := Drained(next, replies, cancelled, i + 1);
        TakesOne(s.items, outcome, outcomes, end.items);
        hide Takes;
      }
    }
  }

  // ---- who reaches a provider ----

  // The authority let it through.
  predicate WasAuthorised(e: Event) {
    match e
    case Called(r, _) => Authorise(r).None?
    case Denied(r, error) => Authorise(r) == Some(error)
    case Read(provider, policy, _) => AuthoriseRead(policy, provider).None?
  }

  function PolicyOf(e: Event): Resolved {
    if e.Read? then e.policy else e.request.policy
  }

  // Nothing but refusals, where policy is network-locked.
  ghost predicate LockHolds(trail: seq<Event>) {
    forall i :: 0 <= i < |trail| ==> WasAuthorised(trail[i]) && (FromLockedProject(PolicyOf(trail[i])) ==> trail[i].Denied?)
  }

  lemma EventHoldsLock(e: Event)
    requires WasAuthorised(e)
    ensures FromLockedProject(PolicyOf(e)) ==> e.Denied?
  {
    hide FromLockedProject, Authorise, AuthoriseRead;
    if FromLockedProject(PolicyOf(e)) {
      match e {
        case Called(r, _) => LockedProjectsAreRefused(r);
        case Denied(_, _) =>
        case Read(provider, policy, _) =>
          LockedProjectsAreRefused(Request(OpPush, Quarantine, policy, provider, 0, MergeCommit));
      }
    }
  }

  lemma MergeWasAuthorised(item: Item, local: Option<Provider>, replies: Replies)
    requires Queueable(item)
    ensures forall e :: e in MergeEvents(item, local, replies) ==> WasAuthorised(e)
  {
    hide Allows, IsNetworkLocked, LevelOf, DecisionRank;
  }

  lemma StepHoldsLock(h: History, op: Op)
    requires Valid(h.queue) && LockHolds(h.queue.trail)
    ensures LockHolds(Step(h, op).queue.trail)
  {
    hide Authorise, AuthoriseRead, MergeEvents, MergeOutcome, FromLockedProject;
    forall e | WasAuthorised(e)
      ensures FromLockedProject(PolicyOf(e)) ==> e.Denied?
    {
      EventHoldsLock(e);
    }
    if op.DoProcessOne? && h.queue.items != [] {
      MergeWasAuthorised(h.queue.items[0], h.queue.local, op.replies);
    }
  }

  /**
   Over every history, every provider call had passed the authority; and no request whose policy was resolved from
   a network-locked project, direct or queued, whatever its verdict, ever reached a provider.
   */
  lemma {:induction false} LockedProjectsReachNoProvider(h: History, ops: seq<Op>)
    requires Valid(h.queue) && LockHolds(h.queue.trail)
    ensures LockHolds(Run(h, ops).queue.trail)
    decreases |ops|
  {
    hide Step, LockHolds, Valid;
    if ops != [] {
      StepValid(h, ops[0]);
      StepHoldsLock(h, ops[0]);
      LockedProjectsReachNoProvider(Step(h, ops[0]), ops[1..]);
    }
  }

  /** Both hold of every history of a fresh queue. */
  lemma FreshQueues(local: Option<Provider>, ops: seq<Op>)
    ensures Conserved(Run(Begin(local), ops)) && LockHolds(Run(Begin(local), ops).queue.trail)
  {
    QueueConserves(Begin(local), ops);
    LockedProjectsReachNoProvider(Begin(local), ops);
  }

  // ---- what is accepted ----

  // Of the items offered before the first close, those with a verdict to merge and a provider, in order.
  function Offered(ops: seq<Op>): seq<Item>
    decreases |ops|
  {
    if ops == [] || ops[0].DoClose? then []
    else Accepting(ops[0]) + Offered(ops[1..])
  }

  lemma {:induction false} OpenQueuesAccept(h: History, ops: seq<Op>)
    requires Valid(h.queue) && h.queue.hasAuthority
    ensures Run(h, ops).accepted == h.accepted + if h.queue.closed then [] else Offered(ops)
    decreases |ops|
  {
    hide Step, Valid;
    if ops != [] {
      StepValid(h, ops[0]);
      AcceptingStep(h, ops[0]);
      OpenQueuesAccept(Step(h, ops[0]), ops[1..]);
    }
  }

  // The item an open queue accepts by this operation, if any.
  function Accepting(op: Op): seq<Item> {
    if op.DoEnqueue? && op.item.decision == AllowMerge && op.item.provider.Some? then [op.item] else []
  }

  lemma AcceptingStep(h: History, op: Op)
    requires Valid(h.queue) && h.queue.hasAuthority
    ensures var h' := Step(h, op);
            && h'.queue.hasAuthority && (h'.queue.closed <==> h.queue.closed || op.DoClose?)
            && h'.accepted == if h.queue.closed then h.accepted else h.accepted + Accepting(op)
  {
    hide MergeEvents, MergeOutcome, EventOf, ReadEvents, Queueable;
    if op.DoEnqueue? {
      RefusalMeaning(h.queue, op.item);
      hide Refusal;
    }
    assert h.accepted + [] == h.accepted;
  }

  /**
   A queue accepts exactly what is offered to it before it is closed, given a verdict to merge and a provider: so over
   every history of a fresh queue that is what it has processed, in order, and then what is pending.
   */
  lemma QueuesLoseNothing(local: Option<Provider>, ops: seq<Op>)
    ensures var h := Run(Begin(local), ops);
            Offered(ops) == h.accepted == Items(h.segments) + h.queue.items
  {
    OpenQueuesAccept(Begin(local), ops);
    FreshQueues(local, ops);
  }
}
