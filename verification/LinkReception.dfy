/** Which complete messages are delivered, which are refused, and which pass in silence (transport.ts). */
module LinkReception {
  import opened Wrappers
  import opened LinkTypes
  import opened LinkOutbound
  import opened LinkReassembly
  import opened LinkInbound
  import opened LinkOutboundInvariants
  import opened LinkOperations
  import opened LinkInboundInvariants
  import opened LinkOnce
  import opened LinkFindings
  import opened LinkEffects

  // ----- the conditions -------------------------------------------------------------------------------

  /** What the frame says about the message is what the message is. */
  predicate Labelled(i: Identity, m: Message) {
    && i.priority == MessagePriority(m)
    && (m.State? <==> i.kind.StateKind?) && (m.TaskDelivery? <==> i.kind.DeliveryKind?)
    && (m.TaskReport? <==> i.kind.ReportKind?) && (m.DataRequest? <==> i.kind.RequestKind?)
    && (m.DataResponse? <==> i.kind.ResponseKind?) && (m.ResourceOperation? <==> i.kind.OperationKind?)
    && (m.Subscription? <==> i.kind.SubscriptionKind?) && (m.ObjectContent? <==> i.kind.ContentKind?)
  }

  /** The source is known under this session or an earlier generation, or there is room for it and it is admitted. */
  predicate MayActivate(fences: map<Node, Fence>, source: Node, generation: nat, session: string, admitted: bool) {
    if source in fences then
      || (generation == fences[source].generation && session == fences[source].session)
      || (generation > fences[source].generation && admitted)
    else |fences| < 4096 && admitted
  }

  predicate SourceCurrent(l: Link, i: Identity, env: Env) {
    MayActivate(l.fences.m, i.source, i.generation, i.session, env.admits(i.source))
  }

  /** The message needs an answer: all but states, control messages and renewals of a subscription. */
  predicate Reliable(m: Message) { !m.State? && !m.Control? && !(m.Subscription? && m.renew) }

  predicate ToUs(l: Link, i: Identity) { i.dest.Some? && i.dest.value == l.out.cfg.node }

  predicate Answerable(l: Link, i: Identity, m: Message) { Reliable(m) && ToUs(l, i) }

  /** Tasks come from Gateways and, here, for this Asset; reports come from the Asset the Task is assigned to. */
  predicate RightSender(l: Link, i: Identity, m: Message, env: Env) {
    && (m.TaskDelivery? ==> i.source.role == Gateway && (ToUs(l, i) ==> m.asset == l.out.cfg.node.id))
    && (m.TaskReport? ==> i.source.role == Asset && (env.assignee == None || env.assignee == Some(i.source.id)))
  }

  /** The newest delivery of the Task from this session that is on record. */
  predicate SeenAt(l: Link, i: Identity, task: string, k: nat) {
    && k < |l.deliveries| && l.deliveries[k] == Delivery(i.source, i.generation, i.session, task, l.deliveries[k].sequence)
    && forall j :: 0 <= j < k ==> l.deliveries[j] != Delivery(i.source, i.generation, i.session, task, l.deliveries[j].sequence)
  }

  predicate Overtaken(l: Link, i: Identity, m: Message) {
    m.TaskDelivery? && exists k :: 0 <= k < |l.deliveries| && SeenAt(l, i, m.task, k) && i.sequence < l.deliveries[k].sequence
  }

  predicate Repeated(l: Link, i: Identity, m: Message) {
    m.TaskDelivery? && exists k :: 0 <= k < |l.deliveries| && SeenAt(l, i, m.task, k) && i.sequence == l.deliveries[k].sequence
  }

  /** The message answers a request of ours that waits for its sender. */
  predicate AnswersOurs(s: Out, i: Identity, m: Message, env: Env) {
    match m
    case DataResponse(request, _) =>
      if request in s.pendingData.m then Waiting(s, s.pendingData.m[request], i, env)
      else request in s.responses.m && Waiting(s, s.responses.m[request], i, env)
    case ObjectContent(Some(request), _) => request in s.pendingData.m && Waiting(s, s.pendingData.m[request], i, env)
    case _ => false
  }

  predicate Waiting(s: Out, r: nat, i: Identity, env: Env) {
    r < |s.heap| && s.heap[r].dest == Some(i.source) && env.matches(r)
  }

  predicate IsAnswer(m: Message) { m.DataResponse? || (m.ObjectContent? && m.contentFor.Some?) }

  /** The identity has not been settled within the last ten minutes. */
  predicate Unsettled(l: Link, i: Identity) { forall e :: e in l.settled && e.id == IdOf(i) ==> e.expiresAt <= l.out.now }

  predicate Room(l: Link, s: Out) {
    && |l.pending.m| < s.cfg.confirmedLimit && |Occupied(s)| + |l.pending.m| < s.cfg.queueLimit
    && |PruneSettled(l.settled, l.out.now)| + |l.pending.m| < 4096
  }

  predicate Reaches(l: Link, i: Identity, decoded: Option<Message>, env: Env) {
    && decoded.Some? && !decoded.value.Control? && Labelled(i, decoded.value) && SourceCurrent(l, i, env)
    && (decoded.value.State? && i.source.role == Asset ==> !decoded.value.ofTask && decoded.value.fieldPath)
    && (Reliable(decoded.value) ==> i.dest.Some?)
  }

  /** Right sender, in order, and an answer only to what was asked. */
  predicate Proper(l: Link, i: Identity, m: Message, env: Env) {
    && RightSender(l, i, m, env) && !Overtaken(l, i, m) && !Repeated(l, i, m)
    && (ToUs(l, i) && IsAnswer(m) ==> AnswersOurs(l.out, i, m, env))
  }

  /** A message that has to be answered here is new and there is room to await the answer of the application. */
  predicate New(l: Link, i: Identity, m: Message) {
    Answerable(l, i, m) ==> Unsettled(l, i) && IdOf(i) !in l.pending.m
  }

  // ----- the outcomes ---------------------------------------------------------------------------------

  /** Exactly one event, for this message, which then awaits its settlement if it needs one. */
  ghost predicate Delivers(l: Link, n: Link, i: Identity, m: Message) {
    && n.events == l.events + [Event(IdOf(i), i.sequence, Answerable(l, i, m), l.out.now, m)]
    && n.pending.m == if !Answerable(l, i, m) then l.pending.m
                      else l.pending.m[IdOf(i) := Pending(i.source, i.op, i.msgId, if m.TaskDelivery? then Some(m.task) else None)]
  }

  lemma DeliverExactly(l: Link, i: Identity, m: Message, order: Order, env: Env)
    requires SettledOk(l.settled, l.out.now) && Inv(l.out)
    requires order.DuplicateDelivery? ==> m.TaskDelivery? && ToUs(l, i)
    ensures var n := Deliver(l, i, m, order, env);
            if New(l, i, m) && !order.DuplicateDelivery? && (ToUs(l, i) && IsAnswer(m) ==> AnswersOurs(l.out, i, m, env))
               && (Answerable(l, i, m) ==> Room(l, l.out))
            then Delivers(l, n, i, m) else n.events == l.events
  {
    hide Occupied, AnswerRequest, Matching, Lookup, PruneSettled, Refuse, SendControl, SettledOk, Inv, AnswersOurs, Owned;
    var p := if Settles(l, i, m) then l.(settled := PruneSettled(l.settled, l.out.now)) else l;
    PruneSettledExact(l.settled, l.out.now);
    RefuseEvents(p, i, env.frames);
    AnswerStays(AwaitSettlement(p, i, m), i, m, env);
    AllOwned(p.out);
    MatchingIs(p.out, i, m, env);
  }

  lemma AnswerStays(l: Link, i: Identity, m: Message, env: Env)
    ensures var n := AnswerRequest(l, i, m, env); n == l.(out := n.out) && OutOnly(l.out, n.out) && n.out.heap == l.out.heap
  {
    hide CompleteWithResponse;
    var r := Matching(l.out, i, m, env);
    if r.Some? && RequestOf(m).Some? {
      AnsweredOnly(l.out, r.value, RequestOf(m).value);
      AnsweredHeap(l.out, r.value, RequestOf(m).value);
    }
  }

  lemma AnsweredHeap(s: Out, r: nat, request: OpId)
    ensures CompleteWithResponse(s, r, request).heap == s.heap
  {
    hide Without;
  }

  lemma MatchingIs(s: Out, i: Identity, m: Message, env: Env)
    requires Owned(s)
    ensures IsAnswer(m) <==> RequestOf(m).Some?
    ensures Matching(s, i, m, env).Some? <==> AnswersOurs(s, i, m, env)
  {
  }

  /** What awaits an answer is a request, or an operation on a resource. */
  ghost predicate Owned(s: Out) {
    && (forall k :: k in s.pendingData.m ==> s.pendingData.m[k] < |s.heap| && s.heap[s.pendingData.m[k]].message.DataRequest?)
    && (forall k :: k in s.responses.m ==> s.responses.m[k] < |s.heap| && s.heap[s.responses.m[k]].message.ResourceOperation?)
  }

  lemma AllOwned(s: Out)
    requires Inv(s)
    ensures Owned(s)
  {
    hide HeapOk, ReservedOk, SendingFenced, LockHeld, NoneForgotten, TimersOk, ExpiriesOk, WakeOk, FlagsOk, QueueOk;
    hide WithinLimits, Awake, StoppedOk;
  }

  lemma {:induction false} FoundFirst(ds: seq<Delivery>, i: Identity, task: string)
    ensures var at := FindDelivery(ds, i, task);
            at.Some? ==> forall j :: 0 <= j < at.value ==> !SameDelivery(ds[j], i, task)
  {
    if ds != [] {
      FoundFirst(ds[..|ds| - 1], i, task);
    }
  }

  lemma OrderExactly(l: Link, i: Identity, m: Message)
    ensures var (n, order) := AcceptDelivery(l, i, m);
            && n == l.(deliveries := n.deliveries) && (order.StaleDelivery? <==> Overtaken(l, i, m))
            && (order.DuplicateDelivery? <==> Repeated(l, i, m)) && (order.DuplicateDelivery? ==> m.TaskDelivery?)
  {
    hide RememberDelivery;
    if m.TaskDelivery? {
      FoundFirst(l.deliveries, i, m.task);
      var at := FindDelivery(l.deliveries, i, m.task);
      forall k: nat | SeenAt(l, i, m.task, k) ensures at == Some(k) {
        assert SameDelivery(l.deliveries[k], i, m.task);
        forall j | 0 <= j < k ensures !SameDelivery(l.deliveries[j], i, m.task) {
        }
      }
      assert at.Some? ==> SeenAt(l, i, m.task, at.value);
    }
  }

  /** A delivery that is neither overtaken nor repeated is the newest of its Task from then on. */
  lemma OrderRemembered(l: Link, i: Identity, m: Message)
    requires m.TaskDelivery? && !Overtaken(l, i, m) && !Repeated(l, i, m) && |l.deliveries| <= 4096
    ensures var n := AcceptDelivery(l, i, m).0;
            && |n.deliveries| <= 4096
            && (exists k :: 0 <= k < |n.deliveries| && SeenAt(n, i, m.task, k) && n.deliveries[k].sequence == i.sequence)
            && OthersRemembered(l, n, i, m.task)
  {
    hide Overtaken, Repeated;
    OrderExactly(l, i, m);
    FoundFirst(l.deliveries, i, m.task);
    var at := FindDelivery(l.deliveries, i, m.task);
    var n := AcceptDelivery(l, i, m).0;
    if at.Some? {
      assert SeenAt(l, i, m.task, at.value);
      NewOrder(l, i, m);
      assert n.deliveries == l.deliveries[at.value := Delivery(i.source, i.generation, i.session, m.task, i.sequence)];
      assert SeenAt(n, i, m.task, at.value);
      forall j | 0 <= j < |l.deliveries| && !SameDelivery(l.deliveries[j], i, m.task) ensures l.deliveries[j] in n.deliveries {
        assert n.deliveries[j] == l.deliveries[j];
      }
    } else {
      assert forall k :: 0 <= k < |l.deliveries| ==> !SameDelivery(l.deliveries[k], i, m.task);
      assert SeenAt(n, i, m.task, |n.deliveries| - 1);
    }
  }

  lemma NewOrder(l: Link, i: Identity, m: Message)
    requires m.TaskDelivery? && !Overtaken(l, i, m) && !Repeated(l, i, m)
    ensures var at := FindDelivery(l.deliveries, i, m.task);
            AcceptDelivery(l, i, m).0.deliveries ==
            RememberDelivery(l.deliveries, at, Delivery(i.source, i.generation, i.session, m.task, i.sequence))
  {
    hide Overtaken, Repeated, FindDelivery, RememberDelivery;
    OrderExactly(l, i, m);
  }

  /** Of the deliveries of other Tasks at most the first is forgotten, to make room. */
  predicate OthersRemembered(l: Link, n: Link, i: Identity, task: string) {
    forall j :: 0 <= j < |l.deliveries| && !SameDelivery(l.deliveries[j], i, task) && (j > 0 || |l.deliveries| < 4096) ==>
      l.deliveries[j] in n.deliveries
  }

  lemma ScreenExactly(l: Link, i: Identity, m: Message, env: Env)
    requires SettledOk(l.settled, l.out.now) && Inv(l.out) && (Reliable(m) ==> i.dest.Some?)
    ensures var n := Screen(l, i, m, env);
            if New(l, i, m) && Proper(l, i, m, env) && (Answerable(l, i, m) ==> Room(l, l.out))
            then Delivers(l, n, i, m) else n.events == l.events
  {
    hide Refuse, Deliver, AcceptDelivery, Occupied, SettledOk, Inv, AnswersOurs, Room, Unsettled, Overtaken, Repeated;
    RefuseEvents(l, i, env.frames);
    OrderExactly(l, i, m);
    var (n, order) := AcceptDelivery(l, i, m);
    RefuseEvents(n, i, env.frames);
    if !order.StaleDelivery? && !(order.DuplicateDelivery? && !Addressed(l, i)) { DeliverExactly(n, i, m, order, env); }
    SameRoom(l, n, i, m);
  }

  lemma SameRoom(l: Link, n: Link, i: Identity, m: Message)
    requires n.settled == l.settled && n.pending == l.pending && n.out.now == l.out.now && n.out.cfg == l.out.cfg
    ensures New(n, i, m) == New(l, i, m) && forall s :: Room(n, s) == Room(l, s)
  {
    hide Occupied, PruneSettled;
  }

  // ----- refusals -------------------------------------------------------------------------------------

  /** The message is answered with a rejection: wrong sender, overtaken, or no room to await a verdict. */
  predicate Declines(l: Link, s: Out, i: Identity, m: Message, env: Env) {
    && ToUs(l, i)
    && (|| !RightSender(l, i, m, env)
        || Overtaken(l, i, m)
        || (&& Reliable(m) && IdOf(i) !in l.pending.m && !Repeated(l, i, m) && (IsAnswer(m) ==> AnswersOurs(s, i, m, env))
            && !Room(l, s)))
  }

  /** The rejection is queued if it fits, and stays on record if the history has room for it. */
  ghost predicate Declined(l: Link, s: Out, n: Link, i: Identity, frames: nat) {
    && n.pending == l.pending
    && (if AnswerFits(s, frames) then Queues(s, n.out, Rejected(i.op, i.msgId), i.source) else n.out.heap == s.heap)
    && Lookup(n.settled, IdOf(i)) == if IdOf(i) in l.pending.m || |PruneSettled(l.settled, l.out.now)| + |l.pending.m| < 4096
                                     then Some(Settled(IdOf(i), false, l.out.now + 600_000, None)) else None
  }

  /** Nothing is queued and no result recorded. */
  ghost predicate QueuesNothing(l: Link, s: Out, n: Link) {
    n.out.heap == s.heap && forall e :: e in n.settled ==> e in l.settled
  }

  lemma RefuseExactly(l: Link, i: Identity, frames: nat)
    requires SettledOk(l.settled, l.out.now) && Inv(l.out) && Unsettled(l, i)
    ensures Declined(l, l.out, Refuse(l, i, frames), i, frames)
  {
    hide SettledOk, Inv, SendControl, AnswerFits, Queues, Lookup, PruneSettled;
    PruneSettledExact(l.settled, l.out.now);
    AnswerQueued(l.out, Rejected(i.op, i.msgId), i.source, |l.pending.m|, frames);
    AppendLookup(PruneSettled(l.settled, l.out.now), Settled(IdOf(i), false, l.out.now + RETENTION_MS, None), IdOf(i));
  }

  lemma DeliverDeclines(l: Link, i: Identity, m: Message, order: Order, env: Env)
    requires SettledOk(l.settled, l.out.now) && Inv(l.out) && Unsettled(l, i)
    requires order.DuplicateDelivery? ==> m.TaskDelivery?
    ensures var n := Deliver(l, i, m, order, env);
            if Answerable(l, i, m) && IdOf(i) !in l.pending.m && !order.DuplicateDelivery?
               && (IsAnswer(m) ==> AnswersOurs(l.out, i, m, env)) && !Room(l, l.out)
            then Declined(l, l.out, n, i, env.frames) else QueuesNothing(l, l.out, n)
  {
    hide Occupied, AnswerRequest, Matching, Lookup, PruneSettled, Refuse, SendControl, SettledOk, Inv, AnswersOurs, Owned;
    hide Declined;
    PruneSettledExact(l.settled, l.out.now);
    var p := if Settles(l, i, m) then l.(settled := PruneSettled(l.settled, l.out.now)) else l;
    AnswerStays(AwaitSettlement(p, i, m), i, m, env);
    AllOwned(l.out);
    MatchingIs(l.out, i, m, env);
    PruneTwice(l.settled, l.out.now);
    RefuseExactly(p, i, env.frames);
    SameDeclined(l, p, l.out, Refuse(p, i, env.frames), i, env.frames);
  }

  lemma SameDeclined(l: Link, p: Link, s: Out, n: Link, i: Identity, frames: nat)
    requires p.pending == l.pending && p.out.now == l.out.now
    requires PruneSettled(p.settled, l.out.now) == PruneSettled(l.settled, l.out.now)
    ensures Declined(p, s, n, i, frames) == Declined(l, s, n, i, frames)
  {
    hide PruneSettled, Lookup, AnswerFits, Queues;
  }

  lemma ScreenDeclines(l: Link, i: Identity, m: Message, env: Env)
    requires SettledOk(l.settled, l.out.now) && Inv(l.out) && Unsettled(l, i) && (Reliable(m) ==> i.dest.Some?)
    ensures var n := Screen(l, i, m, env);
            if Declines(l, l.out, i, m, env) then Declined(l, l.out, n, i, env.frames) else QueuesNothing(l, l.out, n)
  {
    hide Refuse, Deliver, AcceptDelivery, Occupied, SettledOk, Inv, AnswersOurs, Room, Overtaken, Repeated, Declined;
    RefuseExactly(l, i, env.frames);
    OrderExactly(l, i, m);
    var (n, order) := AcceptDelivery(l, i, m);
    RefuseExactly(n, i, env.frames);
    if !order.StaleDelivery? && !(order.DuplicateDelivery? && !Addressed(l, i)) {
      DeliverDeclines(n, i, m, order, env);
      SameDeclined(l, n, l.out, Deliver(n, i, m, order, env), i, env.frames);
    }
    SameDeclined(l, n, l.out, Refuse(n, i, env.frames), i, env.frames);
    SameRoom(l, n, i, m);
  }

  // ----- a complete message ---------------------------------------------------------------------------

  lemma ReachesHeard(l: Link, i: Identity, m: Message, env: Env)
    ensures Reaches(l, i, Some(m), env) <==> Heard(l, i, Some(m), env) && !m.Control? && (NeedsConfirmation(m) ==> i.dest.Some?)
  {
    hide MessagePriority, KeepUnfenced;
  }

  lemma HeardScreened(l: Link, i: Identity, m: Message, env: Env)
    requires !m.Control?
    ensures var n := HandleComplete(l, i, Some(m), env);
            if Heard(l, i, Some(m), env) then n == Screen(Received(l, i, m, env), i, m, env) else n == l
  {
    hide Screen, CompoundReceipt, PassesFence, KeepUnfenced, NeedsConfirmation, ValidStateSource, MessagePriority;
  }

  lemma ControlRaisesNone(l: Link, i: Identity, m: Message, env: Env)
    requires m.Control?
    ensures HandleComplete(l, i, Some(m), env).events == l.events
  {
    hide HandleControl, ActivateFence, MessagePriority;
    ActivateShape(l, i.source, i.generation, i.session, env.admits(i.source));
    ControlEvents(ActivateFence(l, i.source, i.generation, i.session, env.admits(i.source)).0, m.control, i.source, i.dest, env);
  }

  lemma NoDestination(l: Link, i: Identity, m: Message, env: Env)
    requires NeedsConfirmation(m) && i.dest.None?
    ensures Screen(l, i, m, env) == l
  {
  }

  /** `b` has the deliveries, history and requests of `l`. */
  ghost predicate SameSide(l: Link, b: Link, m: Message) {
    && b.settled == l.settled && b.pending == l.pending && b.events == l.events && b.deliveries == l.deliveries
    && b.out.heap == l.out.heap && b.out.cfg == l.out.cfg && b.out.now == l.out.now
    && (!m.TaskReport? ==> b.out == l.out)
  }

  /** Source and receipt are taken in without touching what the later checks look at. */
  lemma ReceivedSame(l: Link, i: Identity, m: Message, env: Env)
    requires LinkInv(l) && !l.out.stopped
    ensures var b := Received(l, i, m, env); SameSide(l, b, m) && SettledOk(b.settled, b.out.now) && Inv(b.out)
  {
    hide ActivateFence, CompoundReceipt, Inv, FencesOk, TableOk, HistoryOk, RoomOk, SettledOk;
    ReceivedShape(l, i, m, env);
    ActivateShape(l, i.source, i.generation, i.session, env.admits(i.source));
  }

  lemma SameConditions(l: Link, b: Link, i: Identity, m: Message, env: Env)
    requires SameSide(l, b, m)
    ensures New(b, i, m) == New(l, i, m) && Unsettled(b, i) == Unsettled(l, i) && (forall s :: Room(b, s) == Room(l, s))
            && Proper(b, i, m, env) == Proper(l, i, m, env)
  {
    hide Occupied, PruneSettled;
  }

  lemma SameOutcomes(l: Link, b: Link, n: Link, i: Identity, m: Message, env: Env)
    requires SameSide(l, b, m)
    ensures forall s :: Declines(b, s, i, m, env) == Declines(l, s, i, m, env)
    ensures forall s :: Declined(b, s, n, i, env.frames) == Declined(l, s, n, i, env.frames)
    ensures Delivers(b, n, i, m) == Delivers(l, n, i, m)
    ensures forall s :: QueuesNothing(b, s, n) == QueuesNothing(l, s, n)
  {
    hide Occupied, PruneSettled, AnswersOurs, Lookup, AnswerFits, Queues;
  }

  /**
    A complete message raises an event exactly if it reaches the application's side: it is decoded and labelled as what
    it is, its source is current, a sender who may send it sent it, in order, it answers what was asked, is new, and has
    room.  Then there is one event, with its identity and content; otherwise there is none.
    */
  lemma DeliveredExactly(l: Link, i: Identity, decoded: Option<Message>, env: Env)
    requires LinkInv(l) && !l.out.stopped
    ensures var n := HandleComplete(l, i, decoded, env);
            if Reaches(l, i, decoded, env) && New(l, i, decoded.value) && Proper(l, i, decoded.value, env)
               && (Answerable(l, i, decoded.value) ==> Room(l, Received(l, i, decoded.value, env).out))
            then Delivers(l, n, i, decoded.value) else n.events == l.events
  {
    hide LinkInv, ActivateFence, Received, Screen, Proper, Room, NeedsConfirmation, HandleComplete, Reaches, New, Heard, Inv;
    if decoded.None? {
      Undecoded(l, i, env);
    } else if decoded.value.Control? {
      ControlRaisesNone(l, i, decoded.value, env);
      ControlOut(l, i, decoded.value, env);
    } else {
      var m := decoded.value;
      ReachesHeard(l, i, m, env);
      HeardScreened(l, i, m, env);
      ReceivedSame(l, i, m, env);
      var b := Received(l, i, m, env);
      SameConditions(l, b, i, m, env);
      SameOutcomes(l, b, HandleComplete(l, i, decoded, env), i, m, env);
      ReliableNeeds(m);
      if Reliable(m) && i.dest.None? { NoDestination(b, i, m, env); }
      else { ScreenExactly(b, i, m, env); }
    }
  }

  lemma Undecoded(l: Link, i: Identity, env: Env)
    ensures HandleComplete(l, i, None, env) == l && !Reaches(l, i, None, env)
  {
  }

  lemma ControlOut(l: Link, i: Identity, m: Message, env: Env)
    requires m.Control?
    ensures !Reaches(l, i, Some(m), env)
  {
    hide MayActivate, Labelled;
  }

  lemma ReliableNeeds(m: Message)
    ensures Reliable(m) <==> NeedsConfirmation(m)
  {
  }

  /**
    A complete message that is not on record as settled is answered with a rejection exactly if it reaches the
    application's side and is declined there; nothing else has a message queued.
    */
  lemma RefusedExactly(l: Link, i: Identity, m: Message, env: Env)
    requires LinkInv(l) && !l.out.stopped && !m.Control? && Unsettled(l, i)
    ensures var n := HandleComplete(l, i, Some(m), env);
            var s := Received(l, i, m, env).out;
            if Reaches(l, i, Some(m), env) && Declines(l, s, i, m, env) then Declined(l, s, n, i, env.frames)
            else QueuesNothing(l, l.out, n)
  {
    hide LinkInv, ActivateFence, Received, Screen, NeedsConfirmation, HandleComplete, Reaches, Heard, Inv, Declines, Declined;
    hide Unsettled, New, Proper, Room;
    ReachesHeard(l, i, m, env);
    HeardScreened(l, i, m, env);
    ReceivedSame(l, i, m, env);
    var b := Received(l, i, m, env);
    SameConditions(l, b, i, m, env);
    SameOutcomes(l, b, HandleComplete(l, i, Some(m), env), i, m, env);
    ReliableNeeds(m);
    if Reliable(m) && i.dest.None? { NoDestination(b, i, m, env); }
    else { ScreenDeclines(b, i, m, env); }
  }

  /** A report of the Asset the Task is assigned to is delivered once there is room for it; one of a Gateway never is. */
  lemma ReportsOfAssets(l: Link, i: Identity, m: Message, env: Env)
    requires LinkInv(l) && !l.out.stopped && m.TaskReport?
    ensures i.source.role == Gateway ==> HandleComplete(l, i, Some(m), env).events == l.events
    ensures i.source.role == Asset && Labelled(i, m) && SourceCurrent(l, i, env) && ToUs(l, i)
            && (env.assignee == None || env.assignee == Some(i.source.id)) && Unsettled(l, i) && IdOf(i) !in l.pending.m
            && Room(l, Received(l, i, m, env).out) ==>
              HandleComplete(l, i, Some(m), env).events == l.events + [Event(IdOf(i), i.sequence, true, l.out.now, m)]
  {
    hide LinkInv, Received, HandleComplete, Room, Labelled, MayActivate, Unsettled;
    DeliveredExactly(l, i, Some(m), env);
  }

  // ----- the answered request -------------------------------------------------------------------------

  /** The request, or the operation on a resource, whose answer `m` is. */
  function Asked(s: Out, m: Message): nat
    requires IsAnswer(m)
  {
    var request := RequestOf(m).value;
    if request in s.pendingData.m then s.pendingData.m[request]
    else if request in s.responses.m then s.responses.m[request] else 0
  }

  /** The request that waits for its answer ends with it; nothing is sent for the delivery of anything else. */
  ghost predicate EndsRequest(s: Out, n: Out, l: Link, i: Identity, m: Message) {
    if ToUs(l, i) && IsAnswer(m) then Ends(s, n, Asked(s, m), Responded) else n == s
  }

  lemma AskedIs(s: Out, i: Identity, m: Message, env: Env)
    requires Inv(s) && IsAnswer(m) && Matching(s, i, m, env).Some?
    ensures var r := Asked(s, m);
            && Matching(s, i, m, env) == Some(r) && r < |s.heap| && s.heap[r].key == RequestOf(m).value && r in Awaiting(s)
            && (s.heap[r].message.DataRequest? || s.heap[r].message.ResourceOperation?)
  {
    hide HeapOk, ReservedOk, SendingFenced, LockHeld, NoneForgotten, TimersOk, ExpiriesOk, WakeOk, FlagsOk, QueueOk;
    hide WithinLimits, Awake, StoppedOk;
  }

  lemma RaisedOut(l: Link, i: Identity, m: Message, env: Env)
    requires Inv(l.out) && (Addressed(l, i) && IsAnswer(m) ==> Matching(l.out, i, m, env).Some?)
    ensures EndsRequest(l.out, AnswerRequest(l, i, m, env).out, l, i, m)
  {
    hide Inv, Ends, Asked, CompleteWithResponse, Awaiting;
    if Addressed(l, i) && IsAnswer(m) {
      AskedIs(l.out, i, m, env);
      ResponseEffect(l.out, Asked(l.out, m));
    }
  }

  lemma DeliverEndsRequest(l: Link, i: Identity, m: Message, order: Order, env: Env)
    requires Inv(l.out) && Deliver(l, i, m, order, env).events != l.events
    ensures EndsRequest(l.out, Deliver(l, i, m, order, env).out, l, i, m)
  {
    hide Occupied, AnswerRequest, Matching, Lookup, PruneSettled, Refuse, SendControl, Inv, EndsRequest;
    var p := if Settles(l, i, m) then l.(settled := PruneSettled(l.settled, l.out.now)) else l;
    RefuseEvents(p, i, env.frames);
    var a := AwaitSettlement(p, i, m);
    if Addressed(l, i) && IsAnswer(m) && Matching(l.out, i, m, env).None? {} else { RaisedOut(a, i, m, env); }
    SameEnd(l, a, AnswerRequest(a, i, m, env).out, i, m);
  }

  lemma SameEnd(l: Link, a: Link, n: Out, i: Identity, m: Message)
    requires a.out.cfg == l.out.cfg
    ensures forall s :: EndsRequest(s, n, a, i, m) == EndsRequest(s, n, l, i, m)
  {
    hide Ends, Asked;
  }

  lemma ScreenEndsRequest(l: Link, i: Identity, m: Message, env: Env)
    requires Inv(l.out) && Screen(l, i, m, env).events != l.events
    ensures EndsRequest(l.out, Screen(l, i, m, env).out, l, i, m)
  {
    hide Refuse, Deliver, AcceptDelivery, Inv, EndsRequest, NeedsConfirmation, Misdirected;
    RefuseEvents(l, i, env.frames);
    OrderExactly(l, i, m);
    var (n, order) := AcceptDelivery(l, i, m);
    RefuseEvents(n, i, env.frames);
    if !order.StaleDelivery? && !(order.DuplicateDelivery? && !Addressed(l, i)) && Deliver(n, i, m, order, env).events != n.events {
      DeliverEndsRequest(n, i, m, order, env);
      SameEnd(l, n, Deliver(n, i, m, order, env).out, i, m);
    }
  }

  /** Delivering the answer to a request ends that request with it, and delivering anything else sends nothing. */
  lemma RequestAnswered(l: Link, i: Identity, m: Message, env: Env)
    requires LinkInv(l) && !l.out.stopped && HandleComplete(l, i, Some(m), env).events != l.events
    ensures EndsRequest(Received(l, i, m, env).out, HandleComplete(l, i, Some(m), env).out, l, i, m)
  {
    hide LinkInv, Received, Screen, HandleComplete, Heard, Inv, EndsRequest;
    if m.Control? {
      ControlRaisesNone(l, i, m, env);
    } else {
      HeardScreened(l, i, m, env);
      ReceivedSame(l, i, m, env);
      var b := Received(l, i, m, env);
      if Screen(b, i, m, env).events != b.events { ScreenEndsRequest(b, i, m, env); }
      SameEnd(l, b, HandleComplete(l, i, Some(m), env).out, i, m);
    }
  }

  // ----- sources --------------------------------------------------------------------------------------

  /** Its source has since started anew. */
  predicate Superseded(r: Reassembly, source: Node, generation: nat, session: string) {
    && r.identity.source == source
    && (r.identity.generation < generation || (r.identity.generation == generation && r.identity.session != session))
  }

  /** A source that may be activated stands at its fence then, and exactly what its predecessors left half received is dropped. */
  lemma ActivatedExactly(l: Link, source: Node, generation: nat, session: string, admitted: bool)
    ensures var (n, ok) := ActivateFence(l, source, generation, session, admitted);
            var anew := source in l.fences.m ==> generation > l.fences.m[source].generation;
            && (ok <==> MayActivate(l.fences.m, source, generation, session, admitted))
            && (!ok ==> n == l)
            && (ok ==>
                  && n.fences.m == l.fences.m[source := Fence(generation, session)]
                  && forall r :: r in n.partial <==> r in l.partial && !(anew && Superseded(r, source, generation, session)))
  {
    KeepUnfencedExact(l.partial, source, generation, session);
    hide KeepUnfenced;
  }

  // ----- answers to what was sent ---------------------------------------------------------------------

  /** `r` is the tracked operation sent to `from` under that identity and number. */
  predicate SentAs(s: Out, r: nat, from: Node, op: OpId, msgId: nat) {
    && r < |s.heap| && r in s.byOperation.m.Values && s.heap[r].dest == Some(from) && s.heap[r].msgId == msgId
    && op == match s.heap[r].message
             case DataResponse(request, _) => request
             case ObjectContent(Some(request), _) => request
             case _ => s.heap[r].key
  }

  /** The answer is applied to the one operation it names, if there is one. */
  ghost predicate Applied(s: Out, n: Out, from: Node, c: ControlKind)
    requires !c.SourceActive?
  {
    && (forall r :: SentAs(s, r, from, c.op, c.msgId) ==> n == ApplyAnswer(s, r, c))
    && ((forall r :: !SentAs(s, r, from, c.op, c.msgId)) ==> n == s)
  }

  lemma AppliesExactly(s: Out, from: Node, c: ControlKind)
    requires Inv(s) && !c.SourceActive?
    ensures Applied(s, AnswerTo(s, from, c.op, c.msgId, c), from, c)
  {
    hide Inv, Linked, ApplyAnswer;
    forall r: nat ensures SentAs(s, r, from, c.op, c.msgId) <==> r < |s.heap| && AnswerFound(s, r, from, c.op, c.msgId) {
    }
    FoundKnown(s, from, c.op, c.msgId);
    InvLinked(s);
    forall r: nat | SentAs(s, r, from, c.op, c.msgId) ensures FoundAnswer(s, from, c.op, c.msgId) == Some(r) {
      AnswerUnique(s, r, FoundAnswer(s, from, c.op, c.msgId).value, from, c.op, c.msgId);
    }
  }

  lemma FoundKnown(s: Out, from: Node, op: OpId, msgId: nat)
    requires Inv(s)
    ensures FoundAnswer(s, from, op, msgId).Some? ==> FoundAnswer(s, from, op, msgId).value < |s.heap|
  {
    AllTracked(s);
    hide Inv;
  }

  lemma InvLinked(s: Out)
    requires Inv(s)
    ensures Linked(s)
  {
    hide Linked, WithinLimits, Awake, StoppedOk;
  }

  lemma AllTracked(s: Out)
    requires Inv(s)
    ensures forall r :: r in s.byOperation.m.Values ==> r < |s.heap|
  {
    hide HeapOk, ReservedOk, SendingFenced, LockHeld, NoneForgotten, TimersOk, ExpiriesOk, WakeOk, FlagsOk, QueueOk;
    hide WithinLimits, Awake, StoppedOk;
  }

  /** A report may carry the receipt of what was sent to its Asset; it is taken as a confirmation, and nothing else is. */
  lemma ReceiptTaken(l: Link, i: Identity, m: Message, env: Env)
    requires LinkInv(l) && !l.out.stopped
    ensures if m.TaskReport? && i.receipt.Some? && i.source.role == Asset && ToUs(l, i)
            then Applied(l.out, Received(l, i, m, env).out, i.source, Confirmed(i.receipt.value.op, i.receipt.value.msgId))
            else Received(l, i, m, env).out == l.out
  {
    hide Inv, InboundInv, ActivateFence, AnswerTo, Applied;
    ActivateShape(l, i.source, i.generation, i.session, env.admits(i.source));
    if i.receipt.Some? { AppliesExactly(l.out, i.source, Confirmed(i.receipt.value.op, i.receipt.value.msgId)); }
  }

  /** The frame says that it is a control message. */
  predicate LabelledControl(i: Identity) { i.priority == Safety && i.kind.ControlMessageKind? }

  /** The fences once the source of the message is known, and the source it announces. */
  function Announced(fences: map<Node, Fence>, l: Link, i: Identity, c: ControlKind, env: Env): map<Node, Fence> {
    if c.SourceActive? && i.source.role == Gateway && (i.dest == None || ToUs(l, i))
       && MayActivate(fences, c.source, c.generation, c.session, env.admits(c.source))
    then fences[c.source := Fence(c.generation, c.session)] else fences
  }

  /**
    A control message from a current source: an answer to this node is applied to the operation it names, and a Gateway
    announces a source, whose fence then stands at its generation.
    */
  lemma ControlExactly(l: Link, i: Identity, c: ControlKind, env: Env)
    requires LinkInv(l) && !l.out.stopped && LabelledControl(i) && SourceCurrent(l, i, env)
    ensures var n := HandleComplete(l, i, Some(Control(c)), env);
            && (!c.SourceActive? && ToUs(l, i) ==> Applied(l.out, n.out, i.source, c))
            && (c.SourceActive? || !ToUs(l, i) ==> n.out == l.out)
            && n.events == l.events && n.pending == l.pending && n.settled == l.settled
            && n.fences.m == Announced(l.fences.m[i.source := Fence(i.generation, i.session)], l, i, c, env)
  {
    hide Inv, InboundInv, AnswerTo, Applied, KeepUnfenced;
    var b := ActivateFence(l, i.source, i.generation, i.session, env.admits(i.source)).0;
    if !c.SourceActive? { AppliesExactly(b.out, i.source, c); }
  }

  // ----- a frame --------------------------------------------------------------------------------------

  /** A frame raises an event exactly if it completes a message that is delivered, and then it raises just that one. */
  lemma FrameDelivers(l: Link, f: Frame, receivedAt: nat, env: Env)
    requires LinkInv(l) && f.WellFormed()
    ensures Arriving(l, f, receivedAt).None? ==> Receive(l, f, receivedAt, env).events == l.events
    ensures Arriving(l, f, receivedAt).Some? ==>
              var (p, i, bytes) := Arriving(l, f, receivedAt).value;
              var decoded := env.decode(bytes);
              var n := Receive(l, f, receivedAt, env);
              if Reaches(p, i, decoded, env) && New(p, i, decoded.value) && Proper(p, i, decoded.value, env)
                 && (Answerable(p, i, decoded.value) ==> Room(p, Received(p, i, decoded.value, env).out))
              then Delivers(p, n, i, decoded.value) else n.events == l.events
  {
    hide LinkInv, HandleComplete, Received, Reaches, New, Proper, Room, Delivers, Receive, Answerable, AnswersOurs, Arriving;
    LaterCopyReceived(l, f, receivedAt, env);
    if Arriving(l, f, receivedAt).Some? {
      var (p, i, bytes) := Arriving(l, f, receivedAt).value;
      assert !p.out.stopped by { ArrivesRunning(l, f, receivedAt); }
      DeliveredExactly(p, i, env.decode(bytes), env);
    }
  }

  lemma ArrivesRunning(l: Link, f: Frame, receivedAt: nat)
    requires Arriving(l, f, receivedAt).Some?
    ensures !l.out.stopped
  {
    hide PassesFence, ExpectsContent, Collect;
  }
}
