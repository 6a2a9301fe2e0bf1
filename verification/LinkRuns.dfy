/** Safety of the transport over every run: any step may happen between a pump's start and its end. */
module LinkRuns {
  import opened Wrappers
  import opened LinkTypes
  import opened LinkOutbound
  import opened LinkReassembly
  import opened LinkInbound
  import opened LinkOutboundInvariants
  import opened LinkOperations
  import opened LinkSubmission
  import opened LinkLifecycle
  import opened LinkInboundInvariants
  import opened LinkMessages
  import opened LinkOnce

  datatype OutStep =
    | DoSubmit(m: Message, dest: Option<Node>, op: OpId, frames: nat)
    | DoReserve(m: Message, to: Node, op: OpId, frames: nat)
    | DoDispatch(op: OpId, frames: nat)
    | DoCancelReservation(op: OpId)
    | DoPumpBegin(fits: nat -> bool)
    | DoPumpEnd(sent: bool)
    | DoRetry(r: nat)
    | DoDeadline(r: nat)
    | DoWake
    | DoCancel(op: OpId)
    | DoPause
    | DoResume

  datatype Step =
    | Sending(step: OutStep)
    | Tick(now: nat)
    | ReceiveFrame(frame: Frame, receivedAt: nat, env: Env)
    | ReassemblyTimeout(key: Key, frames: nat)
    | SettleDelivery(id: SettlementId, accepted: bool, frames: nat)
    | SettleTask(id: SettlementId, report: Message, dest: Node, op: OpId, receiptFrames: nat, reportFrames: nat)
    | PendingTimeout(id: SettlementId, frames: nat)
    | AnnounceSource(source: Node, generation: nat, session: string, admits: bool, frames: nat)
    | StopService(refs: seq<nat>)

  function OutNext(s: Out, pendingInbound: nat, step: OutStep): Out {
    match step
    case DoSubmit(m, dest, op, frames) => Submit(s, m, dest, op, false, pendingInbound, frames).0
    case DoReserve(m, to, op, frames) => Reserve(s, m, to, op, frames).0
    case DoDispatch(op, frames) => DispatchReserved(s, op, pendingInbound, frames).0
    case DoCancelReservation(op) => CancelReservation(s, op)
    case DoPumpBegin(fits) => if s.requested then PumpFires(s, fits) else s
    case DoPumpEnd(sent) => if s.sending.Some? then PumpEnds(s, sent) else s
    case DoRetry(r) => RetryFires(s, r)
    case DoDeadline(r) => DeadlineFires(s, r)
    case DoWake => WakeFires(s)
    case DoCancel(op) => Cancel(s, op)
    case DoPause => Pause(s)
    case DoResume => Resume(s)
  }

  ghost function Next(l: Link, step: Step): Link {
    match step
    case Sending(s) => l.(out := OutNext(l.out, |l.pending.m|, s))
    case Tick(now) => l.(out := l.out.(now := now))
    case ReceiveFrame(frame, receivedAt, env) => Receive(l, frame, receivedAt, env)
    case ReassemblyTimeout(key, frames) => ReassemblyExpires(l, key, frames)
    case SettleDelivery(id, accepted, frames) => Settle(l, id, accepted, frames).0
    case SettleTask(id, report, dest, op, receiptFrames, reportFrames) =>
      SettleWithReport(l, id, report, dest, op, receiptFrames, reportFrames).0
    case PendingTimeout(id, frames) => PendingExpires(l, id, frames)
    case AnnounceSource(source, generation, session, admits, frames) => Announce(l, source, generation, session, admits, frames)
    case StopService(refs) => StopLink(l, refs)
  }

  /** What the clock, the frame decoder and the caller of `stop` guarantee. */
  ghost predicate Enabled(l: Link, step: Step) {
    match step
    case Tick(now) => MayTick(l.out, now)
    case ReceiveFrame(frame, _, _) => frame.WellFormed()
    case StopService(refs) => Concerns(l.out, refs)
    case _ => true
  }

  ghost predicate Initial(l: Link) {
    && ConfigOk(l.out.cfg)
    && l == Link(Out(l.out.cfg, l.out.now, [], [], [], Table(map[]), Table(map[]), Table(map[]), Table(map[]), Table(map[]),
                     [], false, None, Table(map[]), 0, 0, 0, None, false, false, false, 0, None),
                 Table(map[]), [], Table(map[]), [], [], [])
  }

  ghost function Run(l: Link, steps: seq<Step>): Link {
    if steps == [] then l else Next(Run(l, steps[..|steps| - 1]), steps[|steps| - 1])
  }

  ghost predicate Feasible(l: Link, steps: seq<Step>) {
    steps == [] ||
    (Feasible(l, steps[..|steps| - 1]) && Enabled(Run(l, steps[..|steps| - 1]), steps[|steps| - 1]))
  }

  // ----- single steps -------------------------------------------------------------------------------

  lemma FinishOnly(s: Out)
    ensures OutOnly(s, FinishPump(s))
  {
    hide AnyMayGo;
  }

  lemma AfterAllOnly(s: Out, r: nat)
    ensures OutOnly(s, AfterAllChunks(s, r))
  {
    hide NeedsConfirmation;
  }

  lemma FinishPairOnly(s: Out, t: Transmission)
    requires t.report.Some?
    ensures OutOnly(s, FinishPair(s, t))
  {
    hide AfterAllChunks;
    AfterAllOnly(s, t.ref);
    AfterAllOnly(AfterAllChunks(s, t.ref), t.report.value);
  }

  lemma PairFailedOnly(s: Out, t: Transmission)
    requires t.report.Some?
    ensures OutOnly(s, PairFailed(s, t))
  {
    hide Tracked;
  }

  lemma FailBestEffortOnly(s: Out, r: nat)
    ensures OutOnly(s, FailBestEffort(s, r))
  {
    hide Without;
  }

  lemma PumpEndsOnly(s: Out, ok: bool)
    requires s.sending.Some?
    ensures OutOnly(s, PumpEnds(s, ok))
  {
    hide FinishPump, NeedsConfirmation, Tracked, FailBestEffort, AfterAllChunks, FinishPair, PairFailed;
    var t := s.sending.value;
    FinishOnly(s);
    FailBestEffortOnly(s, t.ref);
    FinishOnly(FailBestEffort(s, t.ref));
    FinishOnly(Defer(s, t.ref, [t.chunk] + At(s, t.ref).pending));
    FinishOnly(Enqueue(s, t.ref));
    AfterAllOnly(s, t.ref);
    FinishOnly(AfterAllChunks(s, t.ref));
    if t.report.Some? {
      FinishPairOnly(s, t);
      PairFailedOnly(s, t);
      FinishOnly(FinishPair(s, t));
      FinishOnly(PairFailed(s, t));
    }
  }

  lemma PumpFiresOnly(s: Out, fits: nat -> bool)
    ensures OutOnly(s, PumpFires(s, fits))
  {
    hide FinishPump, Best, FirstObject, Without, ReceiptPair;
    var woken := s.(requested := false);
    var scanned := ScanLock(woken);
    FinishOnly(scanned);
    var pick := Best(scanned, scanned.queue);
    if pick.Some? {
      FinishOnly(ReleaseLock(Dequeue(scanned, pick.value), pick.value));
    }
  }

  lemma RetryOnly(s: Out, r: nat)
    ensures OutOnly(s, RetryFires(s, r))
  {
    hide Requeue, Tracked;
    var p := At(s, r);
    var chunks := if p.retry.FullRetry? then AllChunks(Get(s, r).frames) else p.pending;
    RequeueOnly(Move(s, r, p.(retry := NoRetry, pending := chunks, order := s.nextOrder)).(nextOrder := s.nextOrder + 1), r);
  }

  lemma DeadlineOnly(s: Out, r: nat)
    ensures OutOnly(s, DeadlineFires(s, r))
  {
    hide Complete;
    CompleteOnly(s, r, Failed);
  }

  lemma DispatchOnly(s: Out, op: OpId, pendingInbound: nat, frames: nat)
    ensures OutOnly(s, DispatchReserved(s, op, pendingInbound, frames).0)
  {
    hide Prepare, SubmitPrepared;
    if op in s.reserved.m {
      var held := s.reserved.m[op];
      var capacity := DefaultCapacity(held.message);
      PrepareOnly(s, held.message, Some(held.dest), op, false, capacity, held.sequence, Some(held), pendingInbound, frames);
      var (n, p) := Prepare(s, held.message, Some(held.dest), op, false, capacity, held.sequence, Some(held), pendingInbound, frames);
      SubmitPreparedOnly(n, op, p);
    }
  }

  lemma ReserveOnly(s: Out, m: Message, dest: Node, op: OpId, frames: nat)
    ensures OutOnly(s, Reserve(s, m, dest, op, frames).0)
  {
    hide Remembered, Unexpired;
  }

  lemma CallsOnly(s: Out, op: OpId)
    ensures OutOnly(s, CancelReservation(s, op)) && OutOnly(s, Pause(s))
    ensures OutOnly(s, Resume(s)) && OutOnly(s, WakeFires(s)) && OutOnly(s, Cancel(s, op))
  {
    hide Complete, Remembered, Unexpired, AnyMayGo;
    if Cancellable(s, op).Some? {
      CompleteOnly(s, Cancellable(s, op).value, Failed);
    }
  }

  lemma OutNextKeeps(s: Out, pendingInbound: nat, step: OutStep)
    requires Inv(s)
    ensures Inv(OutNext(s, pendingInbound, step))
  {
    hide Inv, Submit, Reserve, DispatchReserved, CancelReservation, PumpFires, PumpEnds, RetryFires, DeadlineFires, WakeFires, Cancel, Pause, Resume;
    match step
    case DoSubmit(m, dest, op, frames) => SubmitKeeps(s, m, dest, op, false, pendingInbound, frames);
    case DoReserve(m, to, op, frames) => ReserveKeeps(s, m, to, op, frames);
    case DoDispatch(op, frames) => DispatchKeeps(s, op, pendingInbound, frames);
    case DoCancelReservation(op) => DropKeeps(s, op);
    case DoPumpBegin(fits) => PumpFiresKeeps(s, fits);
    case DoPumpEnd(sent) => if s.sending.Some? { PumpEndsKeeps(s, sent); }
    case DoRetry(r) => RetryFiresKeeps(s, r);
    case DoDeadline(r) => DeadlineFiresKeeps(s, r);
    case DoWake => WakeFiresKeeps(s);
    case DoCancel(op) => CancelKeeps(s, op);
    case DoPause => PauseKeeps(s);
    case DoResume => ResumeKeeps(s);
  }

  lemma OutNextOnly(s: Out, pendingInbound: nat, step: OutStep)
    ensures OutOnly(s, OutNext(s, pendingInbound, step))
  {
    hide Submit, Reserve, DispatchReserved, CancelReservation, PumpFires, PumpEnds, RetryFires, DeadlineFires, WakeFires, Cancel, Pause, Resume;
    match step
    case DoSubmit(m, dest, op, frames) => SubmitOnly(s, m, dest, op, false, pendingInbound, frames);
    case DoReserve(m, to, op, frames) => ReserveOnly(s, m, to, op, frames);
    case DoDispatch(op, frames) => DispatchOnly(s, op, pendingInbound, frames);
    case DoCancelReservation(op) => CallsOnly(s, op);
    case DoPumpBegin(fits) => PumpFiresOnly(s, fits);
    case DoPumpEnd(sent) => if s.sending.Some? { PumpEndsOnly(s, sent); }
    case DoRetry(r) => RetryOnly(s, r);
    case DoDeadline(r) => DeadlineOnly(s, r);
    case DoWake => CallsOnly(s, Named(""));
    case DoCancel(op) => CallsOnly(s, op);
    case DoPause => CallsOnly(s, Named(""));
    case DoResume => CallsOnly(s, Named(""));
  }

  /** Every step keeps the invariant, and a delivery leaves pending only into the history or by stopping. */
  lemma NextKeeps(l: Link, step: Step)
    requires LinkInv(l) && Enabled(l, step)
    ensures var n := Next(l, step);
            && LinkInv(n) && Advances(l.fences.m, n.fences.m) && n.out.cfg == l.out.cfg && l.out.now <= n.out.now
            && |n.events| >= |l.events| && n.events[..|l.events|] == l.events
            && (n.out.stopped || LeavesRemembered(l, n))
  {
    hide Inv, InboundInv, OutNext, Receive, ReassemblyExpires, Settle, SettleWithReport, PendingExpires, Announce, StopLink, Ids, Concerns;
    match step
    case Sending(s) =>
      OutNextKeeps(l.out, |l.pending.m|, s);
      OutNextOnly(l.out, |l.pending.m|, s);
      OutKeeps(l, OutNext(l.out, |l.pending.m|, s));
    case Tick(now) =>
      TickKeeps(l.out, now);
      TimePasses(l, now);
    case ReceiveFrame(frame, receivedAt, env) => ReceiveKeeps(l, frame, receivedAt, env);
    case ReassemblyTimeout(key, frames) => ReassemblyExpiresKeeps(l, key, frames);
    case SettleDelivery(id, accepted, frames) => SettleKeeps(l, id, accepted, frames);
    case SettleTask(id, report, dest, op, receiptFrames, reportFrames) =>
      SettleWithReportKeeps(l, id, report, dest, op, receiptFrames, reportFrames);
    case PendingTimeout(id, frames) => PendingExpiresKeeps(l, id, frames);
    case AnnounceSource(source, generation, session, admits, frames) =>
      AnnounceKeeps(l, source, generation, session, admits, frames);
    case StopService(refs) =>
      StopLinkKeeps(l, refs);
      StopLinkOnly(l, refs);
  }

  lemma StopLinkOnly(l: Link, refs: seq<nat>)
    ensures StopLink(l, refs).out.cfg == l.out.cfg && StopLink(l, refs).out.now == l.out.now
  {
    hide Stop;
    StopOnly(l.out, refs);
  }

  lemma InitialInv(l: Link)
    requires Initial(l)
    ensures LinkInv(l)
  {
    hide Inv, InboundInv;
    InitialOutInv(l);
    InitialInboundInv(l);
  }

  lemma InitialOutInv(l: Link)
    requires Initial(l)
    ensures Inv(l.out)
  {
    hide OccupiedBy, AwaitedBy, AnyMayGo;
    EmptyOccupied(l.out);
  }

  lemma InitialInboundInv(l: Link)
    requires Initial(l)
    ensures InboundInv(l)
  {
    assert Ids([]) == {};
  }

  lemma EmptyOccupied(s: Out)
    requires s.queue == [] && s.byOperation.m == map[] && s.pendingData.m == map[] && s.responses.m == map[] && s.sending.None?
    ensures Occupied(s) == {} && Awaiting(s) == {} && !HasEligible(s)
  {
  }

  /** The invariant holds in every reachable state. */
  lemma {:induction false} RunKeeps(l: Link, steps: seq<Step>)
    requires Initial(l) && Feasible(l, steps)
    ensures LinkInv(Run(l, steps)) && Run(l, steps).out.cfg == l.out.cfg
    decreases |steps|
  {
    if steps == [] {
      InitialInv(l);
    } else {
      hide LinkInv, Next, Enabled;
      RunKeeps(l, steps[..|steps| - 1]);
      NextKeeps(Run(l, steps[..|steps| - 1]), steps[|steps| - 1]);
    }
  }

  // ----- what the invariant means over whole runs -----------------------------------------------------

  /**
    In every reachable state: an eligible queued message has a pump running or requested, nothing is
    queued twice, and the object-transfer lock belongs to a tracked operation.
    */
  lemma NoLostWakeup(l: Link, steps: seq<Step>)
    requires Initial(l) && Feasible(l, steps)
    ensures var s := Run(l, steps).out;
            && (!s.paused && !s.stopped && HasEligible(s) ==> s.sending.Some? || s.requested)
            && NoDup(s.queue)
            && (s.lock.Some? ==> exists k :: k in s.byOperation.m && Get(s, s.byOperation.m[k]).IsObject()
                                             && Get(s, s.byOperation.m[k]).msgId == s.lock.value)
  {
    RunKeeps(l, steps);
    hide Run, Feasible, Initial, AnyMayGo, InboundInv, WithinLimits;
    WakeupNow(Run(l, steps).out);
  }

  lemma WakeupNow(s: Out)
    requires Inv(s)
    ensures !s.paused && !s.stopped && HasEligible(s) ==> s.sending.Some? || s.requested
    ensures NoDup(s.queue)
    ensures s.lock.Some? ==> exists k :: k in s.byOperation.m && Get(s, s.byOperation.m[k]).IsObject()
                                         && Get(s, s.byOperation.m[k]).msgId == s.lock.value
  {
    hide HeapOk, ProgressOk, ReservedOk, SendingShape, SendingFenced, NoneForgotten, TimersOk, ExpiriesOk, WakeOk, FlagsOk, AnyMayGo;
    hide MapsOk, WithinLimits;
    if s.lock.Some? {
      var k :| k in s.byOperation.m && s.byOperation.m[k] < |s.heap| && s.heap[s.byOperation.m[k]].IsObject()
               && s.heap[s.byOperation.m[k]].msgId == s.lock.value;
      assert Get(s, s.byOperation.m[k]) == s.heap[s.byOperation.m[k]];
    }
  }

  /** No operation under way is ever forgotten: its deadline runs and, until confirmed, so does its next action. */
  lemma NothingForgotten(l: Link, steps: seq<Step>, k: OpId)
    requires Initial(l) && Feasible(l, steps)
    ensures var s := Run(l, steps).out;
            && (k in s.byOperation.m ==>
                  At(s, s.byOperation.m[k]).deadline && Moving(s.byOperation.m[k], s.progress, s.queue, s.sending))
            && (k in s.pendingData.m ==> At(s, s.pendingData.m[k]).deadline)
            && (k in s.responses.m ==> At(s, s.responses.m[k]).deadline)
  {
    RunKeeps(l, steps);
    hide Run, Feasible, Initial, Inv, InboundInv;
    NothingForgottenNow(Run(l, steps).out, k);
  }

  lemma NothingForgottenNow(s: Out, k: OpId)
    requires Inv(s)
    ensures k in s.byOperation.m ==>
              At(s, s.byOperation.m[k]).deadline && Moving(s.byOperation.m[k], s.progress, s.queue, s.sending)
    ensures k in s.pendingData.m ==> At(s, s.pendingData.m[k]).deadline
    ensures k in s.responses.m ==> At(s, s.responses.m[k]).deadline
  {
    hide HeapOk, ProgressOk, ReservedOk, SendingShape, SendingFenced, TimersOk, ExpiriesOk, WakeOk, FlagsOk, QueueOk, LockHeld, MapsOk;
    hide WithinLimits, Awake, AwaitedBy;
  }

  /** The bounds on everything the transport holds, over all runs. */
  lemma CapacityBounds(l: Link, steps: seq<Step>)
    requires Initial(l) && Feasible(l, steps)
    ensures var n := Run(l, steps);
            && |Occupied(n.out)| <= l.out.cfg.queueLimit + l.out.cfg.confirmedLimit
            && |Awaiting(n.out)| <= l.out.cfg.confirmedLimit
            && |n.pending.m| <= l.out.cfg.confirmedLimit
            && |n.out.committed.m| <= COMMITTED_OPERATION_ID_LIMIT
            && |n.pending.m.Keys + Ids(n.settled)| <= SETTLED_INBOUND_LIMIT
            && |n.out.reserved.m| <= TASK_RESERVATION_LIMIT
            && |n.partial| <= l.out.cfg.reassemblyLimit
            && |n.fences.m| <= LINK_SOURCE_IDENTITY_LIMIT
  {
    RunKeeps(l, steps);
    hide Run, Feasible, Initial, AnyMayGo, OccupiedBy, AwaitedBy, Ids, SettledOk, HistoryOk, Apart, Ordered;
    hide HeapOk, ProgressOk, SendingShape, SendingFenced, TimersOk, ExpiriesOk, WakeOk, FlagsOk, QueueOk, LockHeld, MapsOk, NoneForgotten;
  }

  lemma NextFresh(l: Link, step: Step)
    requires LinkInv(l) && Enabled(l, step)
    ensures DeliversAnew(l, Next(l, step))
  {
    hide LinkInv, OutNext, Receive, ReassemblyExpires, Settle, SettleWithReport, PendingExpires, Announce, StopLink, Concerns, DeliversAnew;
    SameEvents(l, Next(l, step));
    match step
    case Sending(_) =>
    case Tick(_) =>
    case ReceiveFrame(frame, receivedAt, env) => ReceiveFresh(l, frame, receivedAt, env);
    case ReassemblyTimeout(key, frames) => TimeoutEvents(l, key, frames);
    case SettleDelivery(id, accepted, frames) => SettleEvents(l, id, accepted, frames);
    case SettleTask(id, report, dest, op, receiptFrames, reportFrames) =>
      TogetherEvents(l, id, report, dest, op, receiptFrames, reportFrames);
    case PendingTimeout(id, frames) => ExpiryEvents(l, id, frames);
    case AnnounceSource(source, generation, session, admits, frames) =>
      AnnounceEvents(l, source, generation, session, admits, frames);
    case StopService(refs) => StopEvents(l, refs);
  }

  lemma {:induction false} FeasiblePrefix(l: Link, steps: seq<Step>, k: nat)
    requires Feasible(l, steps) && k <= |steps|
    ensures Feasible(l, steps[..k])
    decreases |steps|
  {
    hide Enabled, Next;
    if k < |steps| {
      FeasiblePrefix(l, steps[..|steps| - 1], k);
      assert steps[..|steps| - 1][..k] == steps[..k];
    } else {
      assert steps[..k] == steps;
    }
  }

  /** No step of any run delivers again an identity that awaits its settlement or is still remembered. */
  lemma AtMostOnce(l: Link, steps: seq<Step>, k: nat)
    requires Initial(l) && Feasible(l, steps) && k < |steps|
    ensures DeliversAnew(Run(l, steps[..k]), Run(l, steps[..k + 1]))
  {
    hide LinkInv, Enabled, Next, DeliversAnew, Initial;
    FeasiblePrefix(l, steps, k + 1);
    FeasiblePrefix(l, steps, k);
    assert steps[..k + 1][..k] == steps[..k];
    RunKeeps(l, steps[..k]);
    NextFresh(Run(l, steps[..k]), steps[k]);
  }

  /**
    Two settlement-requiring deliveries of one identity are at least ten minutes apart, and until then the identity
    is pending or remembered unless the service stopped.
    */
  lemma TenMinutesApart(l: Link, steps: seq<Step>, i: nat, j: nat)
    requires Initial(l) && Feasible(l, steps)
    requires i < j < |Run(l, steps).events|
    requires Run(l, steps).events[i].settles && Run(l, steps).events[i].id == Run(l, steps).events[j].id
    ensures var n := Run(l, steps);
            && (n.events[j].settles ==> n.events[j].at >= n.events[i].at + RETENTION_MS)
            && (n.out.now < n.events[i].at + RETENTION_MS && !n.out.stopped ==>
                  n.events[i].id in n.pending.m || n.events[i].id in Ids(n.settled))
  {
    RunKeeps(l, steps);
    hide Run, Feasible, Initial, Inv, Ids, SettledOk, Ordered, FencesOk, RoomOk, TableOk;
    var n := Run(l, steps);
    assert n.events[i] in n.events;
  }

  /** Per source, deliveries never go back to an older generation or to another session of the same one. */
  lemma SourceFencing(l: Link, steps: seq<Step>, i: nat, j: nat)
    requires Initial(l) && Feasible(l, steps)
    requires i < j < |Run(l, steps).events|
    requires Run(l, steps).events[i].id.source == Run(l, steps).events[j].id.source
    ensures var a, b := Run(l, steps).events[i].id, Run(l, steps).events[j].id;
            && a.generation <= b.generation && (a.generation == b.generation ==> a.session == b.session)
  {
    RunKeeps(l, steps);
    hide Run, Feasible, Initial, Inv, Ids, SettledOk, HistoryOk, Apart, FencesOk, RoomOk, TableOk;
  }

  /** Nothing from a fenced-off generation or session stays half received. */
  lemma NoFencedOffRemains(l: Link, steps: seq<Step>, r: Reassembly)
    requires Initial(l) && Feasible(l, steps) && r in Run(l, steps).partial
    ensures var n := Run(l, steps);
            r.identity.source in n.fences.m ==>
              PassesFence(n.fences, r.identity.source, r.identity.generation, r.identity.session)
  {
    RunKeeps(l, steps);
    hide Run, Feasible, Initial, Inv, InboundInv, PassesFence;
    if r.identity.source in Run(l, steps).fences.m {
      NoFencedOffNow(Run(l, steps), r);
    }
  }

  lemma NoFencedOffNow(l: Link, r: Reassembly)
    requires InboundInv(l) && r in l.partial && r.identity.source in l.fences.m
    ensures PassesFence(l.fences, r.identity.source, r.identity.generation, r.identity.session)
  {
    hide Ids, SettledOk, HistoryOk, Apart, Ordered, RoomOk, TableOk;
  }

  /** Sequence numbers and message identities are never used for two committed messages. */
  lemma DistinctSequences(l: Link, steps: seq<Step>, q: nat, r: nat)
    requires Initial(l) && Feasible(l, steps) && q < r < |Run(l, steps).out.heap|
    ensures var s := Run(l, steps).out;
            s.heap[q].sequence != s.heap[r].sequence && s.heap[q].msgId != s.heap[r].msgId
  {
    RunKeeps(l, steps);
    hide Run, Feasible, Initial, InboundInv, WithinLimits, Awake;
    hide ProgressOk, ReservedOk, SendingShape, SendingFenced, TimersOk, ExpiriesOk, WakeOk, FlagsOk, QueueOk, LockHeld, MapsOk, NoneForgotten;
  }
}
