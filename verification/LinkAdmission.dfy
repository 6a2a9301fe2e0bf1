/** Which messages the transport takes on, which identities it reserves, and which chunks it files (transport.ts). */
module LinkAdmission {
  import opened Wrappers
  import opened LinkTypes
  import opened LinkOutbound
  import opened LinkReassembly
  import opened LinkInbound
  import opened LinkOutboundInvariants
  import opened LinkOperations
  import opened LinkSubmission
  import opened LinkInboundInvariants
  import opened LinkOutcomes
  import opened LinkOnce
  import opened LinkFindings
  import opened LinkReception

  // ----- submitting -----------------------------------------------------------------------------------

  /** The identities that may not be used again yet: of operations under way, or ended less than ten minutes ago. */
  function Kept(s: Out): set<OpId> {
    set k | k in s.committed.m && (s.committed.m[k].Some? ==> s.committed.m[k].value > s.now)
  }

  /** A queued publication of the same resource of which nothing was sent gives way to the new one. */
  predicate GivesWay(s: Out, m: Message, r: nat) {
    && m.State? && r in s.queue && r < |s.heap| && r < |s.progress| && !s.progress[r].started
    && s.heap[r].message.State? && s.heap[r].message.resource == m.resource
  }

  /** The message may be sent by this node, to that node, under that identity, which is free or the one set aside for it. */
  predicate Allowed(s: Out, m: Message, dest: Option<Node>, op: OpId, held: Option<Reservation>) {
    && !s.stopped && (m.State? && s.cfg.node.role == Asset ==> !m.ofTask && m.fieldPath)
    && (Reliable(m) ==> dest.Some?) && (m.DataRequest? ==> m.id == op && op !in s.pendingData.m)
    && (op in s.reserved.m ==> held == Some(s.reserved.m[op]))
    && (op in s.results.m ==> s.results.m[op] == Failed) && op !in Kept(s)
  }

  /** There is room for one more operation. */
  predicate MayTrack(s: Out) { |Kept(s)| < 4096 && |Awaiting(s)| < s.cfg.confirmedLimit }

  ghost predicate QueueRoom(s: Out, m: Message, useReservation: bool, more: int, pendingInbound: int) {
    if useReservation then |Occupied(s)| < s.cfg.queueLimit + s.cfg.confirmedLimit
    else |Occupied(s)| + more - (if exists r :: GivesWay(s, m, r) then 1 else 0) + pendingInbound <= s.cfg.queueLimit
  }

  lemma {:induction false} CoalescableIs(s: Out, q: seq<nat>, resource: string)
    ensures Coalescable(s, q, resource).Some? <==> exists r :: r in q && Unsent(s, resource, r)
  {
    if q != [] {
      var front, last := q[..|q| - 1], q[|q| - 1];
      CoalescableIs(s, front, resource);
      assert forall r :: r in q <==> r in front || r == last;
      assert Coalescable(s, q, resource).Some? <==> Coalescable(s, front, resource).Some? || Unsent(s, resource, last);
    }
  }

  predicate Unsent(s: Out, resource: string, r: nat) {
    !At(s, r).started && Get(s, r).message.State? && Get(s, r).message.resource == resource
  }

  lemma QueuedBelow(s: Out)
    requires Inv(s)
    ensures |s.progress| == |s.heap| && forall r <- s.queue :: r < |s.heap|
  {
    hide HeapOk, ReservedOk, MapsOk, SendingShape, SendingFenced, LockHeld, NoneForgotten, TimersOk, FlagsOk, ExpiriesOk, WakeOk;
    hide WithinLimits, Awake, StoppedOk;
  }

  lemma GivesWayIs(s: Out, m: Message)
    requires Inv(s)
    ensures Replaceable(s, m).Some? <==> exists r :: GivesWay(s, m, r)
  {
    hide Inv, Coalescable;
    QueuedBelow(s);
    if m.State? {
      CoalescableIs(s, s.queue, m.resource);
      forall r: nat ensures r in s.queue && Unsent(s, m.resource, r) <==> GivesWay(s, m, r) {
      }
    }
  }

  lemma KeptAre(s: Out)
    requires Inv(s)
    ensures (forall k :: k in Prune(s).committed.m <==> k in Kept(s)) && |Prune(s).committed.m| == |Kept(s)|
  {
    hide HeapOk, ProgressOk, ReservedOk, MapsOk, QueueOk, SendingShape, SendingFenced, LockHeld, NoneForgotten, TimersOk, FlagsOk;
    hide WithinLimits, Awake, StoppedOk, Remembered, Unexpired;
    PruneExact(s.committed, s.expiries, s.now);
    var m := Prune(s).committed.m;
    assert m.Keys == Kept(s);
    assert |m| == |m.Keys|;
  }

  lemma AdmittedExactly(s: Out, m: Message, dest: Option<Node>, op: OpId, useReservation: bool, capacity: Capacity,
                        sequence: nat, held: Option<Reservation>, pendingInbound: nat, frames: nat)
    ensures Admit(s, m, dest, op, useReservation, capacity, sequence, held, pendingInbound, frames).1.Ready? <==>
            && (op in s.reserved.m ==> held == Some(s.reserved.m[op])) && (op in s.results.m ==> s.results.m[op] == Failed)
            && op !in s.committed.m && (m.DataRequest? ==> m.id !in s.pendingData.m)
            && (NeedsConfirmation(m) ==>
                  && |s.committed.m| + capacity.additionalConfirmed <= 4096
                  && |Awaiting(s)| + capacity.additionalConfirmed <= s.cfg.confirmedLimit)
            && frames > 0 && !QueueFull(s, m, useReservation, capacity, pendingInbound)
  {
    hide NeedsConfirmation, Awaiting, QueueFull, ScheduleWake;
  }

  /** A message is prepared exactly if it is allowed, there is room for it, and it can be framed. */
  lemma PreparedExactly(s: Out, m: Message, dest: Option<Node>, op: OpId, useReservation: bool, capacity: Capacity,
                        sequence: nat, held: Option<Reservation>, pendingInbound: nat, frames: nat)
    requires Inv(s) && capacity.additionalConfirmed == if Reliable(m) then 1 else 0
    ensures Prepare(s, m, dest, op, useReservation, capacity, sequence, held, pendingInbound, frames).1.Ready? <==>
            && Allowed(s, m, dest, op, held) && (Reliable(m) ==> MayTrack(s)) && frames > 0
            && QueueRoom(s, m, useReservation, capacity.additionalOutbound, pendingInbound + capacity.pendingDelta)
  {
    hide Inv, Kept, Prune, GivesWay, Occupied, Awaiting, Replaceable, Admit, NeedsConfirmation, Reliable;
    KeptAre(s);
    GivesWayIs(s, m);
    PruneFields(s);
    ReliableNeeds(m);
    SameReplaced(s, Prune(s), m);
    PrunedSame(s);
    AdmittedExactly(Prune(s), m, dest, op, useReservation, capacity, sequence, held, pendingInbound, frames);
  }

  lemma PrunedSame(s: Out)
    ensures var p := Prune(s); Occupied(p) == Occupied(s) && Awaiting(p) == Awaiting(s)
  {
    hide Remembered, Unexpired, OccupiedBy, AwaitedBy;
  }

  /** A message is queued exactly if it is allowed, there is room for it, and it can be framed. */
  lemma SubmittedExactly(s: Out, m: Message, dest: Option<Node>, op: OpId, useReservation: bool, pendingInbound: nat, frames: nat)
    requires Inv(s)
    ensures var (n, status) := Submit(s, m, dest, op, useReservation, pendingInbound, frames);
            |n.heap| > |s.heap| <==>
            && Allowed(s, m, dest, op, None) && (Reliable(m) ==> MayTrack(s)) && frames > 0
            && QueueRoom(s, m, useReservation, 1, pendingInbound)
  {
    hide Inv, Prepare, SubmitPrepared, Allowed, MayTrack, QueueRoom, Submitted;
    PreparedExactly(s, m, dest, op, useReservation, DefaultCapacity(m), s.sequence + 1, None, pendingInbound, frames);
    ReadyMeans(s, m, dest, op, useReservation, DefaultCapacity(m), s.sequence + 1, None, pendingInbound, frames);
    ReliableNeeds(m);
    var (n, p) := Prepare(s, m, dest, op, useReservation, DefaultCapacity(m), s.sequence + 1, None, pendingInbound, frames);
    PreparedOutcome(s, n, p, m, dest, op, frames);
  }

  /** The next number and identity are set aside exactly for a Task delivery that can be framed, under a free identity, while there is room. */
  lemma ReservedExactly(s: Out, m: Message, dest: Node, op: OpId, frames: nat)
    requires Inv(s)
    ensures Reserve(s, m, dest, op, frames).1 <==>
            && !s.stopped && frames > 0 && m.TaskDelivery? && op !in s.reserved.m && op !in Kept(s)
            && (op in s.results.m ==> s.results.m[op] == Failed) && |s.reserved.m| < 8192
  {
    hide Inv, Kept, Prune;
    var named := s.(nextId := s.nextId + 1);
    NextIdKeeps(s);
    KeptAre(named);
    PruneFields(named);
    SameKept(s, named);
  }

  lemma SameKept(s: Out, n: Out)
    requires n.committed == s.committed && n.now == s.now
    ensures Kept(n) == Kept(s)
  {
  }

  /** A reserved Task delivery is queued exactly if it is still allowed, there is room for it, and it can be framed. */
  lemma DispatchedExactly(s: Out, op: OpId, pendingInbound: nat, frames: nat)
    requires Inv(s)
    ensures |DispatchReserved(s, op, pendingInbound, frames).0.heap| > |s.heap| <==>
            && op in s.reserved.m && frames > 0
            && var held := s.reserved.m[op];
               && Allowed(s, held.message, Some(held.dest), op, Some(held)) && (Reliable(held.message) ==> MayTrack(s))
               && QueueRoom(s, held.message, false, 1, pendingInbound)
  {
    hide Inv, Prepare, SubmitPrepared, Allowed, MayTrack, QueueRoom, Submitted;
    if op in s.reserved.m {
      var held := s.reserved.m[op];
      var m := held.message;
      HeldMayUse(s, op);
      PreparedExactly(s, m, Some(held.dest), op, false, DefaultCapacity(m), held.sequence, Some(held), pendingInbound, frames);
      ReadyMeans(s, m, Some(held.dest), op, false, DefaultCapacity(m), held.sequence, Some(held), pendingInbound, frames);
      ReliableNeeds(m);
      var (n, p) := Prepare(s, m, Some(held.dest), op, false, DefaultCapacity(m), held.sequence, Some(held), pendingInbound, frames);
      PreparedOutcome(s, n, p, m, Some(held.dest), op, frames);
    }
  }

  // ----- a receipt and a report together --------------------------------------------------------------

  /** Receipt and report are sent together exactly if each is allowed and can be framed, and there is room for both. */
  lemma TogetherExactly(s: Out, receipt: ControlKind, report: Message, dest: Node, op: OpId, pendingInbound: nat,
                        receiptFrames: nat, reportFrames: nat)
    requires Inv(s) && report.TaskReport? && op != Drawn(s.nextId)
    ensures SendReceiptAndReport(s, receipt, report, dest, op, pendingInbound, receiptFrames, reportFrames).1 <==>
            && Allowed(s, Control(receipt), Some(dest), Drawn(s.nextId), None) && receiptFrames > 0
            && Allowed(s, report, Some(dest), op, None) && MayTrack(s) && reportFrames > 0
            && |Occupied(s)| + 1 + pendingInbound <= s.cfg.queueLimit
  {
    hide Inv, Prepare, Kept, Occupied, Awaiting, GivesWay, Commit, RequestPump;
    var named := s.(nextId := s.nextId + 1);
    var key := Drawn(s.nextId);
    NextIdKeeps(s);
    PreparedExactly(named, Control(receipt), Some(dest), key, false, RECEIPT_CAPACITY, s.sequence + 1, None, pendingInbound,
                    receiptFrames);
    ReadyMeans(named, Control(receipt), Some(dest), key, false, RECEIPT_CAPACITY, s.sequence + 1, None, pendingInbound,
               receiptFrames);
    var (a, first) := Prepare(named, Control(receipt), Some(dest), key, false, RECEIPT_CAPACITY, s.sequence + 1, None,
                              pendingInbound, receiptFrames);
    PrepareInv(named, Control(receipt), Some(dest), key, false, RECEIPT_CAPACITY, s.sequence + 1, None, pendingInbound,
               receiptFrames);
    SameKept(s, named);
    PrepareKept(named, Control(receipt), Some(dest), key, false, RECEIPT_CAPACITY, s.sequence + 1, None, pendingInbound,
                receiptFrames);
    NoneGives(s, report);
    NoneGives(a, report);
    NoneGives(named, Control(receipt));
    SameAllowed(s, named, report, Some(dest), op);
    SameAllowed(s, named, Control(receipt), Some(dest), key);
    SameAllowed(named, a, report, Some(dest), op);
    PreparedExactly(a, report, Some(dest), op, false, REPORT_CAPACITY, s.sequence + 2, None, pendingInbound, reportFrames);
  }

  lemma PrepareInv(s: Out, m: Message, dest: Option<Node>, op: OpId, useReservation: bool, capacity: Capacity,
                   sequence: nat, held: Option<Reservation>, pendingInbound: nat, frames: nat)
    requires Inv(s) && MayUse(s, m, op, sequence, held)
    ensures Inv(Prepare(s, m, dest, op, useReservation, capacity, sequence, held, pendingInbound, frames).0)
  {
    hide Inv, Prepare;
    PrepareKeeps(s, m, dest, op, useReservation, capacity, sequence, held, pendingInbound, frames);
  }

  lemma PrepareKept(s: Out, m: Message, dest: Option<Node>, op: OpId, useReservation: bool, capacity: Capacity,
                    sequence: nat, held: Option<Reservation>, pendingInbound: nat, frames: nat)
    requires Inv(s)
    ensures var n := Prepare(s, m, dest, op, useReservation, capacity, sequence, held, pendingInbound, frames).0;
            Kept(n) == Kept(s) && n.now == s.now
  {
    hide Inv, Kept, Prune, NeedsConfirmation, Admit, ValidStateSource;
    AdmitRemembers(Prune(s), m, dest, op, useReservation, capacity, sequence, held, pendingInbound, frames);
    PruneFields(s);
    PruneKept(s);
    var n := Prepare(s, m, dest, op, useReservation, capacity, sequence, held, pendingInbound, frames).0;
    if n.committed == s.committed { SameKept(s, n); } else { SameKept(Prune(s), n); }
  }

  lemma AdmitRemembers(s: Out, m: Message, dest: Option<Node>, op: OpId, useReservation: bool, capacity: Capacity,
                       sequence: nat, held: Option<Reservation>, pendingInbound: nat, frames: nat)
    ensures var n := Admit(s, m, dest, op, useReservation, capacity, sequence, held, pendingInbound, frames).0;
            n.committed == s.committed && n.now == s.now
  {
    hide NeedsConfirmation, QueueFull, Awaiting;
  }

  lemma PruneKept(s: Out)
    requires Inv(s)
    ensures Kept(Prune(s)) == Kept(s)
  {
    hide HeapOk, ProgressOk, ReservedOk, MapsOk, QueueOk, SendingShape, SendingFenced, LockHeld, NoneForgotten, TimersOk, FlagsOk;
    hide WithinLimits, Awake, StoppedOk, Remembered, Unexpired;
    PruneExact(s.committed, s.expiries, s.now);
  }

  lemma NoneGives(s: Out, m: Message)
    requires !m.State?
    ensures !exists r :: GivesWay(s, m, r)
  {
  }

  /** Preparing a message changes nothing that another message is judged by. */
  lemma SameAllowed(s: Out, n: Out, m: Message, dest: Option<Node>, op: OpId)
    requires n.cfg == s.cfg && n.now == s.now && n.stopped == s.stopped && n.queue == s.queue && n.sending == s.sending
    requires n.byOperation == s.byOperation && n.pendingData == s.pendingData && n.responses == s.responses
    requires n.reserved == s.reserved && n.results == s.results && Kept(n) == Kept(s)
    ensures Allowed(n, m, dest, op, None) == Allowed(s, m, dest, op, None) && MayTrack(n) == MayTrack(s)
    ensures Occupied(n) == Occupied(s)
  {
  }

  /**
    A Task delivery is settled together with its report exactly if the report is of that Task, from this Asset to the
    Gateway that delivered it, and both can be sent; once settled so, the same report is answered alike and no other is.
    */
  lemma SettledTogetherExactly(l: Link, id: SettlementId, report: Message, dest: Node, op: OpId, receiptFrames: nat,
                               reportFrames: nat)
    requires LinkInv(l) && op != Drawn(l.out.nextId)
    ensures var ok := SettleWithReport(l, id, report, dest, op, receiptFrames, reportFrames).1;
            var prior := OnRecord(l, id);
            if prior.Some? && prior.value.atomic.Some? then
              ok <==> !l.out.stopped && report.TaskReport? && prior.value.atomic.value == AtomicTask(report, dest, op)
            else
              ok <==> && !l.out.stopped && report.TaskReport? && id in l.pending.m
                      && l.pending.m[id].task == Some(report.task) && l.pending.m[id].source == dest
                      && l.out.cfg.node.role == Asset && dest.role == Gateway
                      && Allowed(l.out, Control(Confirmed(l.pending.m[id].op, l.pending.m[id].msgId)), Some(dest),
                                 Drawn(l.out.nextId), None)
                      && Allowed(l.out, report, Some(dest), op, None) && MayTrack(l.out) && receiptFrames > 0 && reportFrames > 0
                      && |Occupied(l.out)| + 1 + |l.pending.m| <= l.out.cfg.queueLimit
  {
    hide Inv, InboundInv, SendReceiptAndReport, RecordSettled, MarkAtomic, Allowed, MayTrack, Occupied, Lookup, PruneSettled;
    if id in l.pending.m && report.TaskReport? {
      var held := l.pending.m[id];
      TogetherExactly(l.out, Confirmed(held.op, held.msgId), report, dest, op, |l.pending.m|, receiptFrames, reportFrames);
    }
  }

  /** What is sent together: the receipt, then the report, each to the Gateway and each once. */
  ghost predicate BothSent(s: Out, n: Out, receipt: ControlKind, report: Message, dest: Node, op: OpId) {
    && |n.heap| == |s.heap| + 2 && n.heap[..|s.heap|] == s.heap
    && n.heap[|s.heap|].message == Control(receipt) && n.heap[|s.heap|].dest == Some(dest)
    && n.heap[|s.heap| + 1].message == report && n.heap[|s.heap| + 1].dest == Some(dest) && n.heap[|s.heap| + 1].key == op
    && |s.heap| in n.queue && |s.heap| + 1 in n.queue
  }

  lemma TogetherEffect(s: Out, receipt: ControlKind, report: Message, dest: Node, op: OpId, pendingInbound: nat,
                       receiptFrames: nat, reportFrames: nat)
    requires Inv(s) && report.TaskReport?
    ensures var (n, ok) := SendReceiptAndReport(s, receipt, report, dest, op, pendingInbound, receiptFrames, reportFrames);
            ok ==> BothSent(s, n, receipt, report, dest, op)
  {
    hide Inv, Prepare, MayUse, Commit, RequestPump, Prepares;
    var named := s.(nextId := s.nextId + 1);
    var key := Drawn(s.nextId);
    NextIdKeeps(s);
    NewMayUse(named, Control(receipt), key, s.sequence + 1);
    ReadyMeans(named, Control(receipt), Some(dest), key, false, RECEIPT_CAPACITY, s.sequence + 1, None, pendingInbound,
               receiptFrames);
    PrepareInv(named, Control(receipt), Some(dest), key, false, RECEIPT_CAPACITY, s.sequence + 1, None, pendingInbound,
               receiptFrames);
    var (a, first) := Prepare(named, Control(receipt), Some(dest), key, false, RECEIPT_CAPACITY, s.sequence + 1, None,
                              pendingInbound, receiptFrames);
    PreparesSame(named, a);
    NewMayUse(a, report, op, s.sequence + 2);
    ReadyMeans(a, report, Some(dest), op, false, REPORT_CAPACITY, s.sequence + 2, None, pendingInbound, reportFrames);
    var (b, second) := Prepare(a, report, Some(dest), op, false, REPORT_CAPACITY, s.sequence + 2, None, pendingInbound, reportFrames);
    PreparesSame(a, b);
    if first.Ready? && second.Ready? {
      BothQueued(b, first.outbound, first.order, first.replacesFailed, second.outbound, second.order, second.replacesFailed, key, op);
    }
  }

  lemma PreparesSame(s: Out, n: Out)
    requires Prepares(s, n)
    ensures n.heap == s.heap && n.queue == s.queue && n.sequence == s.sequence
  {
  }

  lemma NewMayUse(s: Out, m: Message, op: OpId, sequence: nat)
    requires sequence > s.sequence
    ensures MayUse(s, m, op, sequence, None)
  {
  }

  lemma BothQueued(s: Out, a: Outbound, x: nat, p: bool, b: Outbound, y: nat, q: bool, key: OpId, op: OpId)
    requires !a.message.State? && !b.message.State?
    ensures var n := RequestPump(Record(Record(Commit(Commit(s, a, x, p), b, y, q), key, Queued), op, Queued));
            n.heap == s.heap + [a] + [b] && n.queue == s.queue + [|s.heap|] + [|s.heap| + 1]
  {
    hide PutIf, ResultsAfter;
  }

  /** A delivery settled together with its report: both are sent, and that it was confirmed so is on record. */
  lemma SettledTogetherEffect(l: Link, id: SettlementId, report: Message, dest: Node, op: OpId, receiptFrames: nat,
                              reportFrames: nat)
    requires LinkInv(l) && OnRecord(l, id).None? && SettleWithReport(l, id, report, dest, op, receiptFrames, reportFrames).1
    ensures id in l.pending.m
    ensures var n := SettleWithReport(l, id, report, dest, op, receiptFrames, reportFrames).0;
            var held := l.pending.m[id];
            && BothSent(l.out, n.out, Confirmed(held.op, held.msgId), report, dest, op) && n.pending.m == l.pending.m - {id}
            && Lookup(n.settled, id) == Some(Settled(id, true, l.out.now + 600_000, Some(AtomicTask(report, dest, op))))
  {
    hide Inv, InboundInv, SendReceiptAndReport, BothSent, Lookup, PruneSettled, MarkAtomic, RecordSettled;
    var p := l.(settled := PruneSettled(l.settled, l.out.now));
    var held := l.pending.m[id];
    var receipt := Confirmed(held.op, held.msgId);
    TogetherEffect(l.out, receipt, report, dest, op, |l.pending.m|, receiptFrames, reportFrames);
    TogetherOnly(l.out, receipt, report, dest, op, |l.pending.m|, receiptFrames, reportFrames);
    var n := p.(out := SendReceiptAndReport(l.out, receipt, report, dest, op, |l.pending.m|, receiptFrames, reportFrames).0);
    PruneTwice(l.settled, l.out.now);
    FirstResultStays(n, id, true, None, id);
    RecordOnly(n, id);
    MarkedLookup(RecordSettled(n, id, true, None).settled, id, AtomicTask(report, dest, op));
  }

  lemma RecordOnly(l: Link, id: SettlementId)
    ensures var n := RecordSettled(l, id, true, None); n == l.(settled := n.settled)
  {
    hide Lookup, PruneSettled;
  }

  lemma {:induction false} MarkedLookup(settled: seq<Settled>, id: SettlementId, atomic: AtomicTask)
    ensures var found := Lookup(settled, id);
            Lookup(MarkAtomic(settled, id, atomic), id) == if found.Some? then Some(found.value.(atomic := Some(atomic))) else None
  {
    if settled != [] {
      var front, last := settled[..|settled| - 1], settled[|settled| - 1];
      MarkedLookup(front, id, atomic);
      var n := MarkAtomic(settled, id, atomic);
      assert n[..|n| - 1] == MarkAtomic(front, id, atomic);
    }
  }

  /** A Gateway announces an Asset's start exactly if its own fence lets that through and the announcement can be sent. */
  lemma AnnouncedExactly(l: Link, source: Node, generation: nat, session: string, admits: bool, frames: nat)
    requires LinkInv(l)
    ensures var m := Control(SourceActive(source, generation, session));
            |Announce(l, source, generation, session, admits, frames).out.heap| > |l.out.heap| <==>
            && l.out.cfg.node.role == Gateway && source.role == Asset && generation > 0
            && MayActivate(l.fences.m, source, generation, session, admits)
            && Allowed(l.out, m, None, Activation(source.id, generation), None) && frames > 0
            && QueueRoom(l.out, m, false, 1, |l.pending.m|)
  {
    hide Inv, InboundInv, KeepUnfenced, Submit, Allowed, QueueRoom;
    var m := Control(SourceActive(source, generation, session));
    SubmittedExactly(l.out, m, None, Activation(source.id, generation), false, |l.pending.m|, frames);
  }

  // ----- frames ---------------------------------------------------------------------------------------

  /** The source is known under this session or an earlier generation, or there is room for it. */
  predicate FenceOpen(l: Link, i: Identity) {
    if i.source in l.fences.m then
      || (i.generation == l.fences.m[i.source].generation && i.session == l.fences.m[i.source].session)
      || i.generation > l.fences.m[i.source].generation
    else |l.fences.m| < 4096
  }

  /** Content of an object comes to this node only if it asked for it, or is to settle it, or did so lately. */
  predicate Awaited(l: Link, i: Identity) {
    && ToUs(l, i)
    && (|| IdOf(i) in l.pending.m
        || (exists e :: e in l.settled && e.id == IdOf(i) && e.expiresAt > l.out.now)
        || (i.op in l.out.pendingData.m && l.out.pendingData.m[i.op] < |l.out.heap|
            && var o := l.out.heap[l.out.pendingData.m[i.op]];
               o.message.DataRequest? && o.message.content && o.message.id == i.op && o.dest == Some(i.source)))
  }

  predicate LetIn(l: Link, i: Identity) {
    !l.out.stopped && i.source != l.out.cfg.node && FenceOpen(l, i) && (i.kind == ContentKind ==> Awaited(l, i))
  }

  lemma AwaitedIs(l: Link, i: Identity)
    requires LinkInv(l)
    ensures ExpectsContent(l, i) <==> Awaited(l, i)
  {
    hide Inv, Lookup, PruneSettled;
    PruneSettledExact(l.settled, l.out.now);
    AllOwned(l.out);
    var found := Lookup(PruneSettled(l.settled, l.out.now), IdOf(i));
    if e :| e in l.settled && e.id == IdOf(i) && e.expiresAt > l.out.now { assert found.Some?; }
  }

  /** How long an incomplete message is kept: shortest what is urgent, longest an object. */
  function PatienceMs(p: Priority): nat {
    if p in {Safety, TaskPriority} then 15_000 else if p == ObjectPriority then 300_000 else 30_000
  }

  /** A frame is filed exactly if it is let in; any other changes nothing but that expired results may be forgotten. */
  lemma FiledExactly(l: Link, f: Frame, receivedAt: nat, env: Env)
    requires LinkInv(l) && f.WellFormed()
    ensures !LetIn(l, f.identity) ==>
              var n := Receive(l, f, receivedAt, env);
              n == l.(settled := n.settled) && (n.settled == l.settled || n.settled == PruneSettled(l.settled, l.out.now))
    ensures LetIn(l, f.identity) ==>
              var (partial, done) := Collect(l.partial, l.out.cfg.reassemblyLimit, f, receivedAt,
                                             l.out.now + PatienceMs(f.identity.priority));
              match Arriving(l, f, receivedAt)
              case None => done.None? && Receive(l, f, receivedAt, env).partial == partial
              case Some((p, i, bytes)) => done == Some((i, bytes)) && p.partial == partial
  {
    hide Inv, InboundInv, HandleComplete, Collect, ExpectsContent, PruneSettled, Awaited;
    AwaitedIs(l, f.identity);
  }

  /** Both are chunks of the same transmission of the same message. */
  predicate Together(r: Reassembly, f: Frame) {
    && f.count == r.count && f.identity.(receipt := r.identity.receipt, msgId := r.identity.msgId) == r.identity
  }

  /** A chunk of the same message that was missing is filed, as long as all of them fit; the last one completes it. */
  lemma ChunkExactly(r: Reassembly, f: Frame, receivedAt: nat)
    requires Incomplete(r) && f.WellFormed()
    ensures var missing := Together(r, f) && f.index !in r.chunks.m;
            var fits := |Join(r.chunks, r.count)| + |f.payload| <= 131_072;
            var last := forall i :: 0 <= i < r.count ==> i == f.index || i in r.chunks.m;
            var held := r.chunks.Put(f.index, f.payload);
            match Accept(r, f, receivedAt)
            case Ignored => !missing
            case Oversized => missing && !fits
            case Completed(bytes) => missing && fits && last && bytes == Join(held, r.count)
            case Collecting(n) =>
              missing && fits && !last && n.identity == r.identity && n.count == r.count && n.chunks == held
              && n.lastReceivedAt == receivedAt && n.expiresAt == r.expiresAt
  {
    hide Join;
    AcceptKeeps(r, f, receivedAt);
    var chunks := r.chunks.Put(f.index, f.payload);
    if (forall i :: 0 <= i < r.count ==> i == f.index || i in r.chunks.m) && Together(r, f) && f.index !in r.chunks.m {
      forall i: nat ensures i in chunks.m <==> i < r.count { assert i < r.count ==> i == f.index || i in r.chunks.m; }
      AllThere(chunks, r.count);
    }
  }

  /** Filing a chunk touches one place of the table. */
  lemma TouchesOne(rs: seq<Reassembly>, limit: nat, f: Frame, receivedAt: nat, expiresAt: nat)
    ensures var n := Collect(rs, limit, f, receivedAt, expiresAt).0;
            var known := Find(rs, KeyOf(f.identity));
            var table := if known.Some? then rs else MakeRoom(rs, limit) + [Begin(f, receivedAt, expiresAt)];
            var at := if known.Some? then known.value else |table| - 1;
            || n == table[..at] + table[at + 1..]
            || (|n| == |table| && forall j :: 0 <= j < |n| && j != at ==> n[j] == table[j])
  {
    hide Accept, MakeRoom, Find;
  }

  lemma TouchedStay(table: seq<Reassembly>, n: seq<Reassembly>, at: nat, j: nat)
    requires at < |table| && j < |table| && j != at
    requires n == table[..at] + table[at + 1..] || (|n| == |table| && forall j :: 0 <= j < |n| && j != at ==> n[j] == table[j])
    ensures table[j] in n
  {
    if n == table[..at] + table[at + 1..] { assert n[if j < at then j else j - 1] == table[j]; } else { assert n[j] == table[j]; }
  }

  /** Every other incomplete message stays, except that a new one in a full table takes the place of one heard from longest ago. */
  lemma OthersStay(rs: seq<Reassembly>, limit: nat, f: Frame, receivedAt: nat, expiresAt: nat)
    requires TableOk(rs, limit) && limit > 0
    ensures var n := Collect(rs, limit, f, receivedAt, expiresAt).0;
            if (exists r :: r in rs && KeyOf(r.identity) == KeyOf(f.identity)) || |rs| < limit
            then forall r :: r in rs && KeyOf(r.identity) != KeyOf(f.identity) ==> r in n
            else exists k :: 0 <= k < |rs| && LongestAgo(rs, k) && forall j :: 0 <= j < |rs| && j != k ==> rs[j] in n
  {
    hide Accept, Incomplete, Collect, Begin, LongestAgo, TableOk, Find;
    TouchesOne(rs, limit, f, receivedAt, expiresAt);
    var n := Collect(rs, limit, f, receivedAt, expiresAt).0;
    var known := Find(rs, KeyOf(f.identity));
    var table := if known.Some? then rs else MakeRoom(rs, limit) + [Begin(f, receivedAt, expiresAt)];
    var at := if known.Some? then known.value else |table| - 1;
    if known.None? && |rs| >= limit && rs != [] {
      var k := Oldest(rs);
      OldestLongest(rs);
      forall j | 0 <= j < |rs| && j != k ensures rs[j] in n {
        assert table[if j < k then j else j - 1] == rs[j];
        TouchedStay(table, n, at, if j < k then j else j - 1);
      }
    } else {
      forall r | r in rs && KeyOf(r.identity) != KeyOf(f.identity) ensures r in n {
        var j :| 0 <= j < |rs| && rs[j] == r;
        TouchedStay(table, n, at, j);
      }
    }
    SizedTable(rs, limit);
  }

  lemma OldestLongest(rs: seq<Reassembly>)
    requires rs != []
    ensures LongestAgo(rs, Oldest(rs))
  {
    hide Oldest;
  }

  lemma SizedTable(rs: seq<Reassembly>, limit: nat)
    requires TableOk(rs, limit)
    ensures |rs| <= limit
  {
    hide Incomplete;
  }

  predicate LongestAgo(rs: seq<Reassembly>, k: nat)
    requires k < |rs|
  {
    forall j :: 0 <= j < |rs| ==> rs[k].lastReceivedAt <= rs[j].lastReceivedAt
  }

  lemma AllThere(chunks: Table<nat, Bytes>, count: nat)
    requires forall i: nat :: i in chunks.m <==> i < count
    ensures |chunks.m| == count
  {
    assert |chunks.m| == |chunks.m.Keys|;
    assert chunks.m.Keys == UpTo(count);
  }
}
