/** Receiving frames and settling deliveries keep the invariant of the whole transport. */
module LinkMessages {
  import opened Wrappers
  import opened LinkTypes
  import opened LinkOutbound
  import opened LinkReassembly
  import opened LinkInbound
  import opened LinkOutboundInvariants
  import opened LinkOperations
  import opened LinkSubmission
  import opened LinkLifecycle
  import opened LinkInboundInvariants

  // ----- control ------------------------------------------------------------------------------------

  lemma AnswerToKeeps(s: Out, from: Node, op: OpId, msgId: nat, c: ControlKind)
    requires Inv(s) && !s.stopped
    ensures Inv(AnswerTo(s, from, op, msgId, c)) && OutOnly(s, AnswerTo(s, from, op, msgId, c))
  {
    hide Inv, ApplyAnswer;
    var found := FoundAnswer(s, from, op, msgId);
    if found.Some? {
      ApplyAnswerKeeps(s, found.value, c);
      ApplyAnswerOnly(s, found.value, c);
    }
  }

  /** What handling one message leaves alone. */
  ghost predicate Moves(l: Link, n: Link) {
    && OutOnly(l.out, n.out) && Advances(l.fences.m, n.fences.m)
    && |n.events| >= |l.events| && n.events[..|l.events|] == l.events
    && LeavesRemembered(l, n)
  }

  /** A delivery stops being pending only by getting into the settlement history. */
  ghost predicate LeavesRemembered(l: Link, n: Link) {
    forall id :: id in l.pending.m ==> id in n.pending.m || id in Ids(n.settled)
  }

  lemma HandleControlKeeps(l: Link, c: ControlKind, from: Node, dest: Option<Node>, env: Env)
    requires LinkInv(l) && !l.out.stopped
    ensures LinkInv(HandleControl(l, c, from, dest, env)) && Moves(l, HandleControl(l, c, from, dest, env))
    ensures HandleControl(l, c, from, dest, env).events == l.events
    ensures !c.SourceActive? ==> HandleControl(l, c, from, dest, env) == l.(out := HandleControl(l, c, from, dest, env).out)
  {
    hide Inv, InboundInv, AnswerTo, ActivateFence;
    match c
    case SourceActive(source, generation, session) =>
      ActivateKeeps(l, source, generation, session, env.admits(source));
      ActivateAdvances(l, source, generation, session, env.admits(source));
    case _ =>
      AnswerToKeeps(l.out, from, c.op, c.msgId, c);
      OutKeeps(l, AnswerTo(l.out, from, c.op, c.msgId, c));
  }

  lemma CompoundKeeps(l: Link, i: Identity, env: Env)
    requires LinkInv(l) && !l.out.stopped
    ensures var n := CompoundReceipt(l, i, env); LinkInv(n) && Moves(l, n) && n == l.(out := n.out)
  {
    hide LinkInv, HandleControl;
    if i.receipt.Some? {
      HandleControlKeeps(l, Confirmed(i.receipt.value.op, i.receipt.value.msgId), i.source, i.dest, env);
    }
  }

  // ----- delivery -----------------------------------------------------------------------------------

  lemma MatchingRequest(s: Out, i: Identity, m: Message, env: Env)
    ensures Matching(s, i, m, env).Some? ==> RequestOf(m).Some?
  {
  }

  lemma MatchingOwned(s: Out, i: Identity, m: Message, env: Env)
    requires Linked(s) && Matching(s, i, m, env).Some?
    ensures RequestOf(m).Some?
    ensures var r := Matching(s, i, m, env).value;
            && r in Awaiting(s) && Get(s, r).key == RequestOf(m).value && Get(s, r).dest == Some(i.source)
            && (Get(s, r).message.DataRequest? || Get(s, r).message.ResourceOperation?)
  {
    hide HeapOk, ReservedOk, QueueOk, SendingShape, SendingFenced, LockHeld, NoneForgotten, TimersOk, ExpiriesOk, WakeOk, FlagsOk, AgreeOk;
  }

  lemma AnswerRequestKeeps(l: Link, i: Identity, m: Message, env: Env)
    requires LinkInv(l) && !l.out.stopped
    ensures var n := AnswerRequest(l, i, m, env); LinkInv(n) && n == l.(out := n.out) && OutOnly(l.out, n.out)
  {
    hide Linked, StoppedOk, WithinLimits, Awake, InboundInv, Matching, CompleteWithResponse;
    var r := Matching(l.out, i, m, env);
    if Addressed(l, i) && r.Some? {
      MatchingOwned(l.out, i, m, env);
      AnsweredKeeps(l.out, r.value);
      AnsweredOnly(l.out, r.value, RequestOf(m).value);
      OutKeeps(l, CompleteWithResponse(l.out, r.value, RequestOf(m).value));
    }
  }

  /** An identity neither pending nor remembered was not delivered within the retention time. */
  lemma LongAgo(l: Link, id: SettlementId)
    requires InboundInv(l) && !l.out.stopped && id !in l.pending.m && id !in Ids(l.settled)
    ensures forall e :: e in l.events && e.settles && e.id == id ==> l.out.now >= e.at + RETENTION_MS
    ensures forall h :: h in l.settled ==> h.id != id
  {
    hide FencesOk, TableOk, Ordered, SettledOk, RoomOk, Apart;
  }

  lemma AwaitKeeps(l: Link, i: Identity, m: Message)
    requires LinkInv(l) && !l.out.stopped
    requires Settles(l, i, m) ==> !NoRoom(l)
    ensures var n := AwaitSettlement(l, i, m);
            && LinkInv(n) && n == l.(pending := n.pending)
            && (Settles(l, i, m) ==> IdOf(i) in n.pending.m)
            && (forall id :: id in l.pending.m ==> id in n.pending.m)
  {
    hide Inv, FencesOk, TableOk, Ordered, SettledOk, Apart, OccupiedBy, HistoryOk, RoomOk;
    if Settles(l, i, m) {
      var n := AwaitSettlement(l, i, m);
      AwaitRoom(l.pending, l.settled, IdOf(i), n.pending.m[IdOf(i)], l.out.cfg.confirmedLimit);
      AwaitHistory(l.events, l.pending, l.settled, l.out.now, IdOf(i), n.pending.m[IdOf(i)]);
    }
  }

  lemma AwaitRoom(pending: Table<SettlementId, Pending>, settled: seq<Settled>, id: SettlementId, p: Pending, limit: nat)
    requires RoomOk(pending.m, settled, limit) && |pending.m| < limit && |settled| + |pending.m| < SETTLED_INBOUND_LIMIT
    ensures RoomOk(pending.Put(id, p).m, settled, limit)
  {
    hide Ids;
    RoomGrows(pending.m, settled, id);
    PutKeys(pending, id, p);
    assert pending.m.Keys + {id} + Ids(settled) == pending.m.Keys + Ids(settled) + {id};
  }

  lemma PutKeys(pending: Table<SettlementId, Pending>, id: SettlementId, p: Pending)
    ensures pending.Put(id, p).m.Keys == pending.m.Keys + {id} && |pending.Put(id, p).m| <= |pending.m| + 1
  {
    var n := pending.Put(id, p).m;
    assert n.Keys == pending.m.Keys + {id} && |n| == |n.Keys| && |pending.m| == |pending.m.Keys|;
  }

  lemma AwaitHistory(events: seq<Event>, pending: Table<SettlementId, Pending>, settled: seq<Settled>, now: nat,
                     id: SettlementId, p: Pending)
    requires HistoryOk(events, pending.m, settled, now, false)
    ensures HistoryOk(events, pending.Put(id, p).m, settled, now, false)
  {
  }

  lemma RaiseKeeps(l: Link, i: Identity, m: Message)
    requires LinkInv(l) && !l.out.stopped
    requires i.source in l.fences.m && l.fences.m[i.source] == Fence(i.generation, i.session)
    requires Settles(l, i, m) ==> IdOf(i) in l.pending.m
    requires Settles(l, i, m) ==> forall e :: e in l.events && e.settles && e.id == IdOf(i) ==> l.out.now >= e.at + RETENTION_MS
    requires Settles(l, i, m) ==> forall h :: h in l.settled ==> h.id != IdOf(i)
    ensures LinkInv(Raise(l, i, m)) && Raise(l, i, m) == l.(events := Raise(l, i, m).events)
  {
    hide Inv, TableOk, SettledOk, RoomOk, NeedsConfirmation;
    var n := Raise(l, i, m);
    assert forall e :: e in n.events <==> e in l.events || e == n.events[|l.events|];
    assert forall j :: 0 <= j < |l.events| ==> n.events[j] in l.events;
    assert FencesOk(n.fences.m, n.partial, n.events) && Ordered(n.events) by { hide HistoryOk, Apart; }
    assert HistoryOk(n.events, n.pending.m, n.settled, n.out.now, n.out.stopped) && Apart(n.events) by { hide FencesOk, Ordered; }
    hide HistoryOk, FencesOk, Ordered, Apart;
  }

  lemma DeliverKeeps(l: Link, i: Identity, m: Message, order: Order, env: Env)
    requires LinkInv(l) && !l.out.stopped
    requires i.source in l.fences.m && l.fences.m[i.source] == Fence(i.generation, i.session)
    ensures var n := Deliver(l, i, m, order, env); LinkInv(n) && Moves(l, n)
  {
    hide Inv, InboundInv, Reply, Refuse, AnswerRequest, AwaitSettlement, NoRoom, Ids, Matching, NeedsConfirmation;
    PruneSettledKeeps(l);
    var settles := Settles(l, i, m);
    var p := if settles then l.(settled := PruneSettled(l.settled, l.out.now)) else l;
    var known := Lookup(p.settled, IdOf(i));
    LookupIds(p.settled, IdOf(i));
    if settles && known.Some? {
      ReplyKeeps(p, i.source, Answer(known.value.confirmed, i.op, i.msgId), env.frames);
    } else if settles && IdOf(i) in p.pending.m {
    } else if Addressed(l, i) && RequestOf(m).Some? && Matching(p.out, i, m, env).None? {
    } else if settles && order.DuplicateDelivery? {
    } else if settles && NoRoom(p) {
      RefuseKeeps(p, i, env.frames);
      RefuseMoves(p, i, env.frames);
    } else {
      if settles {
        LongAgo(p, IdOf(i));
      }
      AwaitKeeps(p, i, m);
      var a := AwaitSettlement(p, i, m);
      AnswerRequestKeeps(a, i, m, env);
      RaiseKeeps(AnswerRequest(a, i, m, env), i, m);
    }
  }

  lemma RefuseMoves(l: Link, i: Identity, frames: nat)
    ensures Moves(l, Refuse(l, i, frames))
  {
    hide SendControl, RecordSettled;
    var r := RecordSettled(l, IdOf(i), false, None);
    RecordShape(l, IdOf(i), false, None);
    SendControlOnly(r.out, Rejected(i.op, i.msgId), i.source, true, |r.pending.m|, frames);
  }

  lemma RecordShape(l: Link, id: SettlementId, confirmed: bool, atomic: Option<AtomicTask>)
    ensures RecordSettled(l, id, confirmed, atomic) == l.(settled := RecordSettled(l, id, confirmed, atomic).settled)
  {
  }

  lemma ScreenKeeps(l: Link, i: Identity, m: Message, env: Env)
    requires LinkInv(l) && !l.out.stopped
    requires i.source in l.fences.m && l.fences.m[i.source] == Fence(i.generation, i.session)
    ensures LinkInv(Screen(l, i, m, env)) && Moves(l, Screen(l, i, m, env))
  {
    hide LinkInv, Refuse, Deliver, AcceptDelivery, NeedsConfirmation, Misdirected;
    RefuseKeeps(l, i, env.frames);
    RefuseMoves(l, i, env.frames);
    if !(NeedsConfirmation(m) && i.dest.None?) && !Misdirected(l, i, m, env) {
      var (n, order) := AcceptDelivery(l, i, m);
      AcceptShape(l, i, m);
      DeliveriesKeep(l, n.deliveries);
      RefuseKeeps(n, i, env.frames);
      RefuseMoves(n, i, env.frames);
      DeliverKeeps(n, i, m, order, env);
    }
  }

  lemma AcceptShape(l: Link, i: Identity, m: Message)
    ensures var n := AcceptDelivery(l, i, m).0; n == l.(deliveries := n.deliveries)
  {
  }

  lemma DeliveriesKeep(l: Link, deliveries: seq<Delivery>)
    requires LinkInv(l)
    ensures LinkInv(l.(deliveries := deliveries))
  {
    hide Inv, FencesOk, TableOk, Ordered, SettledOk, HistoryOk, Apart, RoomOk;
  }

  lemma HandleCompleteKeeps(l: Link, i: Identity, decoded: Option<Message>, env: Env)
    requires LinkInv(l) && !l.out.stopped
    ensures var n := HandleComplete(l, i, decoded, env); LinkInv(n) && Moves(l, n)
  {
    hide Inv, InboundInv, ActivateFence, HandleControl, Screen, CompoundReceipt, NeedsConfirmation, ValidStateSource;
    if decoded.Some? {
      var m := decoded.value;
      var (n, ok) := ActivateFence(l, i.source, i.generation, i.session, env.admits(i.source));
      ActivateKeeps(l, i.source, i.generation, i.session, env.admits(i.source));
      ActivateAdvances(l, i.source, i.generation, i.session, env.admits(i.source));
      if ok {
        if m.Control? {
          HandleControlKeeps(n, m.control, i.source, i.dest, env);
          MovesOn(l, n, HandleControl(n, m.control, i.source, i.dest, env));
        } else {
          CompoundKeeps(n, i, env);
          var c := if m.TaskReport? then CompoundReceipt(n, i, env) else n;
          ScreenKeeps(c, i, m, env);
          MovesOn(l, c, Screen(c, i, m, env));
        }
      }
    }
  }

  lemma MovesOn(a: Link, b: Link, c: Link)
    requires Moves(a, b) && Moves(b, c) && b.pending == a.pending
    ensures Moves(a, c)
  {
    assert c.events[..|a.events|] == c.events[..|b.events|][..|a.events|];
  }

  lemma PartialKeeps(l: Link, f: Frame, receivedAt: nat, expiresAt: nat)
    requires LinkInv(l) && !l.out.stopped && f.WellFormed()
    requires PassesFence(l.fences, f.identity.source, f.identity.generation, f.identity.session)
    ensures LinkInv(l.(partial := Collect(l.partial, l.out.cfg.reassemblyLimit, f, receivedAt, expiresAt).0))
  {
    hide Inv, TableOk, Ordered, SettledOk, HistoryOk, Apart, RoomOk, Collect;
    CollectKeeps(l.partial, l.out.cfg.reassemblyLimit, f, receivedAt, expiresAt);
  }

  /** Any frame, in any order, keeps the invariant of the whole transport. */
  lemma ReceiveKeeps(l: Link, f: Frame, receivedAt: nat, env: Env)
    requires LinkInv(l) && f.WellFormed()
    ensures var n := Receive(l, f, receivedAt, env); LinkInv(n) && Moves(l, n)
  {
    hide Inv, InboundInv, HandleComplete, Collect, ExpectsContent, PassesFence;
    var i := f.identity;
    if !l.out.stopped && i.source != l.out.cfg.node && PassesFence(l.fences, i.source, i.generation, i.session) {
      PruneSettledKeeps(l);
      var p := if i.kind.ContentKind? && Addressed(l, i) then l.(settled := PruneSettled(l.settled, l.out.now)) else l;
      if !i.kind.ContentKind? || ExpectsContent(l, i) {
        PartialKeeps(p, f, receivedAt, p.out.now + DeadlineMs(i.priority));
        var (partial, done) := Collect(p.partial, p.out.cfg.reassemblyLimit, f, receivedAt, p.out.now + DeadlineMs(i.priority));
        if done.Some? {
          HandleCompleteKeeps(p.(partial := partial), done.value.0, env.decode(done.value.1), env);
        }
      }
    }
  }

  // ----- reassembly timeouts ------------------------------------------------------------------------

  lemma FewerFenced(fences: map<Node, Fence>, partial: seq<Reassembly>, fewer: seq<Reassembly>, events: seq<Event>)
    requires FencesOk(fences, partial, events) && forall r :: r in fewer ==> r in partial
    ensures FencesOk(fences, fewer, events)
  {
  }

  lemma FewerPartial(l: Link, at: nat)
    requires LinkInv(l) && at < |l.partial|
    ensures LinkInv(l.(partial := RemoveAt(l.partial, at)))
  {
    hide Inv, TableOk, Ordered, SettledOk, HistoryOk, Apart, RoomOk, RemoveAt, FencesOk;
    RemoveKeeps(l.partial, l.out.cfg.reassemblyLimit, at);
    FewerFenced(l.fences.m, l.partial, RemoveAt(l.partial, at), l.events);
  }

  lemma ReassemblyExpiresKeeps(l: Link, key: Key, frames: nat)
    requires LinkInv(l)
    ensures var n := ReassemblyExpires(l, key, frames); LinkInv(n) && Moves(l, n)
  {
    hide Inv, InboundInv, SendControl, RemoveAt, RepairInterval;
    var at := Find(l.partial, key);
    if at.Some? {
      var r := l.partial[at.value];
      var c := MissingChunks(r.identity.op, r.identity.msgId, MissingFrom(r.chunks, r.count));
      SendControlKeeps(l.out, c, r.identity.source, false, |l.pending.m|, frames);
      SendControlOnly(l.out, c, r.identity.source, false, |l.pending.m|, frames);
      OutKeeps(l, SendControl(l.out, c, r.identity.source, false, |l.pending.m|, frames).0);
      FewerPartial(l, at.value);
    }
  }

  // ----- settling -----------------------------------------------------------------------------------

  lemma SettleOneKeeps(l: Link, id: SettlementId, confirmed: bool)
    requires LinkInv(l) && id in l.pending.m
    ensures var n := Unpend(RecordSettled(l, id, confirmed, None), id);
            LinkInv(n) && n == l.(pending := l.pending.Drop(id), settled := n.settled)
    ensures id !in Unpend(RecordSettled(l, id, confirmed, None), id).pending.m
    ensures id in Ids(Unpend(RecordSettled(l, id, confirmed, None), id).settled)
  {
    hide Inv, InboundInv, RecordSettled, Ids;
    VerdictKeeps(l, id, confirmed, None);
    UnpendKeeps(RecordSettled(l, id, confirmed, None), id);
  }

  /** Settling a pending delivery leaves it remembered; only if the answer cannot be sent does it stay pending. */
  lemma SettleKeeps(l: Link, id: SettlementId, confirmed: bool, frames: nat)
    requires LinkInv(l)
    ensures var (n, ok) := Settle(l, id, confirmed, frames);
            && LinkInv(n) && Moves(l, n)
            && (ok ==> id in l.pending.m && id !in n.pending.m && id in Ids(n.settled))
            && (!ok ==> n == l.(out := n.out))
  {
    hide Inv, InboundInv, RecordSettled, SendControl, Ids;
    if id in l.pending.m {
      var p := l.pending.m[id];
      var c := Answer(confirmed, p.op, p.msgId);
      SendControlKeeps(l.out, c, p.source, true, |l.pending.m|, frames);
      SendControlOnly(l.out, c, p.source, true, |l.pending.m|, frames);
      var n := l.(out := SendControl(l.out, c, p.source, true, |l.pending.m|, frames).0);
      OutKeeps(l, n.out);
      SettleOneKeeps(n, id, confirmed);
    }
  }

  lemma {:induction false} MarkKeeps(settled: seq<Settled>, id: SettlementId, atomic: AtomicTask)
    ensures |MarkAtomic(settled, id, atomic)| == |settled|
    ensures forall j :: 0 <= j < |settled| ==>
              var e := MarkAtomic(settled, id, atomic)[j];
              e.id == settled[j].id && e.expiresAt == settled[j].expiresAt && e.confirmed == settled[j].confirmed
              && e.atomic == if e.id == id then Some(atomic) else settled[j].atomic
  {
    if settled != [] {
      MarkKeeps(settled[..|settled| - 1], id, atomic);
    }
  }

  lemma MarkSettled(settled: seq<Settled>, id: SettlementId, atomic: AtomicTask, now: nat)
    requires SettledOk(settled, now)
    ensures SettledOk(MarkAtomic(settled, id, atomic), now)
  {
    MarkKeeps(settled, id, atomic);
    var n := MarkAtomic(settled, id, atomic);
    hide MarkAtomic;
    forall e | e in n ensures e.expiresAt <= now + RETENTION_MS {
      var j :| 0 <= j < |n| && n[j] == e;
      assert settled[j] in settled;
    }
  }

  lemma MarkInv(l: Link, id: SettlementId, atomic: AtomicTask)
    requires LinkInv(l)
    ensures LinkInv(l.(settled := MarkAtomic(l.settled, id, atomic)))
  {
    hide Inv, TableOk, Ordered, SettledOk, HistoryOk, Apart, Ids, FencesOk, MarkAtomic;
    MarkIds(l.settled, id, atomic);
    MarkSettled(l.settled, id, atomic, l.out.now);
    MarkHistory(l, id, atomic);
  }

  lemma MarkIds(settled: seq<Settled>, id: SettlementId, atomic: AtomicTask)
    ensures Ids(MarkAtomic(settled, id, atomic)) == Ids(settled)
  {
    var n := MarkAtomic(settled, id, atomic);
    MarkKeeps(settled, id, atomic);
    forall x | x in Ids(settled) ensures x in Ids(n) {
      var e :| e in settled && e.id == x;
      var j :| 0 <= j < |settled| && settled[j] == e;
      assert n[j] in n && n[j].id == x;
    }
    forall x | x in Ids(n) ensures x in Ids(settled) {
      var e :| e in n && e.id == x;
      var j :| 0 <= j < |n| && n[j] == e;
      assert settled[j] in settled && settled[j].id == x;
    }
  }

  lemma MarkHistory(l: Link, id: SettlementId, atomic: AtomicTask)
    requires HistoryOk(l.events, l.pending.m, l.settled, l.out.now, l.out.stopped)
    ensures HistoryOk(l.events, l.pending.m, MarkAtomic(l.settled, id, atomic), l.out.now, l.out.stopped)
  {
    var n := MarkAtomic(l.settled, id, atomic);
    MarkIds(l.settled, id, atomic);
    MarkKeeps(l.settled, id, atomic);
    forall e, h | e in l.events && e.settles && h in n && h.id == e.id
      ensures h.expiresAt >= e.at + RETENTION_MS
    {
      var j :| 0 <= j < |n| && n[j] == h;
      assert l.settled[j] in l.settled;
    }
    hide MarkAtomic, Ids;
  }

  /** The atomic settlement sends both messages and remembers the delivery, or changes no queue at all. */
  lemma SettleWithReportKeeps(l: Link, id: SettlementId, report: Message, dest: Node, op: OpId, receiptFrames: nat, reportFrames: nat)
    requires LinkInv(l)
    ensures var (n, ok) := SettleWithReport(l, id, report, dest, op, receiptFrames, reportFrames);
            && LinkInv(n) && Moves(l, n)
            && (!ok ==> n.out.queue == l.out.queue && n.out.byOperation == l.out.byOperation && n.pending == l.pending)
            && (n.pending == l.pending ==> n.out.heap == l.out.heap)
            && (id in l.pending.m && id !in n.pending.m ==> id in Ids(n.settled) && |n.out.heap| == |l.out.heap| + 2)
  {
    hide Inv, InboundInv, RecordSettled, SendReceiptAndReport, Ids, MarkAtomic, OccupiedBy;
    if !l.out.stopped && report.TaskReport? {
      PruneSettledKeeps(l);
      var p := l.(settled := PruneSettled(l.settled, l.out.now));
      var prior := Lookup(p.settled, id);
      if !(prior.Some? && prior.value.atomic.Some?) && MaySettleTogether(p, id, report, dest) {
        var held := p.pending.m[id];
        assert |p.pending.m| > 0;
        SettleTogether(p.out, Confirmed(held.op, held.msgId), report, dest, op, |p.pending.m|, receiptFrames, reportFrames);
        TogetherOnly(p.out, Confirmed(held.op, held.msgId), report, dest, op, |p.pending.m|, receiptFrames, reportFrames);
        var (out, ok) := SendReceiptAndReport(p.out, Confirmed(held.op, held.msgId), report, dest, op, |p.pending.m|, receiptFrames, reportFrames);
        OutKeeps(p, out);
        if ok {
          SettleOneKeeps(p.(out := out), id, true);
          var recorded := Unpend(RecordSettled(p.(out := out), id, true, None), id);
          MarkInv(recorded, id, AtomicTask(report, dest, op));
          MarkIds(recorded.settled, id, AtomicTask(report, dest, op));
        }
      }
    }
  }

  lemma PendingExpiresKeeps(l: Link, id: SettlementId, frames: nat)
    requires LinkInv(l)
    ensures var n := PendingExpires(l, id, frames);
            && LinkInv(n) && Moves(l, n) && id !in n.pending.m
            && (id in l.pending.m ==> id in Ids(n.settled))
  {
    hide Inv, InboundInv, RecordSettled, Reply, Ids;
    if id in l.pending.m {
      var p := l.pending.m[id];
      ReplyKeeps(l, p.source, Rejected(p.op, p.msgId), frames);
      SettleOneKeeps(Reply(l, p.source, Rejected(p.op, p.msgId), frames), id, false);
    }
  }

  lemma AnnounceKeeps(l: Link, source: Node, generation: nat, session: string, admits: bool, frames: nat)
    requires LinkInv(l)
    ensures var n := Announce(l, source, generation, session, admits, frames); LinkInv(n) && Moves(l, n)
  {
    hide Inv, InboundInv, ActivateFence, Submit;
    var (n, ok) := ActivateFence(l, source, generation, session, admits);
    ActivateKeeps(l, source, generation, session, admits);
    ActivateAdvances(l, source, generation, session, admits);
    var m := Control(SourceActive(source, generation, session));
    SubmitKeeps(n.out, m, None, Activation(source.id, generation), false, |n.pending.m|, frames);
    SubmitOnly(n.out, m, None, Activation(source.id, generation), false, |n.pending.m|, frames);
    OutKeeps(n, Submit(n.out, m, None, Activation(source.id, generation), false, |n.pending.m|, frames).0);
  }

  lemma FailOnly(s: Out, r: nat)
    ensures OutOnly(s, if Get(s, r).Confirmable() then Complete(s, r, Failed) else FailBestEffort(s, r))
  {
    hide Complete, Without, NeedsConfirmation;
    CompleteOnly(s, r, Failed);
  }

  lemma {:induction false} FailAllOnly(s: Out, refs: seq<nat>)
    ensures OutOnly(s, FailAll(s, refs)) && FailAll(s, refs).heap == s.heap
    decreases |refs|
  {
    if refs != [] {
      hide Complete, FailBestEffort, NeedsConfirmation;
      FailAllOnly(s, refs[..|refs| - 1]);
      var earlier := FailAll(s, refs[..|refs| - 1]);
      FailOnly(earlier, refs[|refs| - 1]);
      FailHeap(earlier, refs[|refs| - 1]);
    }
  }

  lemma FailHeap(s: Out, r: nat)
    ensures Complete(s, r, Failed).heap == s.heap && FailBestEffort(s, r).heap == s.heap
  {
    hide Without, HasEligible, ForgetData;
  }

  lemma StopOnly(s: Out, refs: seq<nat>)
    ensures var n := Stop(s, refs); n.cfg == s.cfg && n.now == s.now && n.stopped
  {
    hide FailAll;
    FailAllOnly(Closing(s), refs);
  }

  lemma StopLinkKeeps(l: Link, refs: seq<nat>)
    requires LinkInv(l) && Concerns(l.out, refs)
    ensures LinkInv(StopLink(l, refs)) && StopLink(l, refs).events == l.events && StopLink(l, refs).fences == l.fences
    ensures StopLink(l, refs).out.stopped
  {
    hide Inv, Stop, Concerns, SettledOk;
    StopKeeps(l.out, refs);
    StopOnly(l.out, refs);
    if !l.out.stopped {
      StopHistory(l, refs);
    }
  }

  lemma StopHistory(l: Link, refs: seq<nat>)
    requires InboundInv(l)
    ensures HistoryOk(l.events, map[], l.settled, l.out.now, true) && RoomOk(map[], l.settled, l.out.cfg.confirmedLimit)
    ensures TableOk([], l.out.cfg.reassemblyLimit) && FencesOk(l.fences.m, [], l.events)
  {
    hide TableOk, Ordered, SettledOk, Apart;
    var none: map<SettlementId, Pending> := map[];
    SubsetCard(none.Keys + Ids(l.settled), l.pending.m.Keys + Ids(l.settled));
    EmptyTable(l.out.cfg.reassemblyLimit);
  }

  lemma EmptyTable(limit: nat)
    ensures TableOk([], limit)
  {
  }

  lemma TimePasses(l: Link, now: nat)
    requires InboundInv(l) && l.out.now <= now
    ensures InboundInv(l.(out := l.out.(now := now)))
  {
    hide TableOk, Ordered, Apart, FencesOk, RoomOk;
  }
}
