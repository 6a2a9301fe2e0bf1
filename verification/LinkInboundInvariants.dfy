/** What every step keeps on the receiving side: fences, bounded histories and at-most-once delivery. */
module LinkInboundInvariants {
  import opened Wrappers
  import opened LinkTypes
  import opened LinkOutbound
  import opened LinkReassembly
  import opened LinkInbound
  import opened LinkOutboundInvariants
  import opened LinkSubmission

  // ----- the parts ----------------------------------------------------------------------------------

  /** Nothing delivered or half received is ahead of, or beside, its source's fence. */
  ghost predicate FencesOk(fences: map<Node, Fence>, partial: seq<Reassembly>, events: seq<Event>) {
    && |fences| <= LINK_SOURCE_IDENTITY_LIMIT
    && (forall e :: e in events ==>
          && e.id.source in fences && e.id.generation <= fences[e.id.source].generation
          && (e.id.generation == fences[e.id.source].generation ==> e.id.session == fences[e.id.source].session))
    && (forall r :: r in partial && r.identity.source in fences ==>
          !FencedOff(r.identity, r.identity.source, fences[r.identity.source].generation, fences[r.identity.source].session))
  }

  /** Per source: non-decreasing generations and one session for each. */
  ghost predicate Ordered(events: seq<Event>) {
    forall i, j :: 0 <= i < j < |events| && events[i].id.source == events[j].id.source ==>
      && events[i].id.generation <= events[j].id.generation
      && (events[i].id.generation == events[j].id.generation ==> events[i].id.session == events[j].id.session)
  }

  ghost predicate SettledOk(settled: seq<Settled>, now: nat) {
    && (forall i, j :: 0 <= i < j < |settled| ==> settled[i].expiresAt <= settled[j].expiresAt && settled[i].id != settled[j].id)
    && (forall e :: e in settled ==> e.expiresAt <= now + RETENTION_MS)
  }

  function Ids(settled: seq<Settled>): set<SettlementId> { set e | e in settled :: e.id }

  /** A delivered identity is pending or remembered for at least the retention time. */
  ghost predicate HistoryOk(events: seq<Event>, pending: map<SettlementId, Pending>, settled: seq<Settled>, now: nat,
                            stopped: bool)
  {
    && (forall e :: e in events ==> e.at <= now)
    && (forall e :: e in events && e.settles ==>
          e.id in pending || e.id in Ids(settled) || now >= e.at + RETENTION_MS || stopped)
    && (forall e, h :: e in events && e.settles && h in settled && h.id == e.id ==> h.expiresAt >= e.at + RETENTION_MS)
  }

  /** At most one settlement-requiring delivery of an identity within the retention time. */
  ghost predicate Apart(events: seq<Event>) {
    forall i, j :: 0 <= i < j < |events| && events[i].settles && events[j].settles && events[i].id == events[j].id ==>
      events[j].at >= events[i].at + RETENTION_MS
  }

  ghost predicate RoomOk(pending: map<SettlementId, Pending>, settled: seq<Settled>, confirmedLimit: nat) {
    && |pending| <= confirmedLimit
    && |pending.Keys + Ids(settled)| <= SETTLED_INBOUND_LIMIT
  }

  ghost predicate ConfigOk(c: Config) { c.queueLimit > 0 && c.confirmedLimit > 0 && c.reassemblyLimit > 0 }

  ghost predicate ClosedOk(stopped: bool, pending: map<SettlementId, Pending>, partial: seq<Reassembly>) {
    stopped ==> pending == map[] && partial == []
  }

  ghost predicate InboundInv(l: Link) {
    && ConfigOk(l.out.cfg)
    && FencesOk(l.fences.m, l.partial, l.events)
    && TableOk(l.partial, l.out.cfg.reassemblyLimit)
    && Ordered(l.events)
    && SettledOk(l.settled, l.out.now)
    && HistoryOk(l.events, l.pending.m, l.settled, l.out.now, l.out.stopped)
    && Apart(l.events)
    && RoomOk(l.pending.m, l.settled, l.out.cfg.confirmedLimit)
    && ClosedOk(l.out.stopped, l.pending.m, l.partial)
  }

  ghost predicate LinkInv(l: Link) { Inv(l.out) && InboundInv(l) }

  // ----- the settlement history ---------------------------------------------------------------------

  /** Pruning from the front drops exactly the expired entries. */
  lemma SettledFirst(settled: seq<Settled>, now: nat)
    requires SettledOk(settled, now) && settled != []
    ensures SettledOk(settled[1..], now)
    ensures forall e :: e in settled ==> settled[0].expiresAt <= e.expiresAt
  {
  }

  lemma {:induction false} PruneSettledExact(settled: seq<Settled>, now: nat)
    requires SettledOk(settled, now)
    ensures SettledOk(PruneSettled(settled, now), now)
    ensures forall e :: e in PruneSettled(settled, now) <==> e in settled && e.expiresAt > now
    decreases |settled|
  {
    hide SettledOk;
    if settled != [] {
      SettledFirst(settled, now);
      if settled[0].expiresAt <= now {
        PruneSettledExact(settled[1..], now);
        assert settled == [settled[0]] + settled[1..];
      }
    }
  }

  lemma LookupIds(settled: seq<Settled>, id: SettlementId)
    ensures Lookup(settled, id).Some? <==> id in Ids(settled)
  {
  }

  lemma PruneHistory(events: seq<Event>, pending: map<SettlementId, Pending>, settled: seq<Settled>, now: nat, stopped: bool)
    requires SettledOk(settled, now) && HistoryOk(events, pending, settled, now, stopped)
    ensures HistoryOk(events, pending, PruneSettled(settled, now), now, stopped)
  {
    PruneSettledExact(settled, now);
    var kept := PruneSettled(settled, now);
    forall e | e in events && e.settles
      ensures e.id in pending || e.id in Ids(kept) || now >= e.at + RETENTION_MS || stopped
    {
      if e.id in Ids(settled) && e.id !in Ids(kept) {
        var h :| h in settled && h.id == e.id;
        assert h !in kept;
      }
    }
  }

  lemma PruneRoom(pending: map<SettlementId, Pending>, settled: seq<Settled>, now: nat, limit: nat)
    requires SettledOk(settled, now) && RoomOk(pending, settled, limit)
    ensures RoomOk(pending, PruneSettled(settled, now), limit)
  {
    PruneSettledExact(settled, now);
    SubsetCard(pending.Keys + Ids(PruneSettled(settled, now)), pending.Keys + Ids(settled));
  }

  lemma PruneSettledKeeps(l: Link)
    requires InboundInv(l)
    ensures InboundInv(l.(settled := PruneSettled(l.settled, l.out.now)))
  {
    hide FencesOk, TableOk, Ordered, SettledOk, HistoryOk, Apart, RoomOk;
    PruneSettledExact(l.settled, l.out.now);
    PruneHistory(l.events, l.pending.m, l.settled, l.out.now, l.out.stopped);
    PruneRoom(l.pending.m, l.settled, l.out.now, l.out.cfg.confirmedLimit);
  }

  lemma {:induction false} IdsCount(settled: seq<Settled>)
    ensures |Ids(settled)| <= |settled|
  {
    if settled == [] {
      assert Ids(settled) == {};
    } else {
      IdsCount(settled[..|settled| - 1]);
      assert settled == settled[..|settled| - 1] + [settled[|settled| - 1]];
      assert Ids(settled) == Ids(settled[..|settled| - 1]) + {settled[|settled| - 1].id};
    }
  }

  lemma RoomGrows(pending: map<SettlementId, Pending>, settled: seq<Settled>, id: SettlementId)
    requires |pending.Keys + Ids(settled)| <= SETTLED_INBOUND_LIMIT
    requires id in pending || |settled| + |pending| < SETTLED_INBOUND_LIMIT
    ensures |pending.Keys + Ids(settled) + {id}| <= SETTLED_INBOUND_LIMIT
  {
    if id in pending {
      assert pending.Keys + Ids(settled) + {id} == pending.Keys + Ids(settled);
    } else {
      IdsCount(settled);
      UnionCard(pending.Keys, Ids(settled));
      assert |pending| == |pending.Keys|;
      UnionCard(pending.Keys + Ids(settled), {id});
    }
  }

  lemma AppendHistory(events: seq<Event>, pending: map<SettlementId, Pending>, settled: seq<Settled>, e: Settled, now: nat,
                      stopped: bool)
    requires HistoryOk(events, pending, settled, now, stopped) && e.expiresAt == now + RETENTION_MS
    ensures HistoryOk(events, pending, settled + [e], now, stopped)
  {
    AppendIds(settled, e);
    assert forall x :: x in settled + [e] <==> x in settled || x == e;
  }

  lemma AppendRoom(pending: map<SettlementId, Pending>, settled: seq<Settled>, e: Settled, limit: nat)
    requires RoomOk(pending, settled, limit) && (e.id in pending || |settled| + |pending| < SETTLED_INBOUND_LIMIT)
    ensures RoomOk(pending, settled + [e], limit)
  {
    RoomGrows(pending, settled, e.id);
    AppendIds(settled, e);
    assert pending.Keys + Ids(settled + [e]) == pending.Keys + Ids(settled) + {e.id};
  }

  lemma AppendSettled(l: Link, e: Settled)
    requires InboundInv(l) && e.id !in Ids(l.settled) && e.expiresAt == l.out.now + RETENTION_MS
    requires e.id in l.pending.m || |l.settled| + |l.pending.m| < SETTLED_INBOUND_LIMIT
    ensures InboundInv(l.(settled := l.settled + [e])) && Ids(l.settled + [e]) == Ids(l.settled) + {e.id}
  {
    AppendRoom(l.pending.m, l.settled, e, l.out.cfg.confirmedLimit);
    AppendIds(l.settled, e);
    AppendHistory(l.events, l.pending.m, l.settled, e, l.out.now, l.out.stopped);
    AppendFresh(l.settled, e, l.out.now);
    hide FencesOk, TableOk, Ordered, Apart, SettledOk, HistoryOk, Ids, RoomOk;
  }

  lemma AppendIds(settled: seq<Settled>, e: Settled)
    ensures Ids(settled + [e]) == Ids(settled) + {e.id}
  {
    assert forall x :: x in settled + [e] <==> x in settled || x == e;
  }

  lemma AppendFresh(settled: seq<Settled>, e: Settled, now: nat)
    requires SettledOk(settled, now) && e.id !in Ids(settled) && e.expiresAt == now + RETENTION_MS
    ensures SettledOk(settled + [e], now)
  {
    assert forall i :: 0 <= i < |settled| ==> settled[i] in settled && settled[i].id in Ids(settled);
  }

  lemma AppendLookup(settled: seq<Settled>, e: Settled, id: SettlementId)
    ensures Lookup(settled + [e], id) == if e.id == id then Some(e) else Lookup(settled, id)
  {
    assert (settled + [e])[..|settled|] == settled;
  }

  lemma VerdictKeeps(l: Link, id: SettlementId, confirmed: bool, atomic: Option<AtomicTask>)
    requires InboundInv(l)
    ensures var n := RecordSettled(l, id, confirmed, atomic);
            && InboundInv(n) && n == l.(settled := n.settled) && (id in l.pending.m ==> id in Ids(n.settled))
  {
    hide InboundInv, Ids, Lookup;
    var kept := PruneSettled(l.settled, l.out.now);
    PruneSettledKeeps(l);
    LookupIds(kept, id);
    if !(Lookup(kept, id).Some? || (id !in l.pending.m && |kept| + |l.pending.m| >= SETTLED_INBOUND_LIMIT)) {
      AppendSettled(l.(settled := kept), Settled(id, confirmed, l.out.now + RETENTION_MS, atomic));
    }
  }

  /** The first result recorded for an identity stays until it expires, and only `id` gets a new one. */
  lemma FirstResultStays(l: Link, id: SettlementId, confirmed: bool, atomic: Option<AtomicTask>, other: SettlementId)
    ensures var n := RecordSettled(l, id, confirmed, atomic);
            var before := Lookup(PruneSettled(l.settled, l.out.now), other);
            && (before.Some? || other != id ==> Lookup(n.settled, other) == before)
            && (before.None? && Lookup(n.settled, other).Some? ==>
                  Lookup(n.settled, other).value == Settled(id, confirmed, l.out.now + RETENTION_MS, atomic))
            && (other == id && id in l.pending.m ==> Lookup(n.settled, id).Some?)
  {
    hide Lookup;
    AppendLookup(PruneSettled(l.settled, l.out.now), Settled(id, confirmed, l.out.now + RETENTION_MS, atomic), other);
  }

  lemma UnpendKeeps(l: Link, id: SettlementId)
    requires InboundInv(l) && id in Ids(l.settled)
    ensures InboundInv(Unpend(l, id))
  {
    hide FencesOk, TableOk, Ordered, Apart, SettledOk;
    var n := Unpend(l, id);
    SubsetCard(n.pending.m.Keys + Ids(n.settled), l.pending.m.Keys + Ids(l.settled));
    SubsetCard(n.pending.m.Keys, l.pending.m.Keys);
    assert |n.pending.m| == |n.pending.m.Keys| && |l.pending.m| == |l.pending.m.Keys|;
  }

  // ----- answering through the sending half -----------------------------------------------------------

  /** The sending half moved on by itself. */
  ghost predicate OutOnly(s: Out, n: Out) { n.cfg == s.cfg && n.now == s.now && n.stopped == s.stopped }

  lemma OutKeeps(l: Link, out: Out)
    requires InboundInv(l) && OutOnly(l.out, out)
    ensures InboundInv(l.(out := out))
  {
    hide FencesOk, TableOk, Ordered, Apart, SettledOk, HistoryOk, RoomOk;
  }

  lemma SubmitPreparedOnly(s: Out, op: OpId, p: Prepared)
    ensures OutOnly(s, SubmitPrepared(s, op, p).0)
  {
    hide Replaceable, RemoveFrom, PutIf, ResultsAfter;
  }

  lemma AdmitOnly(s: Out, m: Message, dest: Option<Node>, op: OpId, useReservation: bool, capacity: Capacity,
                  sequence: nat, held: Option<Reservation>, pendingInbound: nat, frames: nat)
    ensures OutOnly(s, Admit(s, m, dest, op, useReservation, capacity, sequence, held, pendingInbound, frames).0)
  {
    hide QueueFull, Awaiting, NeedsConfirmation;
  }

  lemma PrepareOnly(s: Out, m: Message, dest: Option<Node>, op: OpId, useReservation: bool, capacity: Capacity,
                    sequence: nat, held: Option<Reservation>, pendingInbound: nat, frames: nat)
    ensures OutOnly(s, Prepare(s, m, dest, op, useReservation, capacity, sequence, held, pendingInbound, frames).0)
  {
    hide Admit, Remembered, Unexpired, NeedsConfirmation, ValidStateSource;
    AdmitOnly(Prune(s), m, dest, op, useReservation, capacity, sequence, held, pendingInbound, frames);
  }

  lemma SubmitOnly(s: Out, m: Message, dest: Option<Node>, op: OpId, useReservation: bool, pendingInbound: nat, frames: nat)
    ensures OutOnly(s, Submit(s, m, dest, op, useReservation, pendingInbound, frames).0)
  {
    hide Prepare, SubmitPrepared;
    var (n, p) := Prepare(s, m, dest, op, useReservation, DefaultCapacity(m), s.sequence + 1, None, pendingInbound, frames);
    PrepareOnly(s, m, dest, op, useReservation, DefaultCapacity(m), s.sequence + 1, None, pendingInbound, frames);
    SubmitPreparedOnly(n, op, p);
  }

  lemma SendControlOnly(s: Out, c: ControlKind, dest: Node, useReservation: bool, pendingInbound: nat, frames: nat)
    ensures OutOnly(s, SendControl(s, c, dest, useReservation, pendingInbound, frames).0)
  {
    hide Submit;
    SubmitOnly(s.(nextId := s.nextId + 1), Control(c), Some(dest), Drawn(s.nextId), useReservation, pendingInbound, frames);
  }

  lemma TogetherOnly(s: Out, receipt: ControlKind, report: Message, dest: Node, op: OpId, pendingInbound: nat,
                     receiptFrames: nat, reportFrames: nat)
    ensures OutOnly(s, SendReceiptAndReport(s, receipt, report, dest, op, pendingInbound, receiptFrames, reportFrames).0)
  {
    hide Prepare, Replaceable, RemoveFrom, PutIf, ResultsAfter;
    var key := Drawn(s.nextId);
    var named := s.(nextId := s.nextId + 1);
    PrepareOnly(named, Control(receipt), Some(dest), key, false, RECEIPT_CAPACITY, s.sequence + 1, None, pendingInbound, receiptFrames);
    var (a, first) := Prepare(named, Control(receipt), Some(dest), key, false, RECEIPT_CAPACITY, s.sequence + 1, None, pendingInbound, receiptFrames);
    PrepareOnly(a, report, Some(dest), op, false, REPORT_CAPACITY, s.sequence + 2, None, pendingInbound, reportFrames);
  }

  lemma AnsweredOnly(s: Out, r: nat, request: OpId)
    ensures OutOnly(s, CompleteWithResponse(s, r, request))
  {
    hide Without;
  }

  lemma RequeueOnly(s: Out, r: nat)
    ensures OutOnly(s, Requeue(s, r))
  {
    hide Without;
  }

  lemma CompleteOnly(s: Out, r: nat, status: Status)
    ensures OutOnly(s, Complete(s, r, status))
  {
    hide Without, HasEligible, ForgetData;
  }

  lemma ApplyAnswerOnly(s: Out, r: nat, c: ControlKind)
    ensures OutOnly(s, ApplyAnswer(s, r, c))
  {
    hide Without, Complete, Requeue, Present;
    CompleteOnly(s, r, ConfirmedStatus);
    CompleteOnly(s, r, RejectedStatus);
    match c
    case MissingChunks(_, _, chunks) =>
      var missing := Present(Get(s, r).frames, chunks);
      RequeueOnly(Move(s, r, At(s, r).(pending := missing, retry := NoRetry)), r);
    case _ =>
  }

  lemma ReplyKeeps(l: Link, to: Node, c: ControlKind, frames: nat)
    requires LinkInv(l)
    ensures LinkInv(Reply(l, to, c, frames)) && Reply(l, to, c, frames) == l.(out := Reply(l, to, c, frames).out)
    ensures OutOnly(l.out, Reply(l, to, c, frames).out)
  {
    hide Inv, InboundInv, SendControl;
    SendControlKeeps(l.out, c, to, true, |l.pending.m|, frames);
    SendControlOnly(l.out, c, to, true, |l.pending.m|, frames);
    OutKeeps(l, Reply(l, to, c, frames).out);
  }

  lemma RefuseKeeps(l: Link, i: Identity, frames: nat)
    requires LinkInv(l)
    ensures LinkInv(Refuse(l, i, frames)) && Refuse(l, i, frames).events == l.events && Refuse(l, i, frames).fences == l.fences
  {
    hide Inv, InboundInv, Reply, RecordSettled;
    VerdictKeeps(l, IdOf(i), false, None);
    ReplyKeeps(RecordSettled(l, IdOf(i), false, None), i.source, Rejected(i.op, i.msgId), frames);
  }

  // ----- fences ---------------------------------------------------------------------------------------

  lemma {:induction false} KeepUnfencedExact(rs: seq<Reassembly>, source: Node, generation: nat, session: string)
    ensures forall r :: r in KeepUnfenced(rs, source, generation, session) <==>
              r in rs && !FencedOff(r.identity, source, generation, session)
  {
    if rs != [] {
      KeepUnfencedExact(rs[..|rs| - 1], source, generation, session);
      assert rs == rs[..|rs| - 1] + [rs[|rs| - 1]];
    }
  }

  lemma {:induction false} KeepUnfencedTable(rs: seq<Reassembly>, source: Node, generation: nat, session: string, limit: nat)
    requires TableOk(rs, limit)
    ensures TableOk(KeepUnfenced(rs, source, generation, session), limit)
    ensures |KeepUnfenced(rs, source, generation, session)| <= |rs|
  {
    if rs != [] {
      hide Incomplete;
      var last := rs[|rs| - 1];
      var rest := KeepUnfenced(rs[..|rs| - 1], source, generation, session);
      KeepUnfencedTable(rs[..|rs| - 1], source, generation, session, limit);
      KeepUnfencedExact(rs[..|rs| - 1], source, generation, session);
      forall i | 0 <= i < |rest|
        ensures KeyOf(rest[i].identity) != KeyOf(last.identity)
      {
        assert rest[i] in rest;
      }
    }
  }

  /** A source that got through its fence stands at it afterwards, and nothing behind it survives. */
  lemma ActivateFences(fences: map<Node, Fence>, partial: seq<Reassembly>, events: seq<Event>, source: Node, generation: nat,
                       session: string, changed: bool)
    requires FencesOk(fences, partial, events) && PassesFence(Table(fences), source, generation, session)
    requires changed == (source !in fences || generation > fences[source].generation)
    ensures FencesOk(fences[source := Fence(generation, session)],
                     if changed then KeepUnfenced(partial, source, generation, session) else partial, events)
  {
    KeepUnfencedExact(partial, source, generation, session);
    var n := fences[source := Fence(generation, session)];
    assert n.Keys == fences.Keys + {source} && |n| == |n.Keys| && |fences| == |fences.Keys|;
    if source in fences {
      assert fences.Keys + {source} == fences.Keys;
    }
  }

  lemma ActivateKeeps(l: Link, source: Node, generation: nat, session: string, admits: bool)
    requires LinkInv(l)
    ensures var (n, ok) := ActivateFence(l, source, generation, session, admits);
            && LinkInv(n) && n == l.(fences := n.fences, partial := n.partial)
            && (ok ==> source in n.fences.m && n.fences.m[source] == Fence(generation, session))
            && (!ok ==> n == l)
  {
    hide Inv, Ordered, Apart, SettledOk, HistoryOk, RoomOk, FencesOk, TableOk, KeepUnfenced;
    var changed := source !in l.fences.m || generation > l.fences.m[source].generation;
    if PassesFence(l.fences, source, generation, session) && (changed ==> admits) {
      assert l.fences == Table(l.fences.m);
      ActivateFences(l.fences.m, l.partial, l.events, source, generation, session, changed);
      KeepUnfencedTable(l.partial, source, generation, session, l.out.cfg.reassemblyLimit);
      assert KeepUnfenced([], source, generation, session) == [] by { EmptyUnfenced(source, generation, session); }
    }
  }

  lemma EmptyUnfenced(source: Node, generation: nat, session: string)
    ensures KeepUnfenced([], source, generation, session) == []
  {
  }

  /** Fences only ever move to newer generations. */
  ghost predicate Advances(earlier: map<Node, Fence>, fences: map<Node, Fence>) {
    forall k :: k in earlier ==> k in fences && fences[k].generation >= earlier[k].generation
                                 && (fences[k].generation == earlier[k].generation ==> fences[k] == earlier[k])
  }

  lemma ActivateAdvances(l: Link, source: Node, generation: nat, session: string, admits: bool)
    ensures Advances(l.fences.m, ActivateFence(l, source, generation, session, admits).0.fences.m)
  {
    hide KeepUnfenced;
  }
}
