/** What the calls of the transport come to: what was queued, reserved, cancelled, answered, and who is woken (transport.ts). */
module LinkOutcomes {
  import opened Wrappers
  import opened LinkTypes
  import opened LinkOutbound
  import opened LinkInbound
  import opened LinkOutboundInvariants
  import opened LinkOperations
  import opened LinkSubmission
  import opened LinkInboundInvariants

  // ----- submitting -----------------------------------------------------------------------------------

  /** `o` has joined the end of the queue as the newest message, and nothing but a publication it replaces has left it. */
  ghost predicate Joins(s: Out, n: Out, o: Outbound) {
    && n.heap == s.heap + [o] && n.queue == RemoveFrom(s.queue, Replaceable(s, o.message)) + [|s.heap|]
    && n.nextOrder > 0
    && n.progress == s.progress + [Progress(AllChunks(o.frames), false, n.nextOrder - 1, NoRetry, o.Confirmable())]
    && (o.Confirmable() ==> o.key in n.byOperation.m && n.byOperation.m[o.key] == |s.heap|)
  }

  ghost predicate NothingJoins(s: Out, n: Out) {
    n.heap == s.heap && n.queue == s.queue && n.progress == s.progress && n.byOperation == s.byOperation
    && n.reserved == s.reserved
  }

  /**
    The caller is told what is on record for the identity.  The message joins the queue exactly when nothing, or only
    a failure, was on record and it is told "queued"; otherwise nothing is queued.
    */
  ghost predicate Submitted(s: Out, n: Out, status: Status, m: Message, dest: Option<Node>, op: OpId, frames: nat) {
    && op in n.results.m && n.results.m[op] == status
    && (if |n.heap| > |s.heap| then
          && status.Queued? && (op in s.results.m ==> s.results.m[op] == Failed) && op !in n.reserved.m
          && var o := n.heap[|s.heap|]; Joins(s, n, o) && o == Outbound(m, op, o.msgId, o.sequence, dest, frames)
        else NothingJoins(s, n) && (status == Failed || (op in s.results.m && s.results.m[op] == status)))
  }

  lemma PreparedOutcome(s: Out, n: Out, p: Prepared, m: Message, dest: Option<Node>, op: OpId, frames: nat)
    requires Prepares(s, n) && s.nextOrder <= n.nextOrder
    requires p.Ready? ==>
               && op !in n.committed.m && (m.DataRequest? ==> m.id == op) && n.nextOrder == p.order + 1
               && p.outbound == Outbound(m, op, p.outbound.msgId, p.outbound.sequence, dest, frames)
               && (op in s.results.m ==> s.results.m[op] == Failed)
    requires p.Existing? ==> op in s.results.m && s.results.m[op] == p.status
    ensures var (e, status) := SubmitPrepared(n, op, p);
            Submitted(s, e, status, m, dest, op, frames)
            && (p.Ready? <==> |e.heap| > |s.heap|) && (p.Ready? ==> e.heap[|s.heap|] == p.outbound)
  {
    hide RemoveFrom, Replaceable, HasEligible, NeedsConfirmation;
    if p.Ready? {
      CommitShape(n, p.outbound, p.order, p.replacesFailed);
      SameReplaced(s, n, m);
    }
  }

  /** What `Prepare` has checked when it is ready. */
  lemma ReadyMeans(s: Out, m: Message, dest: Option<Node>, op: OpId, useReservation: bool, capacity: Capacity,
                   sequence: nat, held: Option<Reservation>, pendingInbound: nat, frames: nat)
    requires Inv(s) && MayUse(s, m, op, sequence, held)
    ensures var (n, p) := Prepare(s, m, dest, op, useReservation, capacity, sequence, held, pendingInbound, frames);
            && Prepares(s, n)
            && (p.Ready? ==>
                  && op !in n.committed.m && (m.DataRequest? ==> m.id == op) && n.nextOrder == p.order + 1
                  && p.outbound == Outbound(m, op, if held.Some? then held.value.msgId else s.nextId, sequence, dest, frames)
                  && (op in s.results.m ==> s.results.m[op] == Failed))
            && (p.Existing? ==> op in s.results.m && s.results.m[op] == p.status)
  {
    hide Inv, Admit, MayUse, Admitted, NeedsConfirmation, Prune;
    PrepareKeeps(s, m, dest, op, useReservation, capacity, sequence, held, pendingInbound, frames);
    PruneFields(s);
    AdmitMeans(Prune(s), m, dest, op, useReservation, capacity, sequence, held, pendingInbound, frames);
  }

  lemma AdmitMeans(s: Out, m: Message, dest: Option<Node>, op: OpId, useReservation: bool, capacity: Capacity,
                   sequence: nat, held: Option<Reservation>, pendingInbound: nat, frames: nat)
    ensures var (n, p) := Admit(s, m, dest, op, useReservation, capacity, sequence, held, pendingInbound, frames);
            && (p.Ready? ==>
                  && op !in n.committed.m && n.nextOrder == p.order + 1
                  && p.outbound == Outbound(m, op, if held.Some? then held.value.msgId else s.nextId, sequence, dest, frames)
                  && (op in s.results.m ==> s.results.m[op] == Failed))
            && (p.Existing? ==> op in s.results.m && s.results.m[op] == p.status)
  {
    hide QueueFull, ScheduleWake, AwaitedBy, NeedsConfirmation;
  }

  lemma SubmitOutcome(s: Out, m: Message, dest: Option<Node>, op: OpId, useReservation: bool, pendingInbound: nat, frames: nat)
    requires Inv(s)
    ensures var (n, status) := Submit(s, m, dest, op, useReservation, pendingInbound, frames);
            && Submitted(s, n, status, m, dest, op, frames)
            && (|n.heap| > |s.heap| ==> n.heap[|s.heap|].msgId == s.nextId && n.heap[|s.heap|].sequence == s.sequence + 1)
  {
    hide Inv, Prepare, SubmitPrepared, Submitted;
    ReadyMeans(s, m, dest, op, useReservation, DefaultCapacity(m), s.sequence + 1, None, pendingInbound, frames);
    var (n, p) := Prepare(s, m, dest, op, useReservation, DefaultCapacity(m), s.sequence + 1, None, pendingInbound, frames);
    PreparedOutcome(s, n, p, m, dest, op, frames);
  }

  // ----- reservations ---------------------------------------------------------------------------------

  /** A reservation sets aside the next sequence number and message identity, which nothing else has. */
  lemma ReserveOutcome(s: Out, m: Message, dest: Node, op: OpId, frames: nat)
    requires Inv(s)
    ensures var (n, ok) := Reserve(s, m, dest, op, frames);
            && (!ok ==> n.reserved == s.reserved && n.sequence == s.sequence)
            && (ok ==> op !in s.reserved.m && op in n.reserved.m
                       && n.reserved == s.reserved.Put(op, Reservation(m, dest, s.sequence + 1, s.nextId))
                       && n.sequence == s.sequence + 1)
            && (ok ==> forall r :: 0 <= r < |n.heap| ==> n.heap[r].sequence != s.sequence + 1 && n.heap[r].msgId != s.nextId)
            && (ok ==> forall k :: k in s.reserved.m ==>
                         s.reserved.m[k].sequence != s.sequence + 1 && s.reserved.m[k].msgId != s.nextId)
  {
    hide Inv, Prune;
    PruneFields(s.(nextId := s.nextId + 1));
    NumbersAhead(s);
  }

  /** No message and no reservation has a number or identity that is still to be given. */
  lemma NumbersAhead(s: Out)
    requires Inv(s)
    ensures forall r :: 0 <= r < |s.heap| ==> s.heap[r].sequence != s.sequence + 1 && s.heap[r].msgId != s.nextId
    ensures forall k :: k in s.reserved.m ==>
              s.reserved.m[k].sequence != s.sequence + 1 && s.reserved.m[k].msgId != s.nextId
  {
    hide ProgressOk, MapsOk, QueueOk, SendingShape, SendingFenced, LockHeld, NoneForgotten, TimersOk, FlagsOk, ExpiriesOk;
    hide WakeOk, WithinLimits, Awake, StoppedOk;
  }

  lemma PruneFields(s: Out)
    ensures Prune(s) == s.(expiries := Prune(s).expiries, committed := Prune(s).committed)
  {
    hide Remembered, Unexpired;
  }

  /** A dispatched reservation is sent under the sequence number and identity set aside for it, or stays reserved. */
  lemma DispatchOutcome(s: Out, op: OpId, pendingInbound: nat, frames: nat)
    requires Inv(s)
    ensures var (n, status) := DispatchReserved(s, op, pendingInbound, frames);
            if op !in s.reserved.m then n == s && status == Failed
            else
              var held := s.reserved.m[op];
              && Submitted(s, n, status, held.message, Some(held.dest), op, frames)
              && (|n.heap| > |s.heap| ==>
                    n.heap[|s.heap|] == Outbound(held.message, op, held.msgId, held.sequence, Some(held.dest), frames))
  {
    hide Inv, Prepare, SubmitPrepared, Submitted;
    if op in s.reserved.m {
      var held := s.reserved.m[op];
      HeldMayUse(s, op);
      var c := DefaultCapacity(held.message);
      ReadyMeans(s, held.message, Some(held.dest), op, false, c, held.sequence, Some(held), pendingInbound, frames);
      var (n, p) := Prepare(s, held.message, Some(held.dest), op, false, c, held.sequence, Some(held), pendingInbound, frames);
      PreparedOutcome(s, n, p, held.message, Some(held.dest), op, frames);
    }
  }

  lemma HeldMayUse(s: Out, op: OpId)
    requires Inv(s) && op in s.reserved.m
    ensures MayUse(s, s.reserved.m[op].message, op, s.reserved.m[op].sequence, Some(s.reserved.m[op]))
  {
    hide HeapOk, ProgressOk, MapsOk, QueueOk, SendingShape, SendingFenced, LockHeld, NoneForgotten, TimersOk, FlagsOk,
         ExpiriesOk, WakeOk, WithinLimits, Awake, StoppedOk;
  }

  // ----- cancelling -----------------------------------------------------------------------------------

  /** Every entry but that of `op` is as it was, and that one is gone. */
  ghost predicate OnlyForgets(before: map<OpId, nat>, after: map<OpId, nat>, op: OpId) {
    forall k :: (k in after <==> k in before && k != op) && (k in after ==> after[k] == before[k])
  }

  /** Exactly the operation of that identity, if one is under way, fails and is forgotten; all others stay as they are. */
  lemma CancelOutcome(s: Out, op: OpId)
    requires Inv(s)
    ensures var n := Cancel(s, op);
            if op !in s.byOperation.m && op !in s.pendingData.m && op !in s.responses.m then n == s
            else
              && n.results == s.results.Put(op, Failed)
              && OnlyForgets(s.byOperation.m, n.byOperation.m, op) && OnlyForgets(s.pendingData.m, n.pendingData.m, op)
              && OnlyForgets(s.responses.m, n.responses.m, op)
              && (forall r :: r in n.queue <==> r in s.queue && r != Cancellable(s, op).value)
              && (forall r :: 0 <= r < |s.progress| && r != Cancellable(s, op).value ==>
                    r < |n.progress| && n.progress[r] == s.progress[r])
  {
    hide Inv, Complete, Without;
    if Cancellable(s, op).Some? {
      CancelledOwner(s, op);
      CancelledMaps(s, op);
      CancelledRest(s, Cancellable(s, op).value);
    }
  }

  lemma CancelledOwner(s: Out, op: OpId)
    requires Inv(s) && Cancellable(s, op).Some?
    ensures var r := Cancellable(s, op).value;
            Get(s, r).key == op && ForgetData(s.pendingData, Get(s, r).message, r).m == s.pendingData.m - {op}
  {
    hide HeapOk, ReservedOk, QueueOk, SendingShape, SendingFenced, LockHeld, NoneForgotten, TimersOk, ExpiriesOk, WakeOk, FlagsOk;
    hide WithinLimits, Awake, StoppedOk;
  }

  lemma RetainShape(s: Out, op: OpId)
    ensures var n := RetainCompleted(s, op); n == s.(committed := n.committed, expiries := n.expiries, wakeAt := n.wakeAt)
  {
  }

  /** Completing leaves in these fields what leaving the queue, the timers and the maps left. */
  lemma CompleteFields(s: Out, r: nat, status: Status)
    ensures var n := Complete(s, r, status);
            var gone := Leave(s, r, status);
            && n.queue == gone.queue && n.progress == gone.progress && n.byOperation == gone.byOperation
            && n.pendingData == gone.pendingData && n.responses == gone.responses
            && n.results == gone.results.Put(Get(s, r).key, status)
  {
    hide Leave, RetainCompleted, HasEligible;
    RetainShape(Leave(s, r, status), Get(s, r).key);
  }

  lemma CancelledMaps(s: Out, op: OpId)
    requires Cancellable(s, op).Some?
    requires var r := Cancellable(s, op).value;
             Get(s, r).key == op && ForgetData(s.pendingData, Get(s, r).message, r).m == s.pendingData.m - {op}
    ensures var n := Cancel(s, op);
            && n.results == s.results.Put(op, Failed)
            && OnlyForgets(s.byOperation.m, n.byOperation.m, op) && OnlyForgets(s.pendingData.m, n.pendingData.m, op)
            && OnlyForgets(s.responses.m, n.responses.m, op)
  {
    hide Without, Complete, ForgetData, Quiet;
    CompleteFields(s, Cancellable(s, op).value, Failed);
  }

  lemma CancelledRest(s: Out, r: nat)
    ensures var n := Complete(s, r, Failed);
            && n.queue == Without(s.queue, r) && |n.progress| == |s.progress|
            && (forall x :: 0 <= x < |s.progress| && x != r ==> n.progress[x] == s.progress[x])
  {
    hide Without, Complete, ForgetData;
    CompleteFields(s, r, Failed);
  }

  // ----- a receipt and the report that rides along ----------------------------------------------------

  /** After a failed pair the receipt is queued again, and the report has a retry timer unless it is no longer wanted. */
  lemma PairFailedOutcome(s: Out)
    requires Inv(s) && s.sending.Some? && s.sending.value.report.Some? && !s.stopped
    ensures var t := s.sending.value;
            var n := PumpEnds(s, false);
            && t.ref in n.queue && At(n, t.ref).pending == [0]
            && (Get(s, t.report.value).key in s.byOperation.m ==>
                  At(n, t.report.value).retry == ResumeRetry && At(n, t.report.value).pending == [0])
            && n.sending.None? && (s.paused || n.requested)
  {
    hide WithinLimits, Awake, ReservedOk, MapsOk, SendingFenced, LockHeld, NoneForgotten, TimersOk, ExpiriesOk, WakeOk, StoppedOk, QueueOk;
    var t := s.sending.value;
    var n := PairFailed(s, t);
    assert t.ref < |s.progress| && t.report.value < |s.progress| && t.ref != t.report.value;
    assert n.queue == s.queue + [t.ref] && n.queue[|s.queue|] == t.ref;
    ReceiptMayGo(s, n);
  }

  lemma ReceiptMayGo(s: Out, n: Out)
    requires s.sending.Some? && s.sending.value.ref in n.queue && n.heap == s.heap
    requires !Get(s, s.sending.value.ref).IsObject()
    ensures HasEligible(n.(sending := None))
  {
    assert MayGo(n.heap, n.lock, s.sending.value.ref);
  }

  // ----- callers turned away for want of identities ----------------------------------------------------

  /**
    Whoever was turned away because too many identities are held is woken no later than the first of them expires, and
    by then at least that one is forgotten.
    */
  lemma WakeOutcome(s: Out)
    requires Inv(s)
    ensures s.blocked && s.expiries != [] ==> s.wakeAt.Some? && s.wakeAt.value <= s.expiries[0].at
    ensures s.wakeAt.Some? ==> !WakeFires(s).blocked && WakeFires(s).wakeAt.None?
    ensures s.wakeAt.Some? ==>
              forall k :: k in WakeFires(s).committed.m <==>
                k in s.committed.m && !(s.committed.m[k].Some? && s.committed.m[k].value <= s.now)
  {
    hide HeapOk, ProgressOk, ReservedOk, MapsOk, QueueOk, SendingShape, SendingFenced, LockHeld, NoneForgotten, TimersOk, FlagsOk;
    hide WithinLimits, Awake, StoppedOk, Remembered, Unexpired;
    if s.wakeAt.Some? {
      PruneExact(s.committed, s.expiries, s.now);
    }
  }

  // ----- announcements and expired deliveries ----------------------------------------------------------

  /** An announcement is queued only after this node's own fence stands at what is announced. */
  lemma AnnounceOutcome(l: Link, source: Node, generation: nat, session: string, admits: bool, frames: nat)
    requires LinkInv(l)
    ensures var n := Announce(l, source, generation, session, admits, frames);
            |n.out.heap| > |l.out.heap| ==>
              && source in n.fences.m && n.fences.m[source] == Fence(generation, session)
              && PassesFence(l.fences, source, generation, session)
              && n.out.heap[|l.out.heap|].message == Control(SourceActive(source, generation, session))
              && |l.out.heap| in n.out.queue && n.out.heap[|l.out.heap|].dest.None?
  {
    hide Inv, InboundInv, PassesFence, KeepUnfenced, Submit;
    if l.out.cfg.node.role.Gateway? && source.role.Asset? && generation > 0 {
      var (n, ok) := ActivateFence(l, source, generation, session, admits);
      assert n.out == l.out;
      SubmitOutcome(n.out, Control(SourceActive(source, generation, session)), None, Activation(source.id, generation), false,
                    |n.pending.m|, frames);
    }
  }

  /** An expired delivery is remembered as rejected, unless a result was on record already, which stays. */
  lemma ExpiryOutcome(l: Link, id: SettlementId, frames: nat)
    requires LinkInv(l) && id in l.pending.m
    ensures var n := PendingExpires(l, id, frames);
            var recorded := Lookup(PruneSettled(l.settled, l.out.now), id);
            && id !in n.pending.m
            && Lookup(n.settled, id) ==
               if recorded.Some? then recorded else Some(Settled(id, false, l.out.now + RETENTION_MS, None))
  {
    hide Inv, InboundInv, SendControl, PruneSettled, Lookup;
    var p := l.pending.m[id];
    var replied := Reply(l, p.source, Rejected(p.op, p.msgId), frames);
    ReplyKeeps(l, p.source, Rejected(p.op, p.msgId), frames);
    SendControlOnly(l.out, Rejected(p.op, p.msgId), p.source, true, |l.pending.m|, frames);
    FirstResultStays(replied, id, false, None, id);
  }
}
