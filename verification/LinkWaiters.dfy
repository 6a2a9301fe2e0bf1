/** Who waits for a pause to take effect is woken, except by a pause that cancels the pump meant to do it (transport.ts). */
module LinkWaiters {
  import opened Wrappers
  import opened LinkTypes
  import opened LinkOutbound
  import opened LinkReassembly
  import opened LinkInbound
  import opened LinkOutboundInvariants
  import opened LinkLifecycle
  import opened LinkInboundInvariants
  import opened LinkMessages
  import opened LinkOnce
  import opened LinkRuns

  /** Whoever waits for a pause to take effect will be woken by a running or requested pump. */
  predicate WaitersServed(s: Out) { s.waiters > 0 ==> s.sending.Some? || s.requested }

  /** A pause strands earlier waiters if and only if it cancels the pump they were to be woken by. */
  lemma PauseServes(s: Out)
    requires FlagsOk(s.requested, s.sending, s.paused, s.stopped) && WaitersServed(s)
    ensures WaitersServed(Pause(s)) <==> s.stopped || s.waiters == 0 || !s.requested
  {
  }

  // ----- steps that leave the pump alone --------------------------------------------------------------

  /** The same callers wait for the same transmission, and no request for a pump is lost. */
  predicate Steady(s: Out, n: Out) {
    n.waiters == s.waiters && n.sending == s.sending && (s.requested ==> n.requested)
  }

  lemma SubmitPreparedSteady(s: Out, op: OpId, p: Prepared)
    ensures Steady(s, SubmitPrepared(s, op, p).0)
  {
    hide Replaceable, RemoveFrom, PutIf, ResultsAfter;
  }

  lemma AdmitSteady(s: Out, m: Message, dest: Option<Node>, op: OpId, useReservation: bool, capacity: Capacity,
                    sequence: nat, held: Option<Reservation>, pendingInbound: nat, frames: nat)
    ensures Steady(s, Admit(s, m, dest, op, useReservation, capacity, sequence, held, pendingInbound, frames).0)
  {
    hide QueueFull, Awaiting, NeedsConfirmation;
  }

  lemma PrepareSteady(s: Out, m: Message, dest: Option<Node>, op: OpId, useReservation: bool, capacity: Capacity,
                      sequence: nat, held: Option<Reservation>, pendingInbound: nat, frames: nat)
    ensures Steady(s, Prepare(s, m, dest, op, useReservation, capacity, sequence, held, pendingInbound, frames).0)
  {
    hide Admit, Remembered, Unexpired, NeedsConfirmation, ValidStateSource;
    AdmitSteady(Prune(s), m, dest, op, useReservation, capacity, sequence, held, pendingInbound, frames);
  }

  lemma SubmitSteady(s: Out, m: Message, dest: Option<Node>, op: OpId, useReservation: bool, pendingInbound: nat, frames: nat)
    ensures Steady(s, Submit(s, m, dest, op, useReservation, pendingInbound, frames).0)
  {
    hide Prepare, SubmitPrepared;
    var (n, p) := Prepare(s, m, dest, op, useReservation, DefaultCapacity(m), s.sequence + 1, None, pendingInbound, frames);
    PrepareSteady(s, m, dest, op, useReservation, DefaultCapacity(m), s.sequence + 1, None, pendingInbound, frames);
    SubmitPreparedSteady(n, op, p);
  }

  lemma SendControlSteady(s: Out, c: ControlKind, dest: Node, useReservation: bool, pendingInbound: nat, frames: nat)
    ensures Steady(s, SendControl(s, c, dest, useReservation, pendingInbound, frames).0)
  {
    hide Submit;
    SubmitSteady(s.(nextId := s.nextId + 1), Control(c), Some(dest), Drawn(s.nextId), useReservation, pendingInbound, frames);
  }

  lemma CommitSteady(s: Out, o: Outbound, order: nat, replacesFailed: bool)
    ensures Steady(s, Commit(s, o, order, replacesFailed))
  {
    hide Replaceable, RemoveFrom, PutIf, ResultsAfter;
  }

  lemma RequestSteady(s: Out)
    ensures Steady(s, RequestPump(s))
  {
  }

  lemma TogetherSteady(s: Out, receipt: ControlKind, report: Message, dest: Node, op: OpId, pendingInbound: nat,
                       receiptFrames: nat, reportFrames: nat)
    ensures Steady(s, SendReceiptAndReport(s, receipt, report, dest, op, pendingInbound, receiptFrames, reportFrames).0)
  {
    hide Prepare, Commit, RequestPump, Replaceable, RemoveFrom, PutIf, ResultsAfter;
    var key := Drawn(s.nextId);
    var named := s.(nextId := s.nextId + 1);
    PrepareSteady(named, Control(receipt), Some(dest), key, false, RECEIPT_CAPACITY, s.sequence + 1, None, pendingInbound,
                  receiptFrames);
    var (a, first) := Prepare(named, Control(receipt), Some(dest), key, false, RECEIPT_CAPACITY, s.sequence + 1, None,
                              pendingInbound, receiptFrames);
    PrepareSteady(a, report, Some(dest), op, false, REPORT_CAPACITY, s.sequence + 2, None, pendingInbound, reportFrames);
    if first.Ready? {
      var (b, second) := Prepare(a, report, Some(dest), op, false, REPORT_CAPACITY, s.sequence + 2, None, pendingInbound,
                                 reportFrames);
      CommitSteady(b, first.outbound, first.order, first.replacesFailed);
      if second.Ready? {
        var one := Commit(b, first.outbound, first.order, first.replacesFailed);
        CommitSteady(one, second.outbound, second.order, second.replacesFailed);
        var both := Commit(one, second.outbound, second.order, second.replacesFailed);
        RequestSteady(Record(Record(both, key, Queued), op, Queued));
      }
    }
  }

  lemma AnsweredSteady(s: Out, r: nat, request: OpId)
    ensures Steady(s, CompleteWithResponse(s, r, request))
  {
    hide Without;
  }

  lemma RequeueSteady(s: Out, r: nat)
    ensures Steady(s, Requeue(s, r))
  {
    hide Without;
  }

  lemma CompleteSteady(s: Out, r: nat, status: Status)
    ensures Steady(s, Complete(s, r, status))
  {
    hide Without, HasEligible, ForgetData;
  }

  lemma ApplyAnswerSteady(s: Out, r: nat, c: ControlKind)
    ensures Steady(s, ApplyAnswer(s, r, c))
  {
    hide Without, Complete, Requeue, Present;
    CompleteSteady(s, r, ConfirmedStatus);
    CompleteSteady(s, r, RejectedStatus);
    match c
    case MissingChunks(_, _, chunks) =>
      var missing := Present(Get(s, r).frames, chunks);
      RequeueSteady(Move(s, r, At(s, r).(pending := missing, retry := NoRetry)), r);
    case _ =>
  }

  lemma CallsSteady(s: Out, m: Message, to: Node, op: OpId, frames: nat)
    ensures Steady(s, CancelReservation(s, op)) && Steady(s, Resume(s)) && Steady(s, WakeFires(s))
    ensures Steady(s, Reserve(s, m, to, op, frames).0)
  {
    hide Remembered, Unexpired, AnyMayGo;
  }

  lemma CancelSteady(s: Out, op: OpId, r: nat)
    ensures Steady(s, Cancel(s, op)) && Steady(s, DeadlineFires(s, r))
  {
    hide Complete, Tracked;
    CompleteSteady(s, r, Failed);
    if Cancellable(s, op).Some? { CompleteSteady(s, Cancellable(s, op).value, Failed); }
  }

  lemma RetrySteady(s: Out, r: nat)
    ensures Steady(s, RetryFires(s, r))
  {
    hide Requeue, Tracked;
    var p := At(s, r);
    var chunks := if p.retry.FullRetry? then AllChunks(Get(s, r).frames) else p.pending;
    RequeueSteady(Move(s, r, p.(retry := NoRetry, pending := chunks, order := s.nextOrder)).(nextOrder := s.nextOrder + 1), r);
  }

  lemma DispatchSteady(s: Out, op: OpId, pendingInbound: nat, frames: nat)
    ensures Steady(s, DispatchReserved(s, op, pendingInbound, frames).0)
  {
    hide Prepare, SubmitPrepared;
    if op in s.reserved.m {
      var held := s.reserved.m[op];
      var capacity := DefaultCapacity(held.message);
      PrepareSteady(s, held.message, Some(held.dest), op, false, capacity, held.sequence, Some(held), pendingInbound, frames);
      var (n, p) := Prepare(s, held.message, Some(held.dest), op, false, capacity, held.sequence, Some(held), pendingInbound,
                            frames);
      SubmitPreparedSteady(n, op, p);
    }
  }

  // ----- the pump -------------------------------------------------------------------------------------

  lemma FinishServes(s: Out)
    ensures WaitersServed(FinishPump(s))
  {
    hide AnyMayGo;
  }

  lemma PumpServes(s: Out, fits: nat -> bool)
    ensures WaitersServed(PumpFires(s, fits))
    ensures s.sending.Some? ==> forall sent: bool :: WaitersServed(PumpEnds(s, sent))
  {
    hide FinishPump, Best, FirstObject, Without, ReceiptPair, AfterAllChunks, FinishPair, PairFailed, FailBestEffort, Defer;
    var scanned := ScanLock(s.(requested := false));
    FinishServes(scanned);
    var pick := Best(scanned, scanned.queue);
    if pick.Some? { FinishServes(ReleaseLock(Dequeue(scanned, pick.value), pick.value)); }
    forall sent: bool | s.sending.Some? ensures WaitersServed(PumpEnds(s, sent)) {
      forall n: Out ensures WaitersServed(FinishPump(n)) { FinishServes(n); }
    }
  }

  // ----- the receiving side ---------------------------------------------------------------------------

  lemma AnswerToSteady(s: Out, from: Node, op: OpId, msgId: nat, c: ControlKind)
    ensures Steady(s, AnswerTo(s, from, op, msgId, c))
  {
    hide ApplyAnswer;
    var found := FoundAnswer(s, from, op, msgId);
    if found.Some? { ApplyAnswerSteady(s, found.value, c); }
  }

  lemma HandleControlSteady(l: Link, c: ControlKind, from: Node, dest: Option<Node>, env: Env)
    ensures Steady(l.out, HandleControl(l, c, from, dest, env).out)
  {
    hide AnswerTo, ActivateFence;
    match c
    case SourceActive(source, generation, session) => ActivateShape(l, source, generation, session, env.admits(source));
    case _ => AnswerToSteady(l.out, from, c.op, c.msgId, c);
  }

  lemma RefuseSteady(l: Link, i: Identity, frames: nat)
    ensures Steady(l.out, Refuse(l, i, frames).out)
  {
    hide SendControl, RecordSettled;
    var r := RecordSettled(l, IdOf(i), false, None);
    RecordShape(l, IdOf(i), false, None);
    SendControlSteady(r.out, Rejected(i.op, i.msgId), i.source, true, |r.pending.m|, frames);
  }

  lemma DeliverSteady(l: Link, i: Identity, m: Message, order: Order, env: Env)
    ensures Steady(l.out, Deliver(l, i, m, order, env).out)
  {
    hide SendControl, Refuse, CompleteWithResponse, Matching, NoRoom, Lookup, PruneSettled, NeedsConfirmation;
    var settles := Settles(l, i, m);
    var p := if settles then l.(settled := PruneSettled(l.settled, l.out.now)) else l;
    var known := Lookup(p.settled, IdOf(i));
    if known.Some? {
      SendControlSteady(p.out, Answer(known.value.confirmed, i.op, i.msgId), i.source, true, |p.pending.m|, env.frames);
    }
    RefuseSteady(p, i, env.frames);
    var a := AwaitSettlement(p, i, m);
    var r := Matching(a.out, i, m, env);
    if r.Some? && RequestOf(m).Some? { AnsweredSteady(a.out, r.value, RequestOf(m).value); }
    MatchingRequest(a.out, i, m, env);
  }

  lemma ScreenSteady(l: Link, i: Identity, m: Message, env: Env)
    ensures Steady(l.out, Screen(l, i, m, env).out)
  {
    hide Refuse, Deliver, AcceptDelivery, NeedsConfirmation, Misdirected;
    var (n, order) := AcceptDelivery(l, i, m);
    AcceptShape(l, i, m);
    RefuseSteady(l, i, env.frames);
    RefuseSteady(n, i, env.frames);
    DeliverSteady(n, i, m, order, env);
  }

  lemma HandleCompleteSteady(l: Link, i: Identity, decoded: Option<Message>, env: Env)
    ensures Steady(l.out, HandleComplete(l, i, decoded, env).out)
  {
    hide ActivateFence, HandleControl, Screen, NeedsConfirmation, ValidStateSource;
    if decoded.Some? {
      var m := decoded.value;
      var (n, ok) := ActivateFence(l, i.source, i.generation, i.session, env.admits(i.source));
      ActivateShape(l, i.source, i.generation, i.session, env.admits(i.source));
      if m.Control? { HandleControlSteady(n, m.control, i.source, i.dest, env); }
      if i.receipt.Some? {
        HandleControlSteady(n, Confirmed(i.receipt.value.op, i.receipt.value.msgId), i.source, i.dest, env);
      }
      ScreenSteady(if m.TaskReport? then CompoundReceipt(n, i, env) else n, i, m, env);
    }
  }

  lemma ReceiveSteady(l: Link, f: Frame, receivedAt: nat, env: Env)
    ensures Steady(l.out, Receive(l, f, receivedAt, env).out)
  {
    hide HandleComplete, Collect, ExpectsContent, PassesFence, PruneSettled;
    var i := f.identity;
    var p := if i.kind.ContentKind? && Addressed(l, i) then l.(settled := PruneSettled(l.settled, l.out.now)) else l;
    var (partial, done) := Collect(p.partial, p.out.cfg.reassemblyLimit, f, receivedAt, p.out.now + DeadlineMs(i.priority));
    if done.Some? {
      HandleCompleteSteady(p.(partial := partial), done.value.0, env.decode(done.value.1), env);
    }
  }

  lemma SettleSteady(l: Link, id: SettlementId, confirmed: bool, frames: nat)
    ensures Steady(l.out, Settle(l, id, confirmed, frames).0.out) && Steady(l.out, PendingExpires(l, id, frames).out)
  {
    hide SendControl, PruneSettled, Lookup;
    if id in l.pending.m {
      var p := l.pending.m[id];
      SendControlSteady(l.out, Answer(confirmed, p.op, p.msgId), p.source, true, |l.pending.m|, frames);
      SendControlSteady(l.out, Rejected(p.op, p.msgId), p.source, true, |l.pending.m|, frames);
    }
  }

  lemma TimeoutSteady(l: Link, key: Key, frames: nat)
    ensures Steady(l.out, ReassemblyExpires(l, key, frames).out)
  {
    hide SendControl, RemoveAt, RepairInterval, MissingFrom;
    var at := Find(l.partial, key);
    if at.Some? {
      var r := l.partial[at.value];
      SendControlSteady(l.out, MissingChunks(r.identity.op, r.identity.msgId, MissingFrom(r.chunks, r.count)),
                        r.identity.source, false, |l.pending.m|, frames);
    }
  }

  lemma SettleTaskSteady(l: Link, id: SettlementId, report: Message, dest: Node, op: OpId, receiptFrames: nat,
                         reportFrames: nat)
    ensures Steady(l.out, SettleWithReport(l, id, report, dest, op, receiptFrames, reportFrames).0.out)
  {
    hide PruneSettled, Lookup, SendReceiptAndReport, MarkAtomic;
    var p := l.(settled := PruneSettled(l.settled, l.out.now));
    if id in p.pending.m {
      var held := p.pending.m[id];
      TogetherSteady(p.out, Confirmed(held.op, held.msgId), report, dest, op, |p.pending.m|, receiptFrames, reportFrames);
    }
  }

  lemma AnnounceSteady(l: Link, source: Node, generation: nat, session: string, admits: bool, frames: nat)
    ensures Steady(l.out, Announce(l, source, generation, session, admits, frames).out)
  {
    hide ActivateFence, Submit;
    var (n, ok) := ActivateFence(l, source, generation, session, admits);
    ActivateShape(l, source, generation, session, admits);
    SubmitSteady(n.out, Control(SourceActive(source, generation, session)), None, Activation(source.id, generation), false,
                 |n.pending.m|, frames);
  }

  lemma {:induction false} FailAllWaiters(s: Out, refs: seq<nat>)
    ensures FailAll(s, refs).sending == s.sending && FailAll(s, refs).waiters == s.waiters
    decreases |refs|
  {
    hide Complete, Without, NeedsConfirmation;
    if refs != [] {
      var earlier := FailAll(s, refs[..|refs| - 1]);
      FailAllWaiters(s, refs[..|refs| - 1]);
      CompleteSteady(earlier, refs[|refs| - 1], Failed);
    }
  }

  // ----- all steps ------------------------------------------------------------------------------------

  /** A pause while earlier callers wait for a pump that has been requested but has not begun. */
  predicate Strands(l: Link, step: Step) {
    step == Sending(DoPause) && !l.out.stopped && l.out.waiters > 0 && l.out.requested
  }

  lemma OutNextServes(s: Out, pendingInbound: nat, step: OutStep)
    requires !step.DoPause? && WaitersServed(s)
    ensures WaitersServed(OutNext(s, pendingInbound, step))
  {
    hide Submit, Reserve, DispatchReserved, CancelReservation, PumpFires, PumpEnds, RetryFires, DeadlineFires, WakeFires, Cancel, Resume;
    match step
    case DoSubmit(m, dest, op, frames) => SubmitSteady(s, m, dest, op, false, pendingInbound, frames);
    case DoReserve(m, to, op, frames) => CallsSteady(s, m, to, op, frames);
    case DoDispatch(op, frames) => DispatchSteady(s, op, pendingInbound, frames);
    case DoCancelReservation(op) => CallsSteady(s, Subscription(true), s.cfg.node, op, 0);
    case DoPumpBegin(fits) => PumpServes(s, fits);
    case DoPumpEnd(sent) => PumpServes(s, _ => false);
    case DoRetry(r) => RetrySteady(s, r);
    case DoDeadline(r) => CancelSteady(s, Named(""), r);
    case DoWake => CallsSteady(s, Subscription(true), s.cfg.node, Named(""), 0);
    case DoCancel(op) => CancelSteady(s, op, 0);
    case DoResume => CallsSteady(s, Subscription(true), s.cfg.node, Named(""), 0);
  }

  /** Of all steps, exactly a pause that cancels the pump they wait for strands earlier waiters. */
  lemma OnlyPauseStrands(l: Link, step: Step)
    requires LinkInv(l) && WaitersServed(l.out)
    ensures WaitersServed(Next(l, step).out) <==> !Strands(l, step)
  {
    hide LinkInv, OutNext, Receive, ReassemblyExpires, Settle, SettleWithReport, PendingExpires, Announce, Stop;
    if step == Sending(DoPause) {
      FlagsNow(l);
      PauseServes(l.out);
      assert OutNext(l.out, |l.pending.m|, DoPause) == Pause(l.out) by { PauseStep(l.out, |l.pending.m|); }
    } else {
      match step
      case Sending(s) => OutNextServes(l.out, |l.pending.m|, s);
      case Tick(_) =>
      case ReceiveFrame(frame, receivedAt, env) => ReceiveSteady(l, frame, receivedAt, env);
      case ReassemblyTimeout(key, frames) => TimeoutSteady(l, key, frames);
      case SettleDelivery(id, accepted, frames) => SettleSteady(l, id, accepted, frames);
      case SettleTask(id, report, dest, op, receiptFrames, reportFrames) =>
        SettleTaskSteady(l, id, report, dest, op, receiptFrames, reportFrames);
      case PendingTimeout(id, frames) => SettleSteady(l, id, false, frames);
      case AnnounceSource(source, generation, session, admits, frames) =>
        AnnounceSteady(l, source, generation, session, admits, frames);
      case StopService(refs) => StopServes(l.out, refs);
    }
  }

  lemma PauseStep(s: Out, pendingInbound: nat)
    ensures OutNext(s, pendingInbound, DoPause) == Pause(s)
  {
  }

  lemma StopServes(s: Out, refs: seq<nat>)
    requires WaitersServed(s)
    ensures WaitersServed(Stop(s, refs))
  {
    hide FailAll;
    FailAllWaiters(Closing(s), refs);
  }

  lemma FlagsNow(l: Link)
    requires LinkInv(l)
    ensures FlagsOk(l.out.requested, l.out.sending, l.out.paused, l.out.stopped)
  {
    hide InboundInv, WithinLimits, Awake, StoppedOk;
  }

  /** Over a whole run the waiters are served for as long as no such pause has been made. */
  lemma {:induction false} WaitersServedUntil(l: Link, steps: seq<Step>)
    requires Initial(l) && Feasible(l, steps)
    requires forall k :: 0 <= k < |steps| ==> !Strands(Run(l, steps[..k]), steps[k])
    ensures WaitersServed(Run(l, steps).out)
    decreases |steps|
  {
    hide LinkInv, Next, Enabled, Strands;
    if steps != [] {
      var n := |steps| - 1;
      var before := steps[..n];
      forall k | 0 <= k < |before| ensures !Strands(Run(l, before[..k]), before[k]) {
        assert before[..k] == steps[..k];
      }
      WaitersServedUntil(l, before);
      RunKeeps(l, before);
      OnlyPauseStrands(Run(l, before), steps[n]);
    }
  }
}
