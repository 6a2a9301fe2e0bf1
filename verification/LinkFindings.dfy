/** Where the transport falls short of what one might expect of it, and exactly when. */
module LinkFindings {
  import opened Wrappers
  import opened LinkTypes
  import opened LinkOutbound
  import opened LinkReassembly
  import opened LinkInbound
  import opened LinkOutboundInvariants
  import opened LinkSubmission
  import opened LinkLifecycle
  import opened LinkInboundInvariants
  import opened LinkMessages
  import opened LinkOutcomes
  import opened LinkOnce
  import opened LinkRuns

  // ----- the answer to a later copy -----------------------------------------------------------------

  /** The checks made before the settlement history is consulted turn the copy away. */
  predicate TurnedAway(l: Link, i: Identity, m: Message, env: Env) {
    Misdirected(l, i, m, env) || AcceptDelivery(l, i, m).1.StaleDelivery?
  }

  /** The result of the identity that is on record and has not expired. */
  function OnRecord(l: Link, id: SettlementId): Option<Settled> { Lookup(PruneSettled(l.settled, l.out.now), id) }

  /** Past decoding and the fence: the history answers, unless the earlier checks refuse. */
  lemma ScreenedCopy(l: Link, i: Identity, m: Message, env: Env, recorded: Settled)
    requires Settles(l, i, m) && OnRecord(l, IdOf(i)) == Some(recorded)
    ensures var n := Screen(l, i, m, env);
            var answer := Answer(recorded.confirmed && !TurnedAway(l, i, m, env), i.op, i.msgId);
            && n.out == SendControl(l.out, answer, i.source, true, |l.pending.m|, env.frames).0
            && n.events == l.events && n.pending == l.pending && n.settled == PruneSettled(l.settled, l.out.now)
  {
    hide SendControl, Lookup, NeedsConfirmation, Misdirected, PruneSettled;
    PruneTwice(l.settled, l.out.now);
  }

  /** The message is decoded, agrees with its frame, may come from its source, and its fence lets it through. */
  predicate Heard(l: Link, i: Identity, decoded: Option<Message>, env: Env) {
    && decoded.Some? && KindOf(decoded.value) == i.kind && MessagePriority(decoded.value) == i.priority
    && ValidStateSource(decoded.value, i.source)
    && ActivateFence(l, i.source, i.generation, i.session, env.admits(i.source)).1
  }

  /** The transport once the source stands at its fence and the receipt that rides on a report has been taken in. */
  ghost function Received(l: Link, i: Identity, m: Message, env: Env): Link {
    var n := ActivateFence(l, i.source, i.generation, i.session, env.admits(i.source)).0;
    if m.TaskReport? then CompoundReceipt(n, i, env) else n
  }

  /** The identity an answer would get is free. */
  predicate Unused(s: Out, op: OpId) {
    op !in s.reserved.m && (op in s.results.m ==> s.results.m[op] == Failed) && op !in Prune(s).committed.m
  }

  /** An answer can be queued: the service runs, the answer can be framed, and there is a place and an identity for it. */
  predicate AnswerFits(s: Out, frames: nat) {
    && !s.stopped && frames > 0 && |Occupied(s)| < s.cfg.queueLimit + s.cfg.confirmedLimit && Unused(s, Drawn(s.nextId))
  }

  /** One more message is queued: the control message to that node. */
  ghost predicate Queues(s: Out, n: Out, c: ControlKind, to: Node) {
    && |n.heap| == |s.heap| + 1 && n.heap[..|s.heap|] == s.heap && |s.heap| in n.queue
    && n.heap[|s.heap|].message == Control(c) && n.heap[|s.heap|].dest == Some(to)
  }

  /** A control message is queued exactly if it fits, and otherwise no message is. */
  lemma AnswerQueued(s: Out, c: ControlKind, to: Node, pendingInbound: nat, frames: nat)
    requires Inv(s)
    ensures var n := SendControl(s, c, to, true, pendingInbound, frames).0;
            if AnswerFits(s, frames) then Queues(s, n, c, to) else n.heap == s.heap && n.queue == s.queue
  {
    hide Inv, Submit, Prune, OccupiedBy;
    var named := s.(nextId := s.nextId + 1);
    NextIdKeeps(s);
    SubmitOutcome(named, Control(c), Some(to), Drawn(s.nextId), true, pendingInbound, frames);
    PrunedNamed(s);
    SubmitsExactly(named, c, to, Drawn(s.nextId), pendingInbound, frames);
  }

  lemma PrunedNamed(s: Out)
    ensures Prune(s.(nextId := s.nextId + 1)).committed == Prune(s).committed
  {
    hide Remembered, Unexpired;
  }

  lemma SubmitsExactly(s: Out, c: ControlKind, to: Node, op: OpId, pendingInbound: nat, frames: nat)
    ensures |Submit(s, Control(c), Some(to), op, true, pendingInbound, frames).0.heap| > |s.heap| <==>
            && !s.stopped && frames > 0 && |Occupied(s)| < s.cfg.queueLimit + s.cfg.confirmedLimit && Unused(s, op)
  {
    hide Prune, Admit, OccupiedBy, Commit, RequestPump, Unused;
    PruneFields(s);
    ControlAdmitted(s, Prune(s), c, to, op, pendingInbound, frames);
    var (p, prepared) := Prepare(s, Control(c), Some(to), op, true, DefaultCapacity(Control(c)), s.sequence + 1, None,
                                 pendingInbound, frames);
    if prepared.Ready? {
      CommittedHeap(p, prepared.outbound, prepared.order, prepared.replacesFailed, op);
    }
  }

  lemma ControlAdmitted(s: Out, p: Out, c: ControlKind, to: Node, op: OpId, pendingInbound: nat, frames: nat)
    requires p == Prune(s) && p == s.(expiries := p.expiries, committed := p.committed)
    ensures var (n, prepared) := Admit(p, Control(c), Some(to), op, true, DefaultCapacity(Control(c)), s.sequence + 1, None,
                                       pendingInbound, frames);
            && n.heap == s.heap
            && (prepared.Ready? <==>
                  frames > 0 && |Occupied(s)| < s.cfg.queueLimit + s.cfg.confirmedLimit && Unused(s, op))
  {
    hide Prune, OccupiedBy, ScheduleWake, Replaceable, Awaiting;
  }

  lemma CommittedHeap(s: Out, o: Outbound, order: nat, replacesFailed: bool, op: OpId)
    ensures |RequestPump(Record(Commit(s, o, order, replacesFailed), op, Queued)).heap| == |s.heap| + 1
  {
    hide Replaceable, RemoveFrom, PutIf, ResultsAfter;
  }

  /** Taking in a message's source and receipt queues nothing new and leaves history and deliveries alone. */
  lemma ReceivedShape(l: Link, i: Identity, m: Message, env: Env)
    requires LinkInv(l) && !l.out.stopped
    ensures var b := Received(l, i, m, env);
            && LinkInv(b) && b.settled == l.settled && b.pending == l.pending && b.events == l.events
            && b.deliveries == l.deliveries && OutOnly(l.out, b.out) && b.out.heap == l.out.heap
  {
    hide LinkInv, ActivateFence, CompoundReceipt;
    ActivateKeeps(l, i.source, i.generation, i.session, env.admits(i.source));
    ActivateShape(l, i.source, i.generation, i.session, env.admits(i.source));
    var n := ActivateFence(l, i.source, i.generation, i.session, env.admits(i.source)).0;
    CompoundKeeps(n, i, env);
    CompoundOut(n, i, env);
  }

  lemma CompoundOut(l: Link, i: Identity, env: Env)
    requires LinkInv(l) && !l.out.stopped
    ensures OutOnly(l.out, CompoundReceipt(l, i, env).out) && CompoundReceipt(l, i, env).out.heap == l.out.heap
  {
    hide LinkInv, AnswerTo;
    if i.receipt.Some? {
      var c := Confirmed(i.receipt.value.op, i.receipt.value.msgId);
      AnswerHeap(l.out, i.source, c.op, c.msgId, c);
    }
  }

  lemma AnswerHeap(s: Out, from: Node, op: OpId, msgId: nat, c: ControlKind)
    requires c.Confirmed?
    ensures OutOnly(s, AnswerTo(s, from, op, msgId, c)) && AnswerTo(s, from, op, msgId, c).heap == s.heap
  {
    hide Complete, FoundAnswer, Without;
    var found := FoundAnswer(s, from, op, msgId);
    if found.Some? {
      CompleteResult(s, found.value, ConfirmedStatus);
      CompleteOnly(s, found.value, ConfirmedStatus);
    }
  }

  /** The checks before the history depend on nothing that taking in source and receipt changes. */
  lemma SameChecks(l: Link, b: Link, i: Identity, m: Message, env: Env)
    requires b.deliveries == l.deliveries && b.out.cfg == l.out.cfg
    ensures TurnedAway(b, i, m, env) == TurnedAway(l, i, m, env) && Settles(b, i, m) == Settles(l, i, m)
  {
    hide FindDelivery;
  }

  /** The copy was answered: its result, as recorded, is on the way to its sender. */
  ghost predicate AnsweredAs(l: Link, n: Link, i: Identity, confirmed: bool) {
    Queues(l.out, n.out, Answer(confirmed, i.op, i.msgId), i.source)
  }

  /**
    A complete later copy of a settled delivery raises no event and leaves the recorded result.  It is answered with
    that result if and only if it is heard, the result is a rejection or no earlier check turns the copy away, and the
    answer fits; it is answered with a rejection instead of the recorded confirmation exactly when such a check does and
    the answer fits; and otherwise nothing is queued.
    */
  lemma LaterCopyAnswer(l: Link, i: Identity, decoded: Option<Message>, env: Env, recorded: Settled)
    requires LinkInv(l) && !l.out.stopped && OnRecord(l, IdOf(i)) == Some(recorded)
    requires decoded.Some? ==> Settles(l, i, decoded.value)
    ensures var n := HandleComplete(l, i, decoded, env);
            n.events == l.events && n.pending == l.pending && OnRecord(n, IdOf(i)) == Some(recorded)
    ensures AnsweredAs(l, HandleComplete(l, i, decoded, env), i, recorded.confirmed) <==>
            && Heard(l, i, decoded, env) && (!recorded.confirmed || !TurnedAway(l, i, decoded.value, env))
            && AnswerFits(Received(l, i, decoded.value, env).out, env.frames)
    ensures AnsweredAs(l, HandleComplete(l, i, decoded, env), i, !recorded.confirmed) <==>
            && Heard(l, i, decoded, env) && recorded.confirmed && TurnedAway(l, i, decoded.value, env)
            && AnswerFits(Received(l, i, decoded.value, env).out, env.frames)
    ensures !(Heard(l, i, decoded, env) && AnswerFits(Received(l, i, decoded.value, env).out, env.frames)) ==>
              HandleComplete(l, i, decoded, env).out.heap == l.out.heap
  {
    hide LinkInv, ActivateFence, Received, Screen, TurnedAway, Settles, SendControl, PruneSettled, Lookup, AnswerFits, Queues;
    if Heard(l, i, decoded, env) {
      HeardCopy(l, i, decoded.value, env, recorded);
    } else {
      UnheardCopy(l, i, decoded, env);
      NothingQueued(l.out, Answer(true, i.op, i.msgId), i.source);
      NothingQueued(l.out, Answer(false, i.op, i.msgId), i.source);
    }
  }

  lemma NothingQueued(s: Out, c: ControlKind, to: Node)
    ensures forall n: Out :: n.heap == s.heap ==> !Queues(s, n, c, to)
  {
  }

  lemma UnheardCopy(l: Link, i: Identity, decoded: Option<Message>, env: Env)
    requires !Heard(l, i, decoded, env)
    ensures HandleComplete(l, i, decoded, env) == l
  {
    hide Screen, HandleControl, CompoundReceipt, PassesFence, KeepUnfenced;
  }

  lemma HeardCopy(l: Link, i: Identity, m: Message, env: Env, recorded: Settled)
    requires LinkInv(l) && !l.out.stopped && OnRecord(l, IdOf(i)) == Some(recorded) && Settles(l, i, m)
    requires Heard(l, i, Some(m), env)
    ensures var n := HandleComplete(l, i, Some(m), env);
            var b := Received(l, i, m, env);
            var confirmed := recorded.confirmed && !TurnedAway(l, i, m, env);
            && n.events == l.events && n.pending == l.pending && OnRecord(n, IdOf(i)) == Some(recorded)
            && (AnsweredAs(l, n, i, confirmed) <==> AnswerFits(b.out, env.frames)) && !AnsweredAs(l, n, i, !confirmed)
            && (!AnswerFits(b.out, env.frames) ==> n.out.heap == l.out.heap)
  {
    hide Inv, InboundInv, ActivateFence, CompoundReceipt, Screen, TurnedAway, SendControl, PruneSettled, Lookup, AnswerFits;
    hide NeedsConfirmation, ValidStateSource, MessagePriority, Addressed;
    var b := Received(l, i, m, env);
    var n := HandleComplete(l, i, Some(m), env);
    ReceivedShape(l, i, m, env);
    SameChecks(l, b, i, m, env);
    NoControl(l, i, m);
    assert n == Screen(b, i, m, env);
    ScreenedCopy(b, i, m, env, recorded);
    var answer := Answer(recorded.confirmed && !TurnedAway(l, i, m, env), i.op, i.msgId);
    AnswerQueued(b.out, answer, i.source, |b.pending.m|, env.frames);
    SendControlOnly(b.out, answer, i.source, true, |b.pending.m|, env.frames);
    PruneTwice(l.settled, l.out.now);
  }

  lemma NoControl(l: Link, i: Identity, m: Message)
    requires Settles(l, i, m)
    ensures !m.Control?
  {
  }

  // ----- the same for a frame ------------------------------------------------------------------------

  /** The message that a frame completes, as it will be handled, if the frame is let in and completes one. */
  function Arriving(l: Link, f: Frame, receivedAt: nat): (a: Option<(Link, Identity, Bytes)>)
    ensures a.Some? ==> a.value.0.out == l.out && a.value.0.fences == l.fences && a.value.0.pending == l.pending
                        && a.value.0.deliveries == l.deliveries && a.value.0.events == l.events
  {
    var i := f.identity;
    if l.out.stopped || i.source == l.out.cfg.node || !PassesFence(l.fences, i.source, i.generation, i.session) then None
    else if i.kind.ContentKind? && !ExpectsContent(l, i) then None
    else
      var p := if i.kind.ContentKind? && Addressed(l, i) then l.(settled := PruneSettled(l.settled, l.out.now)) else l;
      var (partial, done) := Collect(p.partial, p.out.cfg.reassemblyLimit, f, receivedAt, p.out.now + DeadlineMs(i.priority));
      if done.None? then None else Some((p.(partial := partial), done.value.0, done.value.1))
  }

  /**
    A frame that completes no message sends nothing.  A frame that completes a later copy of a settled delivery has it
    answered with the recorded result under exactly the conditions of `LaterCopyAnswer`.
    */
  lemma LaterCopyReceived(l: Link, f: Frame, receivedAt: nat, env: Env)
    requires LinkInv(l) && f.WellFormed()
    ensures Arriving(l, f, receivedAt).None? ==>
              Receive(l, f, receivedAt, env).out == l.out && Receive(l, f, receivedAt, env).events == l.events
    ensures Arriving(l, f, receivedAt).Some? ==>
              var (p, i, bytes) := Arriving(l, f, receivedAt).value;
              var n := Receive(l, f, receivedAt, env);
              && IdOf(i) == IdOf(f.identity) && OnRecord(p, IdOf(i)) == OnRecord(l, IdOf(i)) && LinkInv(p)
              && n == HandleComplete(p, i, env.decode(bytes), env)
              && (OnRecord(l, IdOf(i)).Some? && env.decode(bytes).Some? && Settles(l, i, env.decode(bytes).value) ==>
                    var recorded := OnRecord(l, IdOf(i)).value;
                    var m := env.decode(bytes).value;
                    && n.events == l.events && OnRecord(n, IdOf(i)) == Some(recorded)
                    && (AnsweredAs(l, n, i, recorded.confirmed) <==>
                          && Heard(p, i, Some(m), env) && (!recorded.confirmed || !TurnedAway(l, i, m, env))
                          && AnswerFits(Received(p, i, m, env).out, env.frames)))
  {
    hide Inv, InboundInv, HandleComplete, Collect, ExpectsContent, PassesFence, PruneSettled, Lookup, Heard, Received, TurnedAway;
    hide AnswerFits, Queues, Settles;
    PruneTwice(l.settled, l.out.now);
    PruneSettledKeeps(l);
    if Arriving(l, f, receivedAt).Some? {
      var (p, i, bytes) := Arriving(l, f, receivedAt).value;
      PartialKeeps(p.(partial := l.partial), f, receivedAt, l.out.now + DeadlineMs(f.identity.priority));
      CollectedIdentity(l.partial, l.out.cfg.reassemblyLimit, f, receivedAt, l.out.now + DeadlineMs(f.identity.priority));
      var decoded := env.decode(bytes);
      if OnRecord(l, IdOf(i)).Some? && decoded.Some? && Settles(l, i, decoded.value) {
        SameChecks(l, p, i, decoded.value, env);
        LaterCopyAnswer(p, i, decoded, env, OnRecord(l, IdOf(i)).value);
      }
    }
  }

  lemma CollectedIdentity(rs: seq<Reassembly>, limit: nat, f: Frame, receivedAt: nat, expiresAt: nat)
    ensures var done := Collect(rs, limit, f, receivedAt, expiresAt).1;
            done.Some? ==> IdOf(done.value.0) == IdOf(f.identity)
  {
    hide Find, MakeRoom, RemoveAt, Join;
  }

  // ----- results after a stop -----------------------------------------------------------------------

  ghost predicate Visited(s: Out, refs: seq<nat>, k: OpId) { exists r :: r in refs && Get(s, r).key == k }

  lemma CompleteResult(s: Out, r: nat, status: Status)
    ensures Complete(s, r, status).heap == s.heap && Complete(s, r, status).results == s.results.Put(Get(s, r).key, status)
  {
    hide Without, HasEligible, ForgetData;
  }

  lemma FailOneResult(s: Out, r: nat)
    ensures var n := if Get(s, r).Confirmable() then Complete(s, r, Failed) else FailBestEffort(s, r);
            n.heap == s.heap && n.results == s.results.Put(Get(s, r).key, Failed)
  {
    hide Without, Complete, NeedsConfirmation;
    CompleteResult(s, r, Failed);
  }

  lemma VisitedLast(s: Out, refs: seq<nat>, k: OpId)
    requires refs != []
    ensures Visited(s, refs, k) <==> Visited(s, refs[..|refs| - 1], k) || Get(s, refs[|refs| - 1]).key == k
  {
    assert refs == refs[..|refs| - 1] + [refs[|refs| - 1]];
  }

  lemma {:induction false} FailAllResults(s: Out, refs: seq<nat>, k: OpId)
    ensures FailAll(s, refs).heap == s.heap
    ensures Visited(s, refs, k) ==> k in FailAll(s, refs).results.m && FailAll(s, refs).results.m[k] == Failed
    ensures !Visited(s, refs, k) ==>
              (k in FailAll(s, refs).results.m <==> k in s.results.m)
              && (k in s.results.m ==> FailAll(s, refs).results.m[k] == s.results.m[k])
    decreases |refs|
  {
    if refs != [] {
      hide Complete, FailBestEffort, NeedsConfirmation, Visited;
      var earlier := FailAll(s, refs[..|refs| - 1]);
      FailAllResults(s, refs[..|refs| - 1], k);
      FailOneResult(earlier, refs[|refs| - 1]);
      VisitedLast(s, refs, k);
    }
  }

  /**
    A stop turns exactly the results of queued, tracked and active messages into failures: also that of an
    operation already confirmed while its last chunk is still on the air.
    */
  lemma StopResults(s: Out, refs: seq<nat>, k: OpId)
    requires !s.stopped && Concerns(s, refs)
    ensures var n := Stop(s, refs);
            && (Visited(s, refs, k) ==> k in n.results.m && n.results.m[k] == Failed)
            && (!Visited(s, refs, k) && k in s.results.m ==> k in n.results.m && n.results.m[k] == s.results.m[k])
            && (s.sending.Some? && Get(s, s.sending.value.ref).key == k ==> n.results.m[k] == Failed)
  {
    hide FailAll;
    FailAllResults(Closing(s), refs, k);
    if s.sending.Some? {
      assert s.sending.value.ref in Occupied(s);
    }
  }
}
