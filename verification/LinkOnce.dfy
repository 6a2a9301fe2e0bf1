/** No step delivers again what still awaits its settlement or is still remembered (transport.ts). */
module LinkOnce {
  import opened Wrappers
  import opened LinkTypes
  import opened LinkOutbound
  import opened LinkReassembly
  import opened LinkInbound
  import opened LinkOutboundInvariants
  import opened LinkInboundInvariants
  import opened LinkMessages

  /** The identity awaits its settlement, or the settlement history still holds its result. */
  predicate Known(l: Link, id: SettlementId) {
    id in l.pending.m || Lookup(PruneSettled(l.settled, l.out.now), id).Some?
  }

  /** At most one event is raised, and one that has to be settled only for an identity that was not known. */
  ghost predicate DeliversAnew(l: Link, n: Link) {
    || n.events == l.events
    || exists e :: n.events == l.events + [e] && (e.settles ==> !Known(l, e.id) && e.id in n.pending.m)
  }

  lemma {:induction false} PruneTwice(settled: seq<Settled>, now: nat)
    ensures PruneSettled(PruneSettled(settled, now), now) == PruneSettled(settled, now)
    decreases |settled|
  {
    if settled != [] && settled[0].expiresAt <= now {
      PruneTwice(settled[1..], now);
    }
  }

  /** `a` differs from `b` only in what `DeliversAnew` does not look at, or in expired entries. */
  predicate Alike(a: Link, b: Link) {
    && a.pending == b.pending && a.events == b.events && a.out.now == b.out.now
    && (b.settled == a.settled || b.settled == PruneSettled(a.settled, a.out.now))
  }

  lemma AlikeFresh(a: Link, b: Link, n: Link)
    requires Alike(a, b) && DeliversAnew(b, n)
    ensures DeliversAnew(a, n)
  {
    hide PruneSettled, Lookup;
    PruneTwice(a.settled, a.out.now);
    assert forall id :: Known(a, id) == Known(b, id);
  }

  lemma RefuseEvents(l: Link, i: Identity, frames: nat)
    ensures Refuse(l, i, frames).events == l.events
  {
    hide SendControl, Lookup, PruneSettled;
  }

  lemma AnswerEvents(l: Link, i: Identity, m: Message, env: Env)
    ensures var n := AnswerRequest(l, i, m, env); n.events == l.events && n.pending == l.pending && n.out.cfg == l.out.cfg
  {
    hide CompleteWithResponse;
    var r := Matching(l.out, i, m, env);
    if r.Some? && RequestOf(m).Some? { AnsweredOnly(l.out, r.value, RequestOf(m).value); }
  }

  lemma DeliverFresh(l: Link, i: Identity, m: Message, order: Order, env: Env)
    ensures DeliversAnew(l, Deliver(l, i, m, order, env))
  {
    hide Refuse, AnswerRequest, Matching, SendControl, NoRoom, Lookup, PruneSettled, NeedsConfirmation;
    var settles := Settles(l, i, m);
    var p := if settles then l.(settled := PruneSettled(l.settled, l.out.now)) else l;
    PruneTwice(l.settled, l.out.now);
    RefuseEvents(p, i, env.frames);
    var a := AwaitSettlement(p, i, m);
    AnswerEvents(a, i, m, env);
    var raised := Raise(AnswerRequest(a, i, m, env), i, m);
    if Deliver(l, i, m, order, env) == raised {
      var e := raised.events[|l.events|];
      assert raised.events == l.events + [e];
      assert settles && e.settles ==> e.id in raised.pending.m;
    }
  }

  lemma ScreenFresh(l: Link, i: Identity, m: Message, env: Env)
    ensures DeliversAnew(l, Screen(l, i, m, env))
  {
    hide Refuse, Deliver, AcceptDelivery, NeedsConfirmation, Misdirected, DeliversAnew;
    RefuseEvents(l, i, env.frames);
    var (n, order) := AcceptDelivery(l, i, m);
    AcceptShape(l, i, m);
    RefuseEvents(n, i, env.frames);
    DeliverFresh(n, i, m, order, env);
    AlikeFresh(l, n, Deliver(n, i, m, order, env));
    SameEvents(l, Refuse(l, i, env.frames));
    SameEvents(l, Refuse(n, i, env.frames));
    SameEvents(l, n);
    SameEvents(l, l);
  }

  lemma SameEvents(l: Link, n: Link)
    ensures n.events == l.events ==> DeliversAnew(l, n)
  {
  }

  lemma ControlEvents(l: Link, c: ControlKind, from: Node, dest: Option<Node>, env: Env)
    ensures HandleControl(l, c, from, dest, env).events == l.events
  {
    hide AnswerTo;
  }

  lemma HandleCompleteFresh(l: Link, i: Identity, decoded: Option<Message>, env: Env)
    requires LinkInv(l) && !l.out.stopped
    ensures DeliversAnew(l, HandleComplete(l, i, decoded, env))
  {
    hide LinkInv, ActivateFence, HandleControl, Screen, CompoundReceipt, NeedsConfirmation, ValidStateSource, DeliversAnew;
    SameEvents(l, l);
    if decoded.Some? {
      var m := decoded.value;
      var (n, ok) := ActivateFence(l, i.source, i.generation, i.session, env.admits(i.source));
      ActivateShape(l, i.source, i.generation, i.session, env.admits(i.source));
      SameEvents(l, n);
      if ok {
        if m.Control? {
          ControlEvents(n, m.control, i.source, i.dest, env);
          SameEvents(l, HandleControl(n, m.control, i.source, i.dest, env));
        } else {
          ActivateKeeps(l, i.source, i.generation, i.session, env.admits(i.source));
          ShapeStopped(l, n);
          CompoundKeeps(n, i, env);
          CompoundNow(n, i, env);
          var c := if m.TaskReport? then CompoundReceipt(n, i, env) else n;
          ScreenFresh(c, i, m, env);
          AlikeFresh(l, c, Screen(c, i, m, env));
        }
      }
    }
  }

  lemma CompoundNow(l: Link, i: Identity, env: Env)
    requires LinkInv(l) && !l.out.stopped
    ensures var n := CompoundReceipt(l, i, env); n == l.(out := n.out) && n.out.now == l.out.now
  {
    hide LinkInv, CompoundReceipt;
    CompoundKeeps(l, i, env);
  }

  lemma ShapeStopped(l: Link, n: Link)
    requires n == l.(fences := n.fences, partial := n.partial)
    ensures n.out == l.out
  {
  }

  lemma ActivateShape(l: Link, source: Node, generation: nat, session: string, admits: bool)
    ensures var n := ActivateFence(l, source, generation, session, admits).0;
            n == l.(fences := n.fences, partial := n.partial)
  {
    hide PassesFence, KeepUnfenced;
  }

  lemma ReceiveFresh(l: Link, f: Frame, receivedAt: nat, env: Env)
    requires LinkInv(l) && f.WellFormed()
    ensures DeliversAnew(l, Receive(l, f, receivedAt, env))
  {
    hide Inv, InboundInv, HandleComplete, Collect, ExpectsContent, PassesFence, DeliversAnew, PruneSettled;
    var i := f.identity;
    SameEvents(l, l);
    if !l.out.stopped && i.source != l.out.cfg.node && PassesFence(l.fences, i.source, i.generation, i.session) {
      PruneSettledKeeps(l);
      var p := if i.kind.ContentKind? && Addressed(l, i) then l.(settled := PruneSettled(l.settled, l.out.now)) else l;
      SameEvents(l, p);
      if !i.kind.ContentKind? || ExpectsContent(l, i) {
        PartialKeeps(p, f, receivedAt, p.out.now + DeadlineMs(i.priority));
        var (partial, done) := Collect(p.partial, p.out.cfg.reassemblyLimit, f, receivedAt, p.out.now + DeadlineMs(i.priority));
        var n := p.(partial := partial);
        SameEvents(l, n);
        if done.Some? {
          HandleCompleteFresh(n, done.value.0, env.decode(done.value.1), env);
          AlikeFresh(l, n, HandleComplete(n, done.value.0, env.decode(done.value.1), env));
        }
      }
    }
  }

  // ----- the other steps raise no event ---------------------------------------------------------------

  lemma TimeoutEvents(l: Link, key: Key, frames: nat)
    ensures ReassemblyExpires(l, key, frames).events == l.events
  {
    hide SendControl, RemoveAt, RepairInterval, MissingFrom, Find;
  }

  lemma SettleEvents(l: Link, id: SettlementId, confirmed: bool, frames: nat)
    ensures Settle(l, id, confirmed, frames).0.events == l.events
  {
    hide SendControl, PruneSettled, Lookup;
  }

  lemma ExpiryEvents(l: Link, id: SettlementId, frames: nat)
    ensures PendingExpires(l, id, frames).events == l.events
  {
    hide SendControl, PruneSettled, Lookup;
  }

  lemma TogetherEvents(l: Link, id: SettlementId, report: Message, dest: Node, op: OpId, receiptFrames: nat, reportFrames: nat)
    ensures SettleWithReport(l, id, report, dest, op, receiptFrames, reportFrames).0.events == l.events
  {
    hide PruneSettled, Lookup, SendReceiptAndReport, MarkAtomic;
  }

  lemma AnnounceEvents(l: Link, source: Node, generation: nat, session: string, admits: bool, frames: nat)
    ensures Announce(l, source, generation, session, admits, frames).events == l.events
  {
    hide ActivateFence, Submit;
    ActivateShape(l, source, generation, session, admits);
  }

  lemma StopEvents(l: Link, refs: seq<nat>)
    ensures StopLink(l, refs).events == l.events
  {
    hide Stop;
  }
}
