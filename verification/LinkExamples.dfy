/** Runs from a fresh transport to the states in which it falls short (transport.ts). */
module LinkExamples {
  import opened Wrappers
  import opened LinkTypes
  import opened LinkOutbound
  import opened LinkReassembly
  import opened LinkInbound
  import opened LinkOperations
  import opened LinkSubmission
  import opened LinkLifecycle
  import opened LinkInboundInvariants
  import opened LinkMessages
  import opened LinkRuns
  import opened LinkOutcomes
  import opened LinkWaiters
  import opened LinkFindings

  const GATEWAY := Node(Gateway, "g")
  const ASSET := Node(Asset, "a")

  function Start(node: Node): Link {
    Link(Out(Config(node, 8, 8, 8, 1000, false), 0, [], [], [], Table(map[]), Table(map[]), Table(map[]), Table(map[]),
             Table(map[]), [], false, None, Table(map[]), 0, 0, 0, None, false, false, false, 0, None),
         Table(map[]), [], Table(map[]), [], [], [])
  }

  lemma RunMore(l: Link, steps: seq<Step>, step: Step)
    ensures Run(l, steps + [step]) == Next(Run(l, steps), step)
    ensures Feasible(l, steps + [step]) <==> Feasible(l, steps) && Enabled(Run(l, steps), step)
  {
    hide Next, Enabled;
    assert (steps + [step])[..|steps|] == steps;
  }

  // ----- the first message ----------------------------------------------------------------------------

  /** Nothing has been sent, settled or tracked yet. */
  ghost predicate Quiescent(s: Out) {
    && s.cfg.queueLimit > 0 && s.cfg.confirmedLimit > 0 && s.queue == [] && s.heap == [] && s.progress == []
    && s.byOperation.m == map[] && s.pendingData.m == map[] && s.responses.m == map[] && s.results.m == map[]
    && s.committed.m == map[] && s.expiries == [] && s.reserved.m == map[] && s.sending.None? && s.lock.None?
    && !s.requested && !s.paused && !s.stopped && s.waiters == 0
  }

  lemma FirstPrepare(s: Out, m: Message, dest: Option<Node>, op: OpId, useReservation: bool, pendingInbound: nat, frames: nat)
    requires Quiescent(s) && frames > 0 && ValidStateSource(m, s.cfg.node) && pendingInbound < s.cfg.queueLimit
    requires !m.DataRequest? && (NeedsConfirmation(m) ==> dest.Some?)
    ensures Prepare(s, m, dest, op, useReservation, DefaultCapacity(m), s.sequence + 1, None, pendingInbound, frames) ==
            (s.(nextId := s.nextId + 1, nextOrder := s.nextOrder + 1),
             Ready(Outbound(m, op, s.nextId, s.sequence + 1, dest, frames), s.nextOrder, false))
  {
    hide NeedsConfirmation, ValidStateSource, ScheduleWake;
    EmptyOccupied(s);
    assert Prune(s) == s;
    NothingReplaceable(s, m);
  }

  lemma NothingReplaceable(s: Out, m: Message)
    requires s.queue == []
    ensures Replaceable(s, m).None?
  {
  }

  lemma FirstCommit(s: Out, o: Outbound, order: nat)
    requires Quiescent(s) && !o.message.DataRequest? && o.sequence > s.sequence
    ensures var n := RequestPump(Record(Commit(s, o, order, false), o.key, Queued));
            Alone(s, n, o, order) && n.nextId == s.nextId
  {
    hide Replaceable, NeedsConfirmation;
    NothingReplaceable(s, o.message);
  }

  /** The only message of a transport that was asked to send it. */
  ghost predicate Alone(s: Out, n: Out, o: Outbound, order: nat) {
    && n.cfg == s.cfg && n.now == s.now && n.heap == [o]
    && n.progress == [Progress(AllChunks(o.frames), false, order, NoRetry, o.Confirmable())]
    && n.queue == [0] && n.byOperation.m == (if o.Confirmable() then map[o.key := 0] else map[])
    && n.sending.None? && n.requested && !n.paused && !n.stopped && n.waiters == 0 && n.lock.None?
    && n.pendingData.m == map[] && n.responses.m == (if o.message.ResourceOperation? then map[o.key := 0] else map[])
    && n.committed.m == (if o.Confirmable() then map[o.key := None] else map[])
    && n.results.m == map[o.key := Queued] && n.reserved.m == map[] && n.expiries == []
  }

  lemma FirstSubmit(s: Out, m: Message, dest: Option<Node>, op: OpId, useReservation: bool, pendingInbound: nat, frames: nat)
    requires Quiescent(s) && frames > 0 && ValidStateSource(m, s.cfg.node) && pendingInbound < s.cfg.queueLimit
    requires !m.DataRequest? && (NeedsConfirmation(m) ==> dest.Some?)
    ensures var (n, status) := Submit(s, m, dest, op, useReservation, pendingInbound, frames);
            && Alone(s, n, Outbound(m, op, s.nextId, s.sequence + 1, dest, frames), s.nextOrder)
            && status == Queued && n.nextId == s.nextId + 1
  {
    hide NeedsConfirmation, Prepare, Commit, RequestPump, ValidStateSource;
    FirstPrepare(s, m, dest, op, useReservation, pendingInbound, frames);
    var p := s.(nextId := s.nextId + 1, nextOrder := s.nextOrder + 1);
    FirstCommit(p, Outbound(m, op, s.nextId, s.sequence + 1, dest, frames), s.nextOrder);
  }

  /** The pump takes the only message and hands its first chunk to the radio. */
  lemma FirstPump(s: Out, fits: nat -> bool)
    requires |s.heap| == 1 && |s.progress| == 1 && s.queue == [0] && s.sending.None? && !s.paused && !s.stopped
    requires s.lock.None? && !s.heap[0].IsObject() && s.progress[0].pending != [] && !s.cfg.pairReceipts
    ensures var n := PumpFires(s, fits);
            && n == s.(requested := false, queue := [], sending := n.sending, progress := n.progress)
            && n.sending == Some(Transmission(0, s.progress[0].pending[0], None, s.now))
            && n.progress == [s.progress[0].(pending := s.progress[0].pending[1..], started := true)]
  {
    hide Before;
    var woken := s.(requested := false);
    assert [0][..0] == [];
    assert Best(woken, []).None? && FirstObject(woken, []).None?;
    assert FirstObject(woken, [0]).None?;
    assert ScanLock(woken) == woken;
    assert Eligible(woken, 0);
    assert Best(woken, [0]) == Some(0);
    assert Without([], 0) == [];
  }

  // ----- a pause, a resume and a pause ----------------------------------------------------------------

  const SUBMIT_STATE := Sending(DoSubmit(State("r", false, true, false), None, Named("p"), 2))
  const PUMP := Sending(DoPumpBegin(_ => false))
  const SENT := Sending(DoPumpEnd(true))
  const PAUSE := Sending(DoPause)
  const RESUME := Sending(DoResume)

  function Air(): Out {
    PumpFires(Submit(Start(GATEWAY).out, State("r", false, true, false), None, Named("p"), false, 0, 2).0, _ => false)
  }

  lemma OnAir()
    ensures var s := Air();
            && s.queue == [] && |s.heap| == 1 && |s.progress| == 1 && s.progress[0].pending == [1]
            && s.sending == Some(Transmission(0, 0, None, 0)) && s.waiters == 0 && !s.stopped && !s.paused && !s.requested
            && !s.heap[0].Confirmable() && !s.heap[0].IsObject() && s.lock.None?
  {
    hide Submit, PumpFires;
    var s := Start(GATEWAY).out;
    FirstSubmit(s, State("r", false, true, false), None, Named("p"), false, 0, 2);
    assert AllChunks(2) == [0, 1];
    FirstPump(Submit(s, State("r", false, true, false), None, Named("p"), false, 0, 2).0, _ => false);
  }

  /** A message of two chunks, a pause during the first, a resume, and a pause before the second begins. */
  lemma PauseResumePauseStrands()
    ensures var steps := [SUBMIT_STATE, PUMP, PAUSE, RESUME, SENT];
            && Initial(Start(GATEWAY)) && Feasible(Start(GATEWAY), steps)
            && WaitersServed(Run(Start(GATEWAY), steps).out)
            && !WaitersServed(Run(Start(GATEWAY), steps + [PAUSE]).out)
            && Run(Start(GATEWAY), steps + [PAUSE]).out.waiters == 1
  {
    hide Submit, PumpFires, Initial, Feasible, Run;
    var l := Start(GATEWAY);
    assert Initial(l) by { StartInitial(GATEWAY); }
    OnAir();
    StrandedRun(l);
  }

  lemma StartInitial(node: Node)
    ensures Initial(Start(node))
  {
  }

  lemma SendStep(l: Link, steps: seq<Step>, step: OutStep)
    requires Feasible(l, steps)
    ensures var before := Run(l, steps);
            Run(l, steps + [Sending(step)]) == before.(out := OutNext(before.out, |before.pending.m|, step))
    ensures Feasible(l, steps + [Sending(step)])
  {
    hide OutNext, Run, Feasible;
    RunMore(l, steps, Sending(step));
  }

  lemma OutSteps(s: Out, pendingInbound: nat)
    ensures OutNext(s, pendingInbound, DoPause) == Pause(s) && OutNext(s, pendingInbound, DoResume) == Resume(s)
    ensures s.sending.Some? ==> OutNext(s, pendingInbound, DoPumpEnd(true)) == PumpEnds(s, true)
  {
    hide Pause, Resume, PumpEnds;
  }

  lemma StrandedRun(l: Link)
    requires l == Start(GATEWAY)
    requires var s := Air();
             && s.queue == [] && |s.heap| == 1 && |s.progress| == 1 && s.progress[0].pending == [1]
             && s.sending == Some(Transmission(0, 0, None, 0)) && s.waiters == 0 && !s.stopped && !s.paused && !s.requested
             && !s.heap[0].Confirmable() && !s.heap[0].IsObject() && s.lock.None?
    ensures var steps := [SUBMIT_STATE, PUMP, PAUSE, RESUME, SENT];
            && Feasible(l, steps) && WaitersServed(Run(l, steps).out)
            && !WaitersServed(Run(l, steps + [PAUSE]).out) && Run(l, steps + [PAUSE]).out.waiters == 1
  {
    hide Air, Feasible, Run, OutNext, Next, Pause, Resume, PumpEnds, WaitersServed, Start, NeedsConfirmation;
    AirReached(l);
    var a, s := [SUBMIT_STATE, PUMP], Air();
    Stranded(s);
    SendStep(l, a, DoPause);
    OutSteps(s, 0);
    assert |l.pending.m| == 0;
    SendStep(l, a + [PAUSE], DoResume);
    OutSteps(Pause(s), 0);
    SendStep(l, a + [PAUSE] + [RESUME], DoPumpEnd(true));
    OutSteps(Resume(Pause(s)), 0);
    SendStep(l, a + [PAUSE] + [RESUME] + [SENT], DoPause);
    OutSteps(PumpEnds(Resume(Pause(s)), true), 0);
    assert a + [PAUSE] + [RESUME] + [SENT] == [SUBMIT_STATE, PUMP, PAUSE, RESUME, SENT];
  }

  lemma RunNone(l: Link)
    ensures Run(l, []) == l && Feasible(l, [])
  {
  }

  lemma AirReached(l: Link)
    requires l == Start(GATEWAY)
    ensures Feasible(l, [SUBMIT_STATE, PUMP]) && Run(l, [SUBMIT_STATE, PUMP]) == l.(out := Air()) && l.pending.m == map[]
  {
    hide Submit, PumpFires, Feasible, Run;
    RunNone(l);
    FirstSubmit(l.out, State("r", false, true, false), None, Named("p"), false, 0, 2);
    SendStep(l, [], DoSubmit(State("r", false, true, false), None, Named("p"), 2));
    SendStep(l, [] + [SUBMIT_STATE], DoPumpBegin(_ => false));
    assert [] + [SUBMIT_STATE] + [PUMP] == [SUBMIT_STATE, PUMP];
  }

  /** During a send that leaves something to send: pause, resume, the end of the send, and a pause again. */
  lemma Stranded(s: Out)
    requires |s.heap| == 1 && |s.progress| == 1 && s.queue == [] && s.progress[0].pending != []
    requires s.sending.Some? && s.sending.value.ref == 0 && s.sending.value.report.None? && s.waiters == 0 && !s.stopped
    requires !s.heap[0].Confirmable() && !s.heap[0].IsObject()
    ensures Resume(Pause(s)).sending == s.sending
    ensures var ended := PumpEnds(Resume(Pause(s)), true);
            WaitersServed(ended) && !WaitersServed(Pause(ended)) && Pause(ended).waiters == 1
  {
    hide NeedsConfirmation;
    var resumed := Resume(Pause(s));
    assert !HasEligible(Pause(s));
    assert resumed.waiters == 1 && resumed.sending == s.sending && !resumed.paused;
    var queued := Enqueue(resumed, 0);
    assert queued.queue[0] == 0;
    assert Eligible(queued.(sending := None), 0);
    assert HasEligible(queued.(sending := None));
  }

  // ----- frames that arrive ---------------------------------------------------------------------------

  function OneFrame(i: Identity): Frame { Frame(i, 0, 1, [1]) }

  function EnvOf(m: Message): Env { Env(_ => Some(m), _ => true, None, _ => false, 1) }

  lemma SingleFrame(i: Identity, limit: nat, receivedAt: nat, expiresAt: nat)
    requires limit > 0
    ensures Collect([], limit, OneFrame(i), receivedAt, expiresAt) == ([], Some((i, [1])))
  {
    var f := OneFrame(i);
    var b := Begin(f, receivedAt, expiresAt);
    assert [] + [b] == [b] && RemoveAt([b], 0) == [];
    assert Join(b.chunks.Put(0, [1]), 0) == [];
    assert Accept(b, f, receivedAt) == Completed([1]) by {
      assert b.chunks.Put(0, [1]).m == map[0 := [1]];
      assert |map[0 := [1]]| == 1;
    }
  }

  /** A message in one frame from a source that may pass is handled at once, with the fence at that source. */
  lemma Arrives(l: Link, i: Identity, m: Message)
    requires !l.out.stopped && l.partial == [] && l.out.cfg.reassemblyLimit > 0 && i.source != l.out.cfg.node
    requires PassesFence(l.fences, i.source, i.generation, i.session) && KindOf(m) == i.kind && MessagePriority(m) == i.priority
    requires ValidStateSource(m, i.source) && (m.Control? || m.TaskDelivery?) && i.dest == Some(l.out.cfg.node)
    ensures var n := l.(fences := l.fences.Put(i.source, Fence(i.generation, i.session)));
            Receive(l, OneFrame(i), 0, EnvOf(m)) ==
            if m.Control? then HandleControl(n, m.control, i.source, i.dest, EnvOf(m)) else Screen(n, i, m, EnvOf(m))
  {
    hide Collect, Screen, HandleControl, ExpectsContent, PassesFence, ValidStateSource, MessagePriority, KeepUnfenced;
    SingleFrame(i, l.out.cfg.reassemblyLimit, 0, l.out.now + DeadlineMs(i.priority));
    EmptyUnfenced(i.source, i.generation, i.session);
    assert l.(partial := []) == l;
    assert EnvOf(m).decode([1]) == Some(m) && EnvOf(m).admits(i.source);
    assert l.(fences := l.fences.Put(i.source, Fence(i.generation, i.session)), partial := []) ==
           l.(fences := l.fences.Put(i.source, Fence(i.generation, i.session)));
  }

  // ----- a confirmed operation that a stop turns into a failure ----------------------------------------

  const SUBSCRIBE := DoSubmit(Subscription(false), Some(ASSET), Named("w"), 1)

  /** The message is on the air and its operation is tracked. */
  function Underway(): Out {
    PumpFires(Submit(Start(GATEWAY).out, Subscription(false), Some(ASSET), Named("w"), false, 0, 1).0, _ => false)
  }

  lemma UnderwayMeans()
    ensures var s := Underway();
            && s.queue == [] && s.heap == [Outbound(Subscription(false), Named("w"), 0, 1, Some(ASSET), 1)]
            && s.sending == Some(Transmission(0, 0, None, 0)) && !s.stopped && s.cfg == Start(GATEWAY).out.cfg && s.now == 0
            && s.byOperation.m == map[Named("w") := 0] && s.pendingData.m == map[] && s.responses.m == map[]
    ensures var l := Start(GATEWAY);
            && Feasible(l, [Sending(SUBSCRIBE), PUMP]) && Run(l, [Sending(SUBSCRIBE), PUMP]) == l.(out := Underway())
  {
    hide Submit, PumpFires, Feasible, Run;
    var l := Start(GATEWAY);
    FirstSubmit(l.out, Subscription(false), Some(ASSET), Named("w"), false, 0, 1);
    assert AllChunks(1) == [0];
    FirstPump(Submit(l.out, Subscription(false), Some(ASSET), Named("w"), false, 0, 1).0, _ => false);
    RunNone(l);
    SendStep(l, [], SUBSCRIBE);
    SendStep(l, [] + [Sending(SUBSCRIBE)], DoPumpBegin(_ => false));
    assert [] + [Sending(SUBSCRIBE)] + [PUMP] == [Sending(SUBSCRIBE), PUMP];
  }

  const RECEIPT := Control(Confirmed(Named("w"), 0))
  const RECEIPT_ID := Identity(ControlMessageKind, ASSET, Some(GATEWAY), 1, "s", 1, Named("c"), 5, None, Safety)
  const CONFIRM := ReceiveFrame(OneFrame(RECEIPT_ID), 0, EnvOf(RECEIPT))

  lemma AnsweredUnderway(s: Out)
    requires s.byOperation.m == map[Named("w") := 0]
    requires s.heap == [Outbound(Subscription(false), Named("w"), 0, 1, Some(ASSET), 1)]
    ensures AnswerTo(s, ASSET, Named("w"), 0, Confirmed(Named("w"), 0)) == Complete(s, 0, ConfirmedStatus)
  {
    hide Complete;
    assert Named("w") in s.byOperation.m && s.byOperation.m[Named("w")] == 0;
    assert AnswerFound(s, 0, ASSET, Named("w"), 0);
    assert forall r :: AnswerFound(s, r, ASSET, Named("w"), 0) ==> r == 0;
  }

  lemma CompletedUnderway(s: Out)
    requires s.byOperation.m == map[Named("w") := 0] && s.queue == [] && s.pendingData.m == map[] && s.responses.m == map[]
    requires s.heap == [Outbound(Subscription(false), Named("w"), 0, 1, Some(ASSET), 1)]
    requires s.sending == Some(Transmission(0, 0, None, 0)) && !s.stopped
    ensures var n := Complete(s, 0, ConfirmedStatus);
            && Named("w") in n.results.m && n.results.m[Named("w")] == ConfirmedStatus && n.heap == s.heap
            && n.sending == s.sending && !n.stopped && Concerns(n, [0])
  {
    hide Complete;
    CompleteFields(s, 0, ConfirmedStatus);
    CompleteResult(s, 0, ConfirmedStatus);
    CompleteSteady(s, 0, ConfirmedStatus);
    CompleteOnly(s, 0, ConfirmedStatus);
    var n := Complete(s, 0, ConfirmedStatus);
    assert n.byOperation.m == map[] && n.queue == [];
    assert Occupied(n) == {0} && Awaiting(n) == {};
  }

  /** An operation that its receiver has confirmed while its chunk is on the air ends in failure when the service stops. */
  lemma ConfirmedThenFailed()
    ensures var l, steps := Start(GATEWAY), [Sending(SUBSCRIBE), PUMP, CONFIRM];
            && Initial(l) && Feasible(l, steps + [StopService([0])])
            && Named("w") in Run(l, steps).out.results.m && Run(l, steps).out.results.m[Named("w")] == ConfirmedStatus
            && Named("w") in Run(l, steps + [StopService([0])]).out.results.m
            && Run(l, steps + [StopService([0])]).out.results.m[Named("w")] == Failed
  {
    hide Initial, Feasible, Run, Underway, Receive, Complete, Stop, Concerns, PassesFence, HandleControl, AnswerTo, NeedsConfirmation;
    var l := Start(GATEWAY);
    StartInitial(GATEWAY);
    UnderwayMeans();
    var a := [Sending(SUBSCRIBE), PUMP];
    RunMore(l, a, CONFIRM);
    assert a + [CONFIRM] == [Sending(SUBSCRIBE), PUMP, CONFIRM];
    var u := l.(out := Underway());
    Confirming(u);
    CompletedUnderway(u.out);
    var done := Run(l, a + [CONFIRM]);
    RunMore(l, a + [CONFIRM], StopService([0]));
    Stopping(done);
  }

  lemma Confirming(u: Link)
    requires u == Start(GATEWAY).(out := u.out) && u.out.cfg == Start(GATEWAY).out.cfg && !u.out.stopped
    requires u.out.byOperation.m == map[Named("w") := 0]
    requires u.out.heap == [Outbound(Subscription(false), Named("w"), 0, 1, Some(ASSET), 1)]
    ensures Enabled(u, CONFIRM) && Next(u, CONFIRM).out == Complete(u.out, 0, ConfirmedStatus)
  {
    hide Receive, Complete, AnswerTo;
    Arrives(u, RECEIPT_ID, RECEIPT);
    AnsweredUnderway(u.out);
  }

  lemma Stopping(l: Link)
    requires Named("w") in l.out.results.m && !l.out.stopped && Concerns(l.out, [0])
    requires l.out.sending == Some(Transmission(0, 0, None, 0)) && |l.out.heap| == 1 && l.out.heap[0].key == Named("w")
    ensures Enabled(l, StopService([0]))
    ensures var n := Next(l, StopService([0])).out; Named("w") in n.results.m && n.results.m[Named("w")] == Failed
  {
    hide Stop, Concerns;
    assert 0 in [0] && Get(l.out, 0).key == Named("w");
    assert Visited(l.out, [0], Named("w"));
    StopResults(l.out, [0], Named("w"));
  }

  // ----- a confirmed delivery whose copy is rejected ---------------------------------------------------

  const TASK := TaskDelivery("task", "a", false)

  function DeliveryId(sequence: nat): Identity {
    Identity(DeliveryKind, GATEWAY, Some(ASSET), 1, "s", sequence, Named(if sequence == 1 then "d" else "e"), sequence, None,
             TaskPriority)
  }

  function Arrival(sequence: nat): Step { ReceiveFrame(OneFrame(DeliveryId(sequence)), 0, EnvOf(TASK)) }

  /** The state between the steps of the run: what was settled, which delivery is pending, and the newest sequence. */
  ghost predicate Between(l: Link, settled: seq<Settled>, pending: Option<nat>, newest: nat) {
    && l.partial == [] && l.out.cfg == Start(ASSET).out.cfg && l.out.now == 0 && !l.out.stopped
    && (GATEWAY in l.fences.m ==> l.fences.m == map[GATEWAY := Fence(1, "s")]) && (GATEWAY !in l.fences.m ==> l.fences.m == map[])
    && l.settled == settled
    && l.pending.m == (match pending
                       case None => map[]
                       case Some(q) => map[IdOf(DeliveryId(q)) := Pending(GATEWAY, DeliveryId(q).op, q, Some("task"))])
    && l.deliveries == (if newest == 0 then [] else [Delivery(GATEWAY, 1, "s", "task", newest)])
  }

  lemma MayArrive(l: Link, settled: seq<Settled>, pending: Option<nat>, newest: nat, sequence: nat)
    requires Between(l, settled, pending, newest)
    ensures PassesFence(l.fences, GATEWAY, 1, "s")
    ensures var n := l.(fences := l.fences.Put(GATEWAY, Fence(1, "s")));
            Next(l, Arrival(sequence)) == Screen(n, DeliveryId(sequence), TASK, EnvOf(TASK)) && Between(n, settled, pending, newest)
  {
    hide Screen;
    assert |l.fences.m| <= 1;
    Arrives(l, DeliveryId(sequence), TASK);
  }

  lemma TaskScreened(l: Link, sequence: nat, settled: seq<Settled>, pending: Option<nat>, newest: nat)
    requires Between(l, settled, pending, newest) && sequence > 0
    ensures var i := DeliveryId(sequence);
            var (n, order) := AcceptDelivery(l, i, TASK);
            Screen(l, i, TASK, EnvOf(TASK)) ==
            if order.StaleDelivery? then Refuse(n, i, 1) else Deliver(n, i, TASK, order, EnvOf(TASK))
    ensures var (n, order) := AcceptDelivery(l, DeliveryId(sequence), TASK);
            if sequence > newest then order.NewDelivery? && Between(n, settled, pending, sequence)
            else if sequence == newest then order.DuplicateDelivery? && n == l
            else order.StaleDelivery? && n == l
  {
    hide Deliver, Refuse;
    var i := DeliveryId(sequence);
    if newest > 0 {
      assert l.deliveries[..0] == [];
      assert FindDelivery([], i, "task").None?;
      assert SameDelivery(l.deliveries[0], i, "task");
      assert FindDelivery(l.deliveries, i, "task") == Some(0);
      assert l.deliveries[0 := Delivery(GATEWAY, 1, "s", "task", sequence)] == [Delivery(GATEWAY, 1, "s", "task", sequence)];
    } else {
      assert FindDelivery(l.deliveries, i, "task").None?;
      assert l.deliveries + [Delivery(GATEWAY, 1, "s", "task", sequence)] == [Delivery(GATEWAY, 1, "s", "task", sequence)];
    }
  }

  lemma NewTaskDelivered(l: Link, sequence: nat, settled: seq<Settled>)
    requires Between(l, settled, None, sequence) && |Occupied(l.out)| < 8 && |settled| < 8
    requires PruneSettled(settled, 0) == settled && Lookup(settled, IdOf(DeliveryId(sequence))).None?
    ensures var n := Deliver(l, DeliveryId(sequence), TASK, NewDelivery, EnvOf(TASK));
            Between(n, settled, Some(sequence), sequence) && n.out == l.out && n.fences == l.fences
  {
    hide OccupiedBy;
    assert NeedsConfirmation(TASK);
    assert l.pending.Put(IdOf(DeliveryId(sequence)), Pending(GATEWAY, DeliveryId(sequence).op, sequence, Some("task"))).m ==
           map[IdOf(DeliveryId(sequence)) := Pending(GATEWAY, DeliveryId(sequence).op, sequence, Some("task"))];
  }

  /** A delivery newer than any before is handed on and awaits its settlement. */
  lemma Delivered(l: Link, sequence: nat, settled: seq<Settled>, newest: nat)
    requires Between(l, settled, None, newest) && newest < sequence && |Occupied(l.out)| < 8 && |settled| < 8
    requires PruneSettled(settled, 0) == settled && Lookup(settled, IdOf(DeliveryId(sequence))).None?
    ensures var n := Next(l, Arrival(sequence)); Between(n, settled, Some(sequence), sequence) && n.out == l.out
  {
    hide Screen, Deliver, AcceptDelivery, OccupiedBy, PruneSettled, Lookup;
    MayArrive(l, settled, None, newest, sequence);
    var fenced := l.(fences := l.fences.Put(GATEWAY, Fence(1, "s")));
    TaskScreened(fenced, sequence, settled, None, newest);
    AcceptShape(fenced, DeliveryId(sequence), TASK);
    NewTaskDelivered(AcceptDelivery(fenced, DeliveryId(sequence), TASK).0, sequence, settled);
  }

  const CONFIRMED := Settled(IdOf(DeliveryId(1)), true, RETENTION_MS, None)

  lemma Recorded()
    ensures PruneSettled([], 0) == [] && PruneSettled([CONFIRMED], 0) == [CONFIRMED]
    ensures forall id :: Lookup([], id).None?
    ensures Lookup([CONFIRMED], IdOf(DeliveryId(1))) == Some(CONFIRMED) && Lookup([CONFIRMED], IdOf(DeliveryId(2))).None?
  {
  }

  /** The application confirms the delivery, and the confirmation is queued. */
  lemma FirstConfirmed(l: Link)
    requires Between(l, [], Some(1), 1) && Quiescent(l.out)
    ensures var n := Next(l, SettleDelivery(IdOf(DeliveryId(1)), true, 1));
            && Between(n, [CONFIRMED], None, 1)
            && n.out == SendControl(l.out, Confirmed(DeliveryId(1).op, 1), GATEWAY, true, 1, 1).0
            && |n.out.heap| == 1 && Alone(l.out, n.out, n.out.heap[0], l.out.nextOrder) && n.out.heap[0].message.Control?
            && n.out.heap[0].key == Drawn(l.out.nextId) && n.out.nextId == l.out.nextId + 2
  {
    hide Submit;
    Recorded();
    var id, named := IdOf(DeliveryId(1)), l.out.(nextId := l.out.nextId + 1);
    assert |l.pending.m| == 1;
    FirstSubmit(named, Control(Confirmed(DeliveryId(1).op, 1)), Some(GATEWAY), Drawn(l.out.nextId), true, 1, 1);
    assert l.pending.m - {id} == map[];
    assert [] + [CONFIRMED] == [CONFIRMED];
  }

  /** One message is queued, and nothing is tracked or remembered. */
  ghost predicate OneQueued(s: Out) {
    && |s.heap| == 1 && s.queue == [0] && s.byOperation.m == map[] && s.sending.None? && !s.stopped && s.expiries == []
    && s.committed.m == map[] && s.reserved.m == map[] && s.cfg == Start(ASSET).out.cfg
  }

  lemma SecondPrepare(s: Out, c: ControlKind, dest: Node, op: OpId, pendingInbound: nat)
    requires OneQueued(s) && op !in s.results.m
    ensures Prepare(s, Control(c), Some(dest), op, true, DefaultCapacity(Control(c)), s.sequence + 1, None, pendingInbound, 1) ==
            (s.(nextId := s.nextId + 1, nextOrder := s.nextOrder + 1),
             Ready(Outbound(Control(c), op, s.nextId, s.sequence + 1, Some(dest), 1), s.nextOrder, false))
  {
    hide ScheduleWake, Replaceable;
    assert Prune(s) == s;
    assert Occupied(s) == {0};
  }

  /** A further control message is queued behind the first. */
  lemma SecondControl(s: Out, c: ControlKind, dest: Node, pendingInbound: nat)
    requires OneQueued(s) && Drawn(s.nextId) !in s.results.m
    ensures var n := SendControl(s, c, dest, true, pendingInbound, 1).0;
            |n.heap| == 2 && n.heap[1].message == Control(c) && n.heap[1].dest == Some(dest) && n.queue == [0, 1]
  {
    hide Commit, RequestPump, Prepare;
    var named := s.(nextId := s.nextId + 1);
    SecondPrepare(named, c, dest, Drawn(s.nextId), pendingInbound);
    var o := Outbound(Control(c), Drawn(s.nextId), s.nextId + 1, s.sequence + 1, Some(dest), 1);
    var ready := named.(nextId := named.nextId + 1, nextOrder := named.nextOrder + 1);
    CommitShape(ready, o, named.nextOrder, false);
    RequestShape(Record(Commit(ready, o, named.nextOrder, false), o.key, Queued));
  }

  lemma RequestShape(s: Out)
    ensures RequestPump(s) == s.(requested := RequestPump(s).requested)
  {
  }

  const FIRST := SettleDelivery(IdOf(DeliveryId(1)), true, 1)

  /**
    A Task delivery is confirmed, a newer one of the same Task arrives, and then a copy of the first: it is answered
    with a rejection, although the result on record is, and stays, a confirmation.
    */
  lemma ConfirmedThenRejected()
    ensures var l, steps := Start(ASSET), [Arrival(1), FIRST, Arrival(2)];
            && Initial(l) && Feasible(l, steps + [Arrival(1)])
            && Lookup(Run(l, steps).settled, IdOf(DeliveryId(1))) == Some(CONFIRMED)
            && var n := Run(l, steps + [Arrival(1)]);
               && Lookup(n.settled, IdOf(DeliveryId(1))) == Some(CONFIRMED)
               && |n.out.heap| == 2 && n.out.heap[1].message == Control(Rejected(DeliveryId(1).op, 1)) && 1 in n.out.queue
  {
    hide Initial, Feasible, Run, Next, Quiescent, Between, Alone, OneQueued, SendControl, OccupiedBy;
    var l := Start(ASSET);
    StartInitial(ASSET);
    Recorded();
    assert Between(l, [], None, 0) && Quiescent(l.out) && |Occupied(l.out)| == 0 by { NothingYet(); }
    assert l.out.nextId == 0 && l.out.cfg == Start(ASSET).out.cfg;
    Delivered(l, 1, [], 0);
    var one := Next(l, Arrival(1));
    FirstConfirmed(one);
    var two := Next(one, FIRST);
    AloneMeans(l.out, two.out, two.out.heap[0], l.out.nextOrder);
    Delivered(two, 2, [CONFIRMED], 1);
    var three := Next(two, Arrival(2));
    CopyRejected(three);
    assert three.settled == [CONFIRMED] by { SettledBetween(three, [CONFIRMED], Some(2), 2); }
    StepsTaken(l, one, two, three);
  }

  lemma NothingYet()
    ensures Between(Start(ASSET), [], None, 0) && Quiescent(Start(ASSET).out) && |Occupied(Start(ASSET).out)| == 0
  {
    EmptyOccupied(Start(ASSET).out);
  }

  lemma AloneMeans(s: Out, n: Out, o: Outbound, order: nat)
    requires Alone(s, n, o, order) && !o.Confirmable() && !o.message.ResourceOperation? && s.cfg == Start(ASSET).out.cfg
    ensures OneQueued(n) && |Occupied(n)| == 1 && n.results.m == map[o.key := Queued]
  {
    assert Occupied(n) == {0};
  }

  lemma SettledBetween(l: Link, settled: seq<Settled>, pending: Option<nat>, newest: nat)
    requires Between(l, settled, pending, newest)
    ensures l.settled == settled
  {
  }

  lemma StepsTaken(l: Link, one: Link, two: Link, three: Link)
    requires one == Next(l, Arrival(1)) && two == Next(one, FIRST) && three == Next(two, Arrival(2))
    ensures var steps := [Arrival(1), FIRST, Arrival(2)];
            Run(l, steps) == three && Run(l, steps + [Arrival(1)]) == Next(three, Arrival(1)) && Feasible(l, steps + [Arrival(1)])
  {
    hide Run, Feasible, Next;
    RunNone(l);
    RunMore(l, [], Arrival(1));
    RunMore(l, [] + [Arrival(1)], FIRST);
    RunMore(l, [] + [Arrival(1)] + [FIRST], Arrival(2));
    RunMore(l, [] + [Arrival(1)] + [FIRST] + [Arrival(2)], Arrival(1));
    assert [] + [Arrival(1)] + [FIRST] + [Arrival(2)] == [Arrival(1), FIRST, Arrival(2)];
  }

  lemma CopyRejected(l: Link)
    requires Between(l, [CONFIRMED], Some(2), 2)
    requires OneQueued(l.out) && Drawn(l.out.nextId) !in l.out.results.m
    ensures var n := Next(l, Arrival(1));
            && Lookup(n.settled, IdOf(DeliveryId(1))) == Some(CONFIRMED)
            && |n.out.heap| == 2 && n.out.heap[1].message == Control(Rejected(DeliveryId(1).op, 1)) && 1 in n.out.queue
  {
    hide Screen, SendControl, AcceptDelivery, Next, PruneSettled, Lookup;
    Recorded();
    MayArrive(l, [CONFIRMED], Some(2), 2, 1);
    var fenced := l.(fences := l.fences.Put(GATEWAY, Fence(1, "s")));
    TaskScreened(fenced, 1, [CONFIRMED], Some(2), 2);
    SecondControl(l.out, Rejected(DeliveryId(1).op, 1), GATEWAY, |l.pending.m|);
    assert RecordSettled(fenced, IdOf(DeliveryId(1)), false, None) == fenced;
    var n := SendControl(l.out, Rejected(DeliveryId(1).op, 1), GATEWAY, true, |l.pending.m|, 1).0;
    assert n.queue[1] == 1;
  }

  // ----- a confirmed delivery whose copy is not answered at all -----------------------------------------

  const RESTARTED := Control(SourceActive(GATEWAY, 2, "t"))
  const RESTART_ID := Identity(ControlMessageKind, GATEWAY, Some(ASSET), 2, "t", 9, Named("n"), 9, None, Safety)
  const RESTART := ReceiveFrame(OneFrame(RESTART_ID), 0, EnvOf(RESTARTED))

  /** A Task delivery is confirmed and its source starts anew: a copy of the delivery then changes nothing at all. */
  lemma ConfirmedThenSilent()
    ensures var l, steps := Start(ASSET), [Arrival(1), FIRST, RESTART];
            && Initial(l) && Feasible(l, steps + [Arrival(1)])
            && Lookup(Run(l, steps).settled, IdOf(DeliveryId(1))) == Some(CONFIRMED)
            && Run(l, steps + [Arrival(1)]) == Run(l, steps)
  {
    hide Initial, Feasible, Run, Next, Quiescent, Between, Alone, SendControl, OccupiedBy;
    var l := Start(ASSET);
    StartInitial(ASSET);
    Recorded();
    assert Between(l, [], None, 0) && Quiescent(l.out) && |Occupied(l.out)| == 0 by { NothingYet(); }
    Delivered(l, 1, [], 0);
    var one := Next(l, Arrival(1));
    FirstConfirmed(one);
    var two := Next(one, FIRST);
    Restarts(two);
    var three := Next(two, RESTART);
    assert three.settled == [CONFIRMED];
    RunNone(l);
    RunMore(l, [], Arrival(1));
    RunMore(l, [] + [Arrival(1)], FIRST);
    RunMore(l, [] + [Arrival(1)] + [FIRST], RESTART);
    RunMore(l, [] + [Arrival(1)] + [FIRST] + [RESTART], Arrival(1));
    assert [] + [Arrival(1)] + [FIRST] + [RESTART] == [Arrival(1), FIRST, RESTART];
    AllEnabled(one, two, three, l);
  }

  lemma AllEnabled(one: Link, two: Link, three: Link, l: Link)
    ensures Enabled(l, Arrival(1)) && Enabled(one, FIRST) && Enabled(two, RESTART) && Enabled(three, Arrival(1))
  {
  }

  lemma Restarts(l: Link)
    requires Between(l, [CONFIRMED], None, 1)
    ensures var n := Next(l, RESTART); n.settled == [CONFIRMED] && Next(n, Arrival(1)) == n
  {
    hide Screen, HandleComplete, ExpectsContent, Collect;
    assert |l.fences.m| <= 1;
    Arrives(l, RESTART_ID, RESTARTED);
  }
}
