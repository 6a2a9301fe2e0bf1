/**
  The receiving half of `LinkTransport` (transport.ts): source fences, reassembly, settlement and
  its history, together with the sending half it answers through.
  */
module LinkInbound {
  import opened Wrappers
  import opened LinkTypes
  import opened LinkOutbound
  import opened LinkReassembly

  const SETTLED_INBOUND_LIMIT: nat := 4096
  const TASK_DELIVERY_FENCE_LIMIT: nat := 4096
  const LINK_SOURCE_IDENTITY_LIMIT: nat := 4096

  datatype Fence = Fence(generation: nat, session: string)

  datatype SettlementId = SettlementId(source: Node, generation: nat, session: string, op: OpId)

  datatype Pending = Pending(source: Node, op: OpId, msgId: nat, task: Option<string>)

  datatype AtomicTask = AtomicTask(report: Message, dest: Node, op: OpId)

  datatype Settled = Settled(id: SettlementId, confirmed: bool, expiresAt: nat, atomic: Option<AtomicTask>)

  datatype Delivery = Delivery(source: Node, generation: nat, session: string, task: string, sequence: nat)

  datatype Event = Event(id: SettlementId, sequence: nat, settles: bool, at: nat, message: Message)

  datatype Link = Link(
    out: Out,
    fences: Table<Node, Fence>,
    partial: seq<Reassembly>,
    pending: Table<SettlementId, Pending>,
    settled: seq<Settled>,
    deliveries: seq<Delivery>,
    events: seq<Event>)

  /** What lies outside the transport: message decoding, the Shared Picture, framing and answer matching. */
  datatype Env = Env(decode: Bytes -> Option<Message>, admits: Node -> bool, assignee: Option<string>,
                     matches: nat -> bool, frames: nat)

  function IdOf(i: Identity): SettlementId { SettlementId(i.source, i.generation, i.session, i.op) }

  function DeadlineMs(p: Priority): nat {
    match p
    case Safety => 15_000
    case TaskPriority => 15_000
    case Request => 30_000
    case LiveState => 30_000
    case Resource => 30_000
    case ObjectPriority => 300_000
  }

  // ----- source fences ------------------------------------------------------------------------------

  /** `checkSourceFence` lets the source through. */
  predicate PassesFence(fences: Table<Node, Fence>, source: Node, generation: nat, session: string) {
    if source in fences.m then
      var current := fences.m[source];
      generation > current.generation || (generation == current.generation && session == current.session)
    else |fences.m| < LINK_SOURCE_IDENTITY_LIMIT
  }

  predicate FencedOff(i: Identity, source: Node, generation: nat, session: string) {
    i.source == source && i.generation <= generation && !(i.generation == generation && i.session == session)
  }

  function KeepUnfenced(rs: seq<Reassembly>, source: Node, generation: nat, session: string): seq<Reassembly> {
    if rs == [] then []
    else
      var rest := KeepUnfenced(rs[..|rs| - 1], source, generation, session);
      if FencedOff(rs[|rs| - 1].identity, source, generation, session) then rest else rest + [rs[|rs| - 1]]
  }

  /** `activateSourceFence`: a newer generation also drops what its predecessors left half received. */
  function ActivateFence(l: Link, source: Node, generation: nat, session: string, admits: bool): (Link, bool) {
    var changed := source !in l.fences.m || generation > l.fences.m[source].generation;
    if !PassesFence(l.fences, source, generation, session) || (changed && !admits) then (l, false)
    else
      (l.(fences := l.fences.Put(source, Fence(generation, session)),
          partial := if changed then KeepUnfenced(l.partial, source, generation, session) else l.partial), true)
  }

  // ----- settlement history -------------------------------------------------------------------------

  function PruneSettled(settled: seq<Settled>, now: nat): seq<Settled> {
    if settled == [] || settled[0].expiresAt > now then settled else PruneSettled(settled[1..], now)
  }

  function Lookup(settled: seq<Settled>, id: SettlementId): (found: Option<Settled>)
    ensures found.Some? ==> found.value in settled && found.value.id == id
    ensures found.None? ==> forall e :: e in settled ==> e.id != id
  {
    if settled == [] then None
    else if settled[|settled| - 1].id == id then Some(settled[|settled| - 1])
    else Lookup(settled[..|settled| - 1], id)
  }

  /** `recordSettledInbound`: the first recorded result stays; a pending identity has its place reserved. */
  function RecordSettled(l: Link, id: SettlementId, confirmed: bool, atomic: Option<AtomicTask>): Link {
    var kept := PruneSettled(l.settled, l.out.now);
    if Lookup(kept, id).Some? || (id !in l.pending.m && |kept| + |l.pending.m| >= SETTLED_INBOUND_LIMIT)
    then l.(settled := kept)
    else l.(settled := kept + [Settled(id, confirmed, l.out.now + RETENTION_MS, atomic)])
  }

  function Reply(l: Link, to: Node, c: ControlKind, frames: nat): Link {
    l.(out := SendControl(l.out, c, to, true, |l.pending.m|, frames).0)
  }

  function Refuse(l: Link, i: Identity, frames: nat): Link {
    Reply(RecordSettled(l, IdOf(i), false, None), i.source, Rejected(i.op, i.msgId), frames)
  }

  function Answer(confirmed: bool, op: OpId, msgId: nat): ControlKind {
    if confirmed then Confirmed(op, msgId) else Rejected(op, msgId)
  }

  // ----- control messages ---------------------------------------------------------------------------

  ghost function FoundAnswer(s: Out, from: Node, op: OpId, msgId: nat): (found: Option<nat>)
    ensures found.Some? ==> AnswerFound(s, found.value, from, op, msgId)
    ensures found.None? ==> forall r :: !AnswerFound(s, r, from, op, msgId)
  {
    if exists r :: AnswerFound(s, r, from, op, msgId) then
      var r :| AnswerFound(s, r, from, op, msgId);
      Some(r)
    else None
  }

  ghost function AnswerTo(s: Out, from: Node, op: OpId, msgId: nat, c: ControlKind): Out {
    var found := FoundAnswer(s, from, op, msgId);
    if found.Some? then ApplyAnswer(s, found.value, c) else s
  }

  ghost function HandleControl(l: Link, c: ControlKind, from: Node, dest: Option<Node>, env: Env): Link {
    match c
    case SourceActive(source, generation, session) =>
      if from.role.Gateway? then ActivateFence(l, source, generation, session, env.admits(source)).0 else l
    case _ =>
      if dest != Some(l.out.cfg.node) then l else l.(out := AnswerTo(l.out, from, c.op, c.msgId, c))
  }

  ghost function CompoundReceipt(l: Link, i: Identity, env: Env): Link {
    if i.receipt.None? || !i.source.role.Asset? then l
    else HandleControl(l, Confirmed(i.receipt.value.op, i.receipt.value.msgId), i.source, i.dest, env)
  }

  // ----- Task delivery order ------------------------------------------------------------------------

  datatype Order = NewDelivery | DuplicateDelivery | StaleDelivery

  predicate SameDelivery(d: Delivery, i: Identity, task: string) {
    d.source == i.source && d.generation == i.generation && d.session == i.session && d.task == task
  }

  function FindDelivery(ds: seq<Delivery>, i: Identity, task: string): (found: Option<nat>)
    ensures found.Some? ==> found.value < |ds| && SameDelivery(ds[found.value], i, task)
    ensures found.None? ==> forall k :: 0 <= k < |ds| ==> !SameDelivery(ds[k], i, task)
  {
    if ds == [] then None
    else
      var earlier := FindDelivery(ds[..|ds| - 1], i, task);
      if earlier.Some? then earlier
      else if SameDelivery(ds[|ds| - 1], i, task) then Some(|ds| - 1) else None
  }

  function RememberDelivery(ds: seq<Delivery>, at: Option<nat>, d: Delivery): seq<Delivery> {
    var grown := if at.Some? && at.value < |ds| then ds[at.value := d] else ds + [d];
    if |grown| > TASK_DELIVERY_FENCE_LIMIT then grown[|grown| - TASK_DELIVERY_FENCE_LIMIT..] else grown
  }

  /** `acceptTaskDeliverySequence` */
  function AcceptDelivery(l: Link, i: Identity, m: Message): (Link, Order) {
    if !m.TaskDelivery? then (l, NewDelivery)
    else
      var at := FindDelivery(l.deliveries, i, m.task);
      if at.Some? && i.sequence < l.deliveries[at.value].sequence then (l, StaleDelivery)
      else if at.Some? && i.sequence == l.deliveries[at.value].sequence then (l, DuplicateDelivery)
      else
        var d := Delivery(i.source, i.generation, i.session, m.task, i.sequence);
        (l.(deliveries := RememberDelivery(l.deliveries, at, d)), NewDelivery)
  }

  // ----- a complete message -------------------------------------------------------------------------

  function RequestOf(m: Message): Option<OpId> {
    match m
    case DataResponse(request, _) => Some(request)
    case ObjectContent(request, _) => request
    case _ => None
  }

  /** `matchingResponseOperation` */
  function Matching(s: Out, i: Identity, m: Message, env: Env): Option<nat> {
    var request := RequestOf(m);
    if request.None? then None
    else
      var r := if request.value in s.pendingData.m then Some(s.pendingData.m[request.value])
               else if m.DataResponse? && request.value in s.responses.m then Some(s.responses.m[request.value])
               else None;
      if r.None? || Get(s, r.value).dest != Some(i.source) || !env.matches(r.value) then None
      else if Get(s, r.value).message.DataRequest? || (m.DataResponse? && Get(s, r.value).message.ResourceOperation?) then r
      else None
  }

  predicate Addressed(l: Link, i: Identity) { i.dest == Some(l.out.cfg.node) }

  predicate Settles(l: Link, i: Identity, m: Message) { NeedsConfirmation(m) && Addressed(l, i) }

  predicate NoRoom(l: Link) {
    || |l.pending.m| >= l.out.cfg.confirmedLimit
    || |Occupied(l.out)| + |l.pending.m| >= l.out.cfg.queueLimit
    || |l.settled| + |l.pending.m| >= SETTLED_INBOUND_LIMIT
  }

  function Raise(l: Link, i: Identity, m: Message): Link {
    l.(events := l.events + [Event(IdOf(i), i.sequence, Settles(l, i, m), l.out.now, m)])
  }

  function AwaitSettlement(l: Link, i: Identity, m: Message): Link {
    if !Settles(l, i, m) then l
    else
      var task := if m.TaskDelivery? then Some(m.task) else None;
      l.(pending := l.pending.Put(IdOf(i), Pending(i.source, i.op, i.msgId, task)))
  }

  function AnswerRequest(l: Link, i: Identity, m: Message, env: Env): Link {
    var r := Matching(l.out, i, m, env);
    if !Addressed(l, i) || r.None? then l else l.(out := CompleteWithResponse(l.out, r.value, RequestOf(m).value))
  }

  /** From the settlement history to the message event. */
  function Deliver(l: Link, i: Identity, m: Message, order: Order, env: Env): Link {
    var settles := Settles(l, i, m);
    var p := if settles then l.(settled := PruneSettled(l.settled, l.out.now)) else l;
    var known := Lookup(p.settled, IdOf(i));
    if settles && known.Some? then Reply(p, i.source, Answer(known.value.confirmed, i.op, i.msgId), env.frames)
    else if settles && IdOf(i) in p.pending.m then p
    else if Addressed(l, i) && RequestOf(m).Some? && Matching(p.out, i, m, env).None? then p
    else if settles && order.DuplicateDelivery? then p
    else if settles && NoRoom(p) then Refuse(p, i, env.frames)
    else Raise(AnswerRequest(AwaitSettlement(p, i, m), i, m, env), i, m)
  }

  /** The sender may not send this: a Task from no Gateway, for another Asset, or a report by the wrong Asset. */
  predicate Misdirected(l: Link, i: Identity, m: Message, env: Env) {
    || (m.TaskDelivery? && !i.source.role.Gateway?)
    || (m.TaskDelivery? && Addressed(l, i) && m.asset != l.out.cfg.node.id)
    || (m.TaskReport? && !i.source.role.Asset?)
    || (m.TaskReport? && env.assignee.Some? && env.assignee.value != i.source.id)
  }

  function Screen(l: Link, i: Identity, m: Message, env: Env): Link {
    if NeedsConfirmation(m) && i.dest.None? then l
    else if Misdirected(l, i, m, env) then if Addressed(l, i) then Refuse(l, i, env.frames) else l
    else
      var (n, order) := AcceptDelivery(l, i, m);
      if order.StaleDelivery? then if Addressed(l, i) then Refuse(n, i, env.frames) else n
      else if order.DuplicateDelivery? && !Addressed(l, i) then n
      else Deliver(n, i, m, order, env)
  }

  /** `handleCompleteMessage` */
  ghost function HandleComplete(l: Link, i: Identity, decoded: Option<Message>, env: Env): Link {
    if decoded.None? || KindOf(decoded.value) != i.kind || MessagePriority(decoded.value) != i.priority
       || !ValidStateSource(decoded.value, i.source) then l
    else
      var m := decoded.value;
      var (n, ok) := ActivateFence(l, i.source, i.generation, i.session, env.admits(i.source));
      if !ok then n
      else if m.Control? then
        if i.dest.Some? && !Addressed(n, i) then n else HandleControl(n, m.control, i.source, i.dest, env)
      else Screen(if m.TaskReport? then CompoundReceipt(n, i, env) else n, i, m, env)
  }

  /** `expectsObjectContent` */
  predicate ExpectsContent(l: Link, i: Identity) {
    Addressed(l, i) &&
    (|| IdOf(i) in l.pending.m
     || Lookup(PruneSettled(l.settled, l.out.now), IdOf(i)).Some?
     || (i.op in l.out.pendingData.m &&
         var o := Get(l.out, l.out.pendingData.m[i.op]);
         o.message.DataRequest? && o.message.content && o.message.id == i.op && o.dest == Some(i.source)))
  }

  /** `receive`: one decoded frame from the radio. */
  ghost function Receive(l: Link, f: Frame, receivedAt: nat, env: Env): Link {
    var i := f.identity;
    if l.out.stopped || i.source == l.out.cfg.node || !PassesFence(l.fences, i.source, i.generation, i.session) then l
    else
      var p := if i.kind.ContentKind? && Addressed(l, i) then l.(settled := PruneSettled(l.settled, l.out.now)) else l;
      if i.kind.ContentKind? && !ExpectsContent(l, i) then p
      else
        var (partial, done) := Collect(p.partial, p.out.cfg.reassemblyLimit, f, receivedAt, p.out.now + DeadlineMs(i.priority));
        var n := p.(partial := partial);
        if done.None? then n else HandleComplete(n, done.value.0, env.decode(done.value.1), env)
  }

  // ----- reassembly repair --------------------------------------------------------------------------

  function RepairInterval(l: Link, r: Reassembly): nat {
    var timeout := l.out.cfg.reassemblyTimeout;
    var i := r.identity;
    if i.kind.StateKind? || i.kind.ControlMessageKind? || !Addressed(l, i) || r.count == 0 || r.count - 1 !in r.chunks.m then timeout
    else if i.priority.TaskPriority? || i.priority.Safety? then if timeout < 1000 then timeout else 1000
    else timeout
  }

  function MissingFrom(chunks: Table<nat, Bytes>, count: nat): seq<nat> {
    if count == 0 then []
    else
      var rest := MissingFrom(chunks, count - 1);
      if count - 1 in chunks.m then rest else rest + [count - 1]
  }

  /** Ask for what is missing while the message can still make its deadline. */
  function RepairOrDropAt(l: Link, at: nat, frames: nat): Link
    requires at < |l.partial|
  {
    var r := l.partial[at];
    var i := r.identity;
    if !i.kind.StateKind? && Addressed(l, i) && l.out.now + RepairInterval(l, r) < r.expiresAt then
      l.(out := SendControl(l.out, MissingChunks(i.op, i.msgId, MissingFrom(r.chunks, r.count)), i.source, false,
                            |l.pending.m|, frames).0)
    else l.(partial := RemoveAt(l.partial, at))
  }

  /** `expireReassembly` */
  function ReassemblyExpires(l: Link, key: Key, frames: nat): Link {
    var at := Find(l.partial, key);
    if at.None? then l else RepairOrDropAt(l, at.value, frames)
  }

  // ----- settling -----------------------------------------------------------------------------------

  function Unpend(l: Link, id: SettlementId): Link { l.(pending := l.pending.Drop(id)) }

  /** `settleInbound`: the application's verdict on a delivered message. */
  function Settle(l: Link, id: SettlementId, confirmed: bool, frames: nat): (Link, bool) {
    if id !in l.pending.m then (l, false)
    else
      var p := l.pending.m[id];
      var (out, status) := SendControl(l.out, Answer(confirmed, p.op, p.msgId), p.source, true, |l.pending.m|, frames);
      var n := l.(out := out);
      if status.Failed? then (n, false) else (Unpend(RecordSettled(n, id, confirmed, None), id), true)
  }

  predicate MaySettleTogether(l: Link, id: SettlementId, report: Message, dest: Node) {
    && id in l.pending.m && report.TaskReport? && l.pending.m[id].task == Some(report.task)
    && l.out.cfg.node.role.Asset? && l.pending.m[id].source.role.Gateway? && dest == l.pending.m[id].source
  }

  /** Marks the history entry of `id` as settled together with its Task report. */
  function MarkAtomic(settled: seq<Settled>, id: SettlementId, atomic: AtomicTask): seq<Settled> {
    if settled == [] then []
    else
      var last := settled[|settled| - 1];
      MarkAtomic(settled[..|settled| - 1], id, atomic) + [if last.id == id then last.(atomic := Some(atomic)) else last]
  }

  /** The first settlement of a Task delivery together with its report. */
  function SettleFirst(p: Link, id: SettlementId, report: Message, dest: Node, op: OpId, receiptFrames: nat,
                       reportFrames: nat): (Link, bool)
  {
    if !MaySettleTogether(p, id, report, dest) then (p, false)
    else
      var held := p.pending.m[id];
      var (out, ok) := SendReceiptAndReport(p.out, Confirmed(held.op, held.msgId), report, dest, op, |p.pending.m|,
                                            receiptFrames, reportFrames);
      var n := p.(out := out);
      if !ok then (n, false)
      else
        var recorded := Unpend(RecordSettled(n, id, true, None), id);
        (recorded.(settled := MarkAtomic(recorded.settled, id, AtomicTask(report, dest, op))), true)
  }

  /** `settleInboundWithTaskReport` */
  function SettleWithReport(l: Link, id: SettlementId, report: Message, dest: Node, op: OpId, receiptFrames: nat,
                            reportFrames: nat): (Link, bool)
  {
    if l.out.stopped || !report.TaskReport? then (l, false)
    else
      var p := l.(settled := PruneSettled(l.settled, l.out.now));
      var prior := Lookup(p.settled, id);
      if prior.Some? && prior.value.atomic.Some? then (p, prior.value.atomic.value == AtomicTask(report, dest, op))
      else SettleFirst(p, id, report, dest, op, receiptFrames, reportFrames)
  }

  /** `expirePendingInbound` */
  function PendingExpires(l: Link, id: SettlementId, frames: nat): Link {
    if id !in l.pending.m then l
    else
      var p := l.pending.m[id];
      Unpend(RecordSettled(Reply(l, p.source, Rejected(p.op, p.msgId), frames), id, false, None), id)
  }

  /** `announceSourceActivation` */
  function Announce(l: Link, source: Node, generation: nat, session: string, admits: bool, frames: nat): Link {
    if !l.out.cfg.node.role.Gateway? || !source.role.Asset? || generation == 0 then l
    else
      var (n, ok) := ActivateFence(l, source, generation, session, admits);
      if !ok then n
      else n.(out := Submit(n.out, Control(SourceActive(source, generation, session)), None,
                            Activation(source.id, generation), false, |n.pending.m|, frames).0)
  }

  function StopLink(l: Link, refs: seq<nat>): Link {
    if l.out.stopped then l
    else l.(out := Stop(l.out, refs), partial := [], pending := Table(map[]))
  }
}
