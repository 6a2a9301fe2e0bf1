/**
  The sending half of `LinkTransport` (transport.ts) as a state machine over values.  Outbound
  messages are shared by reference between the queue, the tracking maps and the running pump, so
  a message is named here by its index in `heap` and `progress`, which only grow.
  */
module LinkOutbound {
  import opened Wrappers
  import opened LinkTypes

  const COMMITTED_OPERATION_ID_LIMIT: nat := 4096
  const RETENTION_MS: nat := 600_000
  const TASK_RESERVATION_LIMIT: nat := 8192

  datatype Retry = NoRetry | FullRetry | ResumeRetry

  datatype Status = Queued | Sent | ConfirmedStatus | RejectedStatus | Responded | Failed

  // What never changes about a message once it is committed ...
  datatype Outbound = Outbound(message: Message, key: OpId, msgId: nat, sequence: nat, dest: Option<Node>, frames: nat)
  {
    predicate Confirmable() { NeedsConfirmation(message) }
    predicate IsObject() { message.ObjectContent? }
    function Level(): nat { Rank(MessagePriority(message)) }
    function WireOp(): OpId { WireOperation(message, key) }
  }

  // ... and what does: chunks still to send, requeue order and timers.
  datatype Progress = Progress(pending: seq<nat>, started: bool, order: nat, retry: Retry, deadline: bool)

  // The chunk the pump is sending while it waits for the radio; `report` rides along in one frame.
  datatype Transmission = Transmission(ref: nat, chunk: nat, report: Option<nat>, since: nat)

  datatype Expiry = Expiry(op: OpId, at: nat)

  datatype Reservation = Reservation(message: Message, dest: Node, sequence: nat, msgId: nat)

  datatype Config = Config(node: Node, queueLimit: nat, confirmedLimit: nat, reassemblyLimit: nat, reassemblyTimeout: nat,
                           pairReceipts: bool)

  datatype Out = Out(
    cfg: Config,
    now: nat,
    heap: seq<Outbound>,
    progress: seq<Progress>,
    queue: seq<nat>,
    byOperation: Table<OpId, nat>,
    pendingData: Table<OpId, nat>,
    responses: Table<OpId, nat>,
    results: Table<OpId, Status>,
    committed: Table<OpId, Option<nat>>,
    expiries: seq<Expiry>,
    blocked: bool,
    wakeAt: Option<nat>,
    reserved: Table<OpId, Reservation>,
    sequence: nat,
    nextOrder: nat,
    nextId: nat,
    sending: Option<Transmission>,
    requested: bool,
    paused: bool,
    stopped: bool,
    waiters: nat,
    lock: Option<nat>)

  datatype Prepared = Ready(outbound: Outbound, order: nat, replacesFailed: bool) | Existing(status: Status) | Refused

  // How a submission counts towards the shared limits before it is committed.
  datatype Capacity = Capacity(additionalOutbound: int, pendingDelta: int, additionalConfirmed: nat)


  // ----- references ---------------------------------------------------------------------------

  const NO_MESSAGE := Outbound(Subscription(true), Named(""), 0, 0, None, 0)
  const NO_PROGRESS := Progress([], false, 0, NoRetry, false)

  function Get(s: Out, r: nat): Outbound {
    if r < |s.heap| then s.heap[r] else NO_MESSAGE
  }

  function At(s: Out, r: nat): Progress {
    if r < |s.progress| then s.progress[r] else NO_PROGRESS
  }

  function Move(s: Out, r: nat, p: Progress): Out {
    if r < |s.progress| then s.(progress := s.progress[r := p]) else s
  }

  /** `removeAll`: every occurrence of `r` leaves the queue. */
  function Without(q: seq<nat>, r: nat): (rest: seq<nat>)
    ensures forall x :: x in rest <==> x in q && x != r
  {
    if q == [] then [] else
      var rest := Without(q[..|q| - 1], r);
      if q[|q| - 1] == r then rest else rest + [q[|q| - 1]]
  }

  ghost predicate NoDup(q: seq<nat>) {
    forall i, j :: 0 <= i < j < |q| ==> q[i] != q[j]
  }

  function Dequeue(s: Out, r: nat): Out { s.(queue := Without(s.queue, r)) }

  function Enqueue(s: Out, r: nat): Out { s.(queue := s.queue + [r]) }

  function Refs(q: seq<nat>): set<nat> { set r | r in q }

  function Active(s: Out): set<nat> {
    if s.sending.Some? then {s.sending.value.ref} else {}
  }

  function OccupiedBy(queue: seq<nat>, byOperation: map<OpId, nat>, sending: Option<Transmission>): set<nat> {
    Refs(queue) + byOperation.Values + (if sending.Some? then {sending.value.ref} else {})
  }

  function Occupied(s: Out): set<nat> { OccupiedBy(s.queue, s.byOperation.m, s.sending) }

  function AwaitedBy(byOperation: map<OpId, nat>, pendingData: map<OpId, nat>, responses: map<OpId, nat>): set<nat> {
    byOperation.Values + pendingData.Values + responses.Values
  }

  function Awaiting(s: Out): set<nat> { AwaitedBy(s.byOperation.m, s.pendingData.m, s.responses.m) }

  function Tracked(s: Out, r: nat): bool { Get(s, r).key in s.byOperation.m }

  // ----- pump scheduling ------------------------------------------------------------------------

  /** Only the holder of the object lock may move while an object transfer is under way. */
  predicate MayGo(heap: seq<Outbound>, lock: Option<nat>, r: nat) {
    r >= |heap| || !heap[r].IsObject() || lock.None? || lock == Some(heap[r].msgId)
  }

  predicate AnyMayGo(queue: seq<nat>, heap: seq<Outbound>, lock: Option<nat>) {
    exists r :: r in queue && MayGo(heap, lock, r)
  }

  predicate Eligible(s: Out, r: nat) { MayGo(s.heap, s.lock, r) }

  predicate HasEligible(s: Out) { AnyMayGo(s.queue, s.heap, s.lock) }

  function RequestPump(s: Out): Out {
    if s.sending.Some? || s.requested || s.stopped || s.paused then s else s.(requested := true)
  }

  /** What the `finally` block of the pump does. */
  function FinishPump(s: Out): Out {
    var idle := s.(sending := None);
    var next := if !idle.paused && HasEligible(idle) then RequestPump(idle) else idle;
    if next.requested then next else next.(waiters := 0)
  }

  /** The scan gives the free object lock to the first queued object transfer. */
  function FirstObject(s: Out, q: seq<nat>): Option<nat> {
    if q == [] then None else
      var earlier := FirstObject(s, q[..|q| - 1]);
      if earlier.Some? then earlier
      else if Get(s, q[|q| - 1]).IsObject() then Some(Get(s, q[|q| - 1]).msgId) else None
  }

  function ScanLock(s: Out): Out {
    if s.lock.Some? then s else s.(lock := FirstObject(s, s.queue))
  }

  predicate Before(s: Out, a: nat, b: nat) {
    || Get(s, a).Level() < Get(s, b).Level()
    || (Get(s, a).Level() == Get(s, b).Level() && At(s, a).order < At(s, b).order)
  }

  /** Among eligible messages: highest priority, then oldest order; scanned left to right. */
  function Best(s: Out, q: seq<nat>): Option<nat> {
    if q == [] then None else
      var best := Best(s, q[..|q| - 1]);
      var last := q[|q| - 1];
      if !Eligible(s, last) then best
      else if best.None? || Before(s, last, best.value) then Some(last) else best
  }

  predicate PairsWith(s: Out, receipt: nat, report: nat, fits: nat -> bool) {
    var o := Get(s, report);
    && !At(s, report).started && o.Confirmable() && o.message.TaskReport? && o.frames == 1
    && o.dest.Some? && o.dest == Get(s, receipt).dest && fits(report)
  }

  function FirstPair(s: Out, receipt: nat, q: seq<nat>, fits: nat -> bool): Option<nat> {
    if q == [] then None else
      var earlier := FirstPair(s, receipt, q[..|q| - 1], fits);
      if earlier.Some? then earlier
      else if PairsWith(s, receipt, q[|q| - 1], fits) then Some(q[|q| - 1]) else None
  }

  predicate IsReceipt(o: Outbound) {
    o.message.Control? && o.message.control.Confirmed? && o.frames == 1 && o.dest.Some?
  }

  /** A confirmed-control frame takes the first compatible queued Task report along with it. */
  function ReceiptPair(s: Out, receipt: nat, fits: nat -> bool): Option<nat> {
    if s.cfg.pairReceipts && IsReceipt(Get(s, receipt)) then FirstPair(s, receipt, s.queue, fits) else None
  }

  function TakeReport(s: Out, report: Option<nat>): Out {
    if report.None? then s else
      Move(Dequeue(s, report.value), report.value, At(s, report.value).(started := true, pending := []))
  }

  function ReleaseLock(s: Out, r: nat): Out {
    if s.lock == Some(Get(s, r).msgId) then s.(lock := None) else s
  }

  /** The pump takes the first message in line and hands its next chunk to the radio. */
  function PumpQueued(s: Out, fits: nat -> bool): Out {
    var scanned := ScanLock(s);
    var pick := Best(scanned, scanned.queue);
    if pick.None? then FinishPump(scanned)
    else
      var r := pick.value;
      var p := At(scanned, r);
      var taken := Dequeue(scanned, r);
      if p.pending == [] then FinishPump(ReleaseLock(taken, r))
      else
        var begun := Move(taken, r, p.(pending := p.pending[1..], started := true));
        var report := ReceiptPair(begun, r, fits);
        TakeReport(begun, report).(sending := Some(Transmission(r, p.pending[0], report, s.now)))
  }

  /** The pump timer fires; `fits` says which queued reports fit into one frame with the receipt. */
  function PumpFires(s: Out, fits: nat -> bool): Out {
    var woken := s.(requested := false);
    if s.paused || s.stopped then woken.(waiters := 0)
    else if s.sending.Some? then woken
    else PumpQueued(woken, fits)
  }

  function AllChunks(n: nat): seq<nat> { seq(n, i => i) }

  /** Best effort is done; a confirmed message waits for its receipt under a retry timer. */
  function AfterAllChunks(s: Out, r: nat): Out {
    var o := Get(s, r);
    var released := if o.IsObject() then ReleaseLock(s, r) else s;
    if !o.Confirmable() then released.(results := released.results.Put(o.key, Sent))
    else Move(released, r, At(released, r).(retry := FullRetry))
  }

  function FailBestEffort(s: Out, r: nat): Out {
    var o := Get(s, r);
    ReleaseLock(Dequeue(s, r), r).(results := s.results.Put(o.key, Failed))
  }

  function FinishPair(s: Out, t: Transmission): Out
    requires t.report.Some?
  {
    var sent := AfterAllChunks(s, t.ref);
    if Tracked(sent, t.report.value) then AfterAllChunks(sent, t.report.value) else sent
  }

  function Defer(s: Out, r: nat, chunks: seq<nat>): Out {
    Move(s, r, At(s, r).(pending := chunks, retry := ResumeRetry))
  }

  function PairFailed(s: Out, t: Transmission): Out
    requires t.report.Some?
  {
    var deferred := if Tracked(s, t.report.value) then Defer(s, t.report.value, [0]) else s;
    ReturnReceipt(deferred, t.ref)
  }

  /** The receipt goes to the back of the queue to be sent again. */
  function ReturnReceipt(s: Out, r: nat): Out {
    RequestPump(Enqueue(Move(s, r, At(s, r).(pending := [0], order := s.nextOrder)).(nextOrder := s.nextOrder + 1), r))
  }

  /** The radio accepted (`ok`) or refused the chunk the pump was waiting for. */
  function PumpEnds(s: Out, ok: bool): Out
    requires s.sending.Some?
  {
    var t := s.sending.value;
    var o := Get(s, t.ref);
    FinishPump(
      if s.stopped then s
      else if t.report.Some? then if ok then FinishPair(s, t) else PairFailed(s, t)
      else if !ok then
        if !o.Confirmable() then FailBestEffort(s, t.ref)
        else if Tracked(s, t.ref) then Defer(s, t.ref, [t.chunk] + At(s, t.ref).pending)
        else s
      else if o.Confirmable() && !Tracked(s, t.ref) then s
      else if At(s, t.ref).pending != [] then Enqueue(s, t.ref)
      else AfterAllChunks(s, t.ref))
  }

  /** Moves `r` to the back of the queue unless the pump is sending it. */
  function Requeue(s: Out, r: nat): Out {
    var removed := Dequeue(s, r);
    if r in Active(s) then removed else RequestPump(Enqueue(removed, r))
  }

  function RetryFires(s: Out, r: nat): Out {
    var p := At(s, r);
    if p.retry.NoRetry? then s
    else if !Tracked(s, r) || s.stopped then Move(s, r, p.(retry := NoRetry))
    else
      var chunks := if p.retry.FullRetry? then AllChunks(Get(s, r).frames) else p.pending;
      Requeue(Move(s, r, p.(retry := NoRetry, pending := chunks, order := s.nextOrder)).(nextOrder := s.nextOrder + 1), r)
  }

  // ----- identity history -----------------------------------------------------------------------

  function Unexpired(expiries: seq<Expiry>, now: nat): seq<Expiry> {
    if expiries == [] || expiries[0].at > now then expiries else Unexpired(expiries[1..], now)
  }

  function Forget(committed: Table<OpId, Option<nat>>, e: Expiry): Table<OpId, Option<nat>> {
    if e.op in committed.m && committed.m[e.op] == Some(e.at) then committed.Drop(e.op) else committed
  }

  function Remembered(committed: Table<OpId, Option<nat>>, expiries: seq<Expiry>, now: nat): Table<OpId, Option<nat>>
    decreases |expiries|
  {
    if expiries == [] || expiries[0].at > now then committed
    else Remembered(Forget(committed, expiries[0]), expiries[1..], now)
  }

  /** Expired completed identities leave the history from the front of the expiry queue. */
  function Prune(s: Out): Out {
    s.(expiries := Unexpired(s.expiries, s.now), committed := Remembered(s.committed, s.expiries, s.now))
  }

  function ScheduleWake(s: Out): Out {
    if !s.blocked || s.stopped || s.expiries == [] then s
    else if s.wakeAt.Some? && s.wakeAt.value <= s.expiries[0].at then s
    else s.(wakeAt := Some(s.expiries[0].at))
  }

  function WakeFires(s: Out): Out {
    if s.wakeAt.None? then s else Prune(s.(wakeAt := None)).(blocked := false)
  }

  function RetainCompleted(s: Out, op: OpId): Out {
    if op !in s.committed.m then s
    else
      var at := s.now + RETENTION_MS;
      var kept := s.(committed := s.committed.Put(op, Some(at)), expiries := s.expiries + [Expiry(op, at)]);
      if s.blocked then ScheduleWake(kept) else kept
  }

  // ----- completion -----------------------------------------------------------------------------

  function ForgetData(pendingData: Table<OpId, nat>, m: Message, r: nat): Table<OpId, nat> {
    if m.DataRequest? && m.id in pendingData.m && pendingData.m[m.id] == r then pendingData.Drop(m.id) else pendingData
  }

  function Quiet(s: Out, r: nat): seq<Progress> {
    Move(s, r, At(s, r).(retry := NoRetry, deadline := false)).progress
  }

  /** `r` leaves the queue, its timers, the object lock and the tracking maps. */
  function Leave(s: Out, r: nat, status: Status): Out {
    var o := Get(s, r);
    s.(queue := Without(s.queue, r),
       progress := Quiet(s, r),
       byOperation := s.byOperation.Drop(o.key),
       pendingData := ForgetData(s.pendingData, o.message, r),
       responses := if status.ConfirmedStatus? then s.responses else s.responses.Drop(o.key),
       lock := if s.lock == Some(o.msgId) then None else s.lock)
  }

  /** `completeOutbound`: a terminal outcome for a confirmed operation. */
  function Complete(s: Out, r: nat, status: Status): Out {
    var key := Get(s, r).key;
    var done := RetainCompleted(Leave(s, r, status), key);
    var recorded := done.(results := done.results.Put(key, status));
    if s.lock == Some(Get(s, r).msgId) && HasEligible(recorded) then RequestPump(recorded) else recorded
  }

  /** The receiver confirmed a request whose answer is still to come. */
  function ConfirmAwaitingResponse(s: Out, r: nat): Out {
    var o := Get(s, r);
    s.(queue := Without(s.queue, r),
       progress := Move(s, r, At(s, r).(retry := NoRetry)).progress,
       byOperation := s.byOperation.Drop(o.key),
       results := s.results.Put(o.key, ConfirmedStatus))
  }

  function LeaveAnswered(s: Out, r: nat, request: OpId): Out {
    var key := Get(s, r).key;
    s.(queue := Without(s.queue, r),
       progress := Quiet(s, r),
       byOperation := s.byOperation.Drop(key),
       pendingData := s.pendingData.Drop(request),
       responses := s.responses.Drop(key))
  }

  /** `completeDataRequest`: the awaited answer arrived. */
  function CompleteWithResponse(s: Out, r: nat, request: OpId): Out {
    var key := Get(s, r).key;
    var done := RetainCompleted(LeaveAnswered(s, r, request), key);
    done.(results := done.results.Put(key, Responded))
  }

  function DeadlineFires(s: Out, r: nat): Out {
    var o := Get(s, r);
    var awaitingResponse :=
      || (o.message.DataRequest? && o.message.id in s.pendingData.m && s.pendingData.m[o.message.id] == r)
      || (o.key in s.responses.m && s.responses.m[o.key] == r);
    if !At(s, r).deadline then s
    else if !Tracked(s, r) && !awaitingResponse then Move(s, r, At(s, r).(deadline := false))
    else Complete(s, r, Failed)
  }

  // ----- submission -----------------------------------------------------------------------------

  function Coalescable(s: Out, q: seq<nat>, resource: string): Option<nat> {
    if q == [] then None else
      var earlier := Coalescable(s, q[..|q| - 1], resource);
      var o := Get(s, q[|q| - 1]);
      if earlier.Some? then earlier
      else if !At(s, q[|q| - 1]).started && o.message.State? && o.message.resource == resource then Some(q[|q| - 1]) else None
  }

  function Replaceable(s: Out, m: Message): Option<nat> {
    if m.State? then Coalescable(s, s.queue, m.resource) else None
  }

  function DefaultCapacity(m: Message): Capacity { Capacity(1, 0, if NeedsConfirmation(m) then 1 else 0) }

  predicate QueueFull(s: Out, m: Message, useReservation: bool, capacity: Capacity, pendingInbound: nat) {
    var occupied := |Occupied(s)|;
    if useReservation then occupied >= s.cfg.queueLimit + s.cfg.confirmedLimit
    else occupied + capacity.additionalOutbound - (if Replaceable(s, m).Some? then 1 else 0)
         + pendingInbound + capacity.pendingDelta > s.cfg.queueLimit
  }

  /** `prepareOutbound`, in the order of its checks; `frames == 0` stands for a framing failure. */
  function Prepare(s: Out, m: Message, dest: Option<Node>, op: OpId, useReservation: bool, capacity: Capacity,
                   sequence: nat, held: Option<Reservation>, pendingInbound: nat, frames: nat): (Out, Prepared)
  {
    if s.stopped || !ValidStateSource(m, s.cfg.node) || (NeedsConfirmation(m) && dest.None?)
       || (m.DataRequest? && m.id != op) then (s, Refused)
    else Admit(Prune(s), m, dest, op, useReservation, capacity, sequence, held, pendingInbound, frames)
  }

  /** The identity, capacity and framing checks, once expired identities are gone. */
  function Admit(p: Out, m: Message, dest: Option<Node>, op: OpId, useReservation: bool, capacity: Capacity,
                 sequence: nat, held: Option<Reservation>, pendingInbound: nat, frames: nat): (Out, Prepared)
  {
    var confirmable := NeedsConfirmation(m);
    var prior := if op in p.results.m then Some(p.results.m[op]) else None;
    if op in p.reserved.m && held != Some(p.reserved.m[op]) then (p, Refused)
    else if prior.Some? && (prior.value != Failed || op in p.committed.m) then (p, Existing(prior.value))
    else if op in p.committed.m then (p, Refused)
    else if confirmable && |p.committed.m| + capacity.additionalConfirmed > COMMITTED_OPERATION_ID_LIMIT then
      (ScheduleWake(p.(blocked := true)), Refused)
    else if m.DataRequest? && m.id in p.pendingData.m then (p, Refused)
    else if confirmable && |Awaiting(p)| + capacity.additionalConfirmed > p.cfg.confirmedLimit then (p, Refused)
    else
      var msgId := if held.Some? then held.value.msgId else p.nextId;
      var nextId := if held.Some? then p.nextId else p.nextId + 1;
      if frames == 0 || QueueFull(p, m, useReservation, capacity, pendingInbound) then (p.(nextId := nextId), Refused)
      else (p.(nextId := nextId, nextOrder := p.nextOrder + 1),
            Ready(Outbound(m, op, msgId, sequence, dest, frames), p.nextOrder, prior == Some(Failed)))
  }

  function Max(a: nat, b: nat): nat { if a < b then b else a }

  function RemoveFrom(q: seq<nat>, r: Option<nat>): (rest: seq<nat>)
    ensures forall x :: x in rest <==> x in q && Some(x) != r
  { if r.Some? then Without(q, r.value) else q }

  function PutIf<V>(here: bool, m: Table<OpId, V>, k: OpId, v: V): Table<OpId, V> { if here then m.Put(k, v) else m }

  /** The outcomes on record once `o` replaces a failed attempt and a queued, unsent publication. */
  function ResultsAfter(s: Out, o: Outbound, replacesFailed: bool): Table<OpId, Status> {
    var kept := if replacesFailed then s.results.Drop(o.key) else s.results;
    var previous := Replaceable(s, o.message);
    if previous.Some? then kept.Put(Get(s, previous.value).key, Failed) else kept
  }

  /** `commitOutbound` without recording the result and waking the pump, which callers may postpone. */
  function Commit(s: Out, o: Outbound, order: nat, replacesFailed: bool): Out {
    var r := |s.heap|;
    s.(sequence := Max(s.sequence, o.sequence),
       heap := s.heap + [o],
       progress := s.progress + [Progress(AllChunks(o.frames), false, order, NoRetry, o.Confirmable())],
       queue := RemoveFrom(s.queue, Replaceable(s, o.message)) + [r],
       results := ResultsAfter(s, o, replacesFailed),
       reserved := s.reserved.Drop(o.key),
       committed := PutIf(o.Confirmable(), s.committed, o.key, None),
       byOperation := PutIf(o.Confirmable(), s.byOperation, o.key, r),
       pendingData := PutIf(o.message.DataRequest?, s.pendingData, o.key, r),
       responses := PutIf(o.message.ResourceOperation?, s.responses, o.key, r))
  }

  function Record(s: Out, op: OpId, status: Status): Out { s.(results := s.results.Put(op, status)) }

  function SubmitPrepared(s: Out, op: OpId, p: Prepared): (Out, Status) {
    match p
    case Existing(status) => (s, status)
    case Refused => (Record(s, op, Failed), Failed)
    case Ready(o, order, replacesFailed) =>
      (RequestPump(Record(Commit(s, o, order, replacesFailed), op, Queued)), Queued)
  }

  /** `submitWithCapacity` for a message with no reserved identity. */
  function Submit(s: Out, m: Message, dest: Option<Node>, op: OpId, useReservation: bool,
                  pendingInbound: nat, frames: nat): (Out, Status)
  {
    var (p, prepared) := Prepare(s, m, dest, op, useReservation, DefaultCapacity(m), s.sequence + 1, None,
                                 pendingInbound, frames);
    SubmitPrepared(p, op, prepared)
  }

  /** `reserveTaskDelivery`: numbers are set aside for a Task delivery; `frames == 0` stands for a framing failure. */
  function Reserve(s: Out, m: Message, dest: Node, op: OpId, frames: nat): (Out, bool) {
    if s.stopped || !m.TaskDelivery? then (s, false)
    else if frames == 0 then (s.(nextId := s.nextId + 1), false)
    else
      var p := Prune(s.(nextId := s.nextId + 1));
      if op in p.reserved.m || op in p.committed.m || (op in p.results.m && p.results.m[op] != Failed)
         || |p.reserved.m| >= TASK_RESERVATION_LIMIT then (p, false)
      else
        (p.(sequence := p.sequence + 1,
            reserved := p.reserved.Put(op, Reservation(m, dest, p.sequence + 1, s.nextId))), true)
  }

  function DispatchReserved(s: Out, op: OpId, pendingInbound: nat, frames: nat): (Out, Status) {
    if op !in s.reserved.m then (s, Failed)
    else
      var held := s.reserved.m[op];
      var (p, prepared) := Prepare(s, held.message, Some(held.dest), op, false, DefaultCapacity(held.message),
                                   held.sequence, Some(held), pendingInbound, frames);
      SubmitPrepared(p, op, prepared)
  }

  function CancelReservation(s: Out, op: OpId): Out { s.(reserved := s.reserved.Drop(op)) }

  function SendControl(s: Out, c: ControlKind, dest: Node, useReservation: bool, pendingInbound: nat, frames: nat)
    : (Out, Status)
  {
    Submit(s.(nextId := s.nextId + 1), Control(c), Some(dest), Drawn(s.nextId), useReservation, pendingInbound, frames)
  }

  const RECEIPT_CAPACITY := Capacity(0, -1, 0)
  const REPORT_CAPACITY := Capacity(2, -1, 1)

  /**
    `settleInboundWithTaskReport`: the receipt and the Task report are both prepared before either is
    committed, so they are accepted together or not at all.
    */
  function SendReceiptAndReport(s: Out, receipt: ControlKind, report: Message, dest: Node, op: OpId,
                                pendingInbound: nat, receiptFrames: nat, reportFrames: nat): (Out, bool)
  {
    var key := Drawn(s.nextId);
    var (a, first) := Prepare(s.(nextId := s.nextId + 1), Control(receipt), Some(dest), key, false, RECEIPT_CAPACITY,
                              s.sequence + 1, None, pendingInbound, receiptFrames);
    if !first.Ready? then (a, false)
    else
      var (b, second) := Prepare(a, report, Some(dest), op, false, REPORT_CAPACITY, s.sequence + 2, None,
                                 pendingInbound, reportFrames);
      if !second.Ready? then (b, false)
      else
        var both := Commit(Commit(b, first.outbound, first.order, first.replacesFailed),
                           second.outbound, second.order, second.replacesFailed);
        (RequestPump(Record(Record(both, key, Queued), op, Queued)), true)
  }

  // ----- control messages that concern a sent operation -----------------------------------------

  predicate Answers(o: Outbound, from: Node, op: OpId, msgId: nat) {
    o.WireOp() == op && o.dest == Some(from) && o.msgId == msgId
  }

  predicate AnswerFound(s: Out, r: nat, from: Node, op: OpId, msgId: nat) {
    r in s.byOperation.m.Values && Answers(Get(s, r), from, op, msgId)
  }

  function Present(frames: nat, chunks: seq<nat>): seq<nat> {
    if chunks == [] then [] else
      var rest := Present(frames, chunks[..|chunks| - 1]);
      if chunks[|chunks| - 1] < frames then rest + [chunks[|chunks| - 1]] else rest
  }

  function RepairChunks(s: Out, r: nat, chunks: seq<nat>): Out {
    var missing := Present(Get(s, r).frames, chunks);
    if missing == [] then Move(s, r, At(s, r).(pending := [], retry := FullRetry))
    else Requeue(Move(s, r, At(s, r).(pending := missing, retry := NoRetry)), r)
  }

  /** `handleControl` once the addressed operation is found. */
  function ApplyAnswer(s: Out, r: nat, c: ControlKind): Out {
    var m := Get(s, r).message;
    match c
    case MissingChunks(_, _, chunks) => RepairChunks(s, r, chunks)
    case Confirmed(_, _) =>
      if m.DataRequest? || m.ResourceOperation? then ConfirmAwaitingResponse(s, r) else Complete(s, r, ConfirmedStatus)
    case Rejected(_, _) => Complete(s, r, RejectedStatus)
    case SourceActive(_, _, _) => s
  }

  function Cancellable(s: Out, op: OpId): Option<nat> {
    if op in s.byOperation.m then Some(s.byOperation.m[op])
    else if op in s.responses.m then Some(s.responses.m[op])
    else if op in s.pendingData.m then Some(s.pendingData.m[op])
    else None
  }

  function Cancel(s: Out, op: OpId): Out {
    if Cancellable(s, op).Some? then Complete(s, Cancellable(s, op).value, Failed) else s
  }

  // ----- lifecycle ------------------------------------------------------------------------------

  function Pause(s: Out): Out {
    if s.stopped then s
    else
      var held := s.(paused := true, requested := false);
      if s.sending.Some? then held.(waiters := held.waiters + 1) else held
  }

  function Resume(s: Out): Out {
    if s.stopped then s
    else if HasEligible(s) then RequestPump(s.(paused := false)) else s.(paused := false)
  }

  /** Every operation still under way ends in failure when the service stops. */
  function FailAll(s: Out, refs: seq<nat>): Out {
    if refs == [] then s else
      var earlier := FailAll(s, refs[..|refs| - 1]);
      var r := refs[|refs| - 1];
      if Get(s, r).Confirmable() then Complete(earlier, r, Failed) else FailBestEffort(earlier, r)
  }

  /** `refs` lists the queued, tracked and active messages, in the order `stop` visits them. */
  function Stop(s: Out, refs: seq<nat>): Out {
    if s.stopped then s
    else
      var closing := s.(stopped := true, paused := true, requested := false, reserved := Table(map[]),
                        wakeAt := None, blocked := false);
      var failed := FailAll(closing, refs);
      failed.(queue := [], responses := Table(map[]), waiters := if s.sending.None? then 0 else s.waiters)
  }
}
