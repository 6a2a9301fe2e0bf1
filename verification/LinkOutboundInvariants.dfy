/** What every step of the sending half keeps. */
module LinkOutboundInvariants {
  import opened Wrappers
  import opened LinkTypes
  import opened LinkOutbound

  // Each part of the invariant speaks of the fields it needs, so a step that leaves them alone keeps it.

  ghost predicate HeapOk(heap: seq<Outbound>, nextId: nat, sequence: nat) {
    && (forall r :: 0 <= r < |heap| ==> heap[r].msgId < nextId && heap[r].frames > 0 && heap[r].sequence <= sequence)
    && (forall q, r :: 0 <= q < r < |heap| ==> heap[q].msgId != heap[r].msgId && heap[q].sequence != heap[r].sequence)
  }

  ghost predicate ProgressOk(heap: seq<Outbound>, progress: seq<Progress>, nextOrder: nat) {
    && |progress| == |heap|
    && (forall r :: 0 <= r < |heap| ==> progress[r].order < nextOrder)
    && (forall r, c :: 0 <= r < |heap| && c in progress[r].pending ==> c < heap[r].frames)
  }

  ghost predicate ReservedOk(reserved: map<OpId, Reservation>, heap: seq<Outbound>, committed: map<OpId, Option<nat>>,
                             nextId: nat, sequence: nat)
  {
    && (forall k :: k in reserved ==>
          reserved[k].msgId < nextId && reserved[k].sequence <= sequence && k !in committed
          && reserved[k].message.TaskDelivery?)
    && (forall k, r :: k in reserved && 0 <= r < |heap| ==>
          reserved[k].msgId != heap[r].msgId && reserved[k].sequence != heap[r].sequence)
    && (forall j, k :: j in reserved && k in reserved && j != k ==>
          reserved[j].msgId != reserved[k].msgId && reserved[j].sequence != reserved[k].sequence)
    && |reserved| <= TASK_RESERVATION_LIMIT
  }

  ghost predicate Held(committed: map<OpId, Option<nat>>, k: OpId) { k in committed && committed[k] == None }

  /** Each map entry is about a message of that identity, whose identity is held. */
  ghost predicate OwnersOk(heap: seq<Outbound>, byOperation: map<OpId, nat>, pendingData: map<OpId, nat>,
                           responses: map<OpId, nat>, committed: map<OpId, Option<nat>>)
  {
    && (forall k :: k in byOperation ==>
          byOperation[k] < |heap| && heap[byOperation[k]].key == k && heap[byOperation[k]].Confirmable()
          && Held(committed, k))
    && (forall k :: k in pendingData ==>
          pendingData[k] < |heap| && heap[pendingData[k]].key == k && heap[pendingData[k]].message.DataRequest?
          && heap[pendingData[k]].message.id == k && Held(committed, k))
    && (forall k :: k in responses ==>
          responses[k] < |heap| && heap[responses[k]].key == k && heap[responses[k]].message.ResourceOperation?
          && Held(committed, k))
  }

  /** The three maps agree on who owns an identity, and a request is tracked for its answer too. */
  ghost predicate AgreeOk(heap: seq<Outbound>, byOperation: map<OpId, nat>, pendingData: map<OpId, nat>,
                          responses: map<OpId, nat>)
  {
    && (forall k :: k in byOperation && k in pendingData ==> byOperation[k] == pendingData[k])
    && (forall k :: k in byOperation && k in responses ==> byOperation[k] == responses[k])
    && (forall k :: k in pendingData ==> k !in responses)
    && (forall k :: k in byOperation && byOperation[k] < |heap| && heap[byOperation[k]].message.DataRequest? ==> k in pendingData)
    && (forall k :: k in byOperation && byOperation[k] < |heap| && heap[byOperation[k]].message.ResourceOperation? ==> k in responses)
  }

  ghost predicate MapsOk(heap: seq<Outbound>, byOperation: map<OpId, nat>, pendingData: map<OpId, nat>,
                         responses: map<OpId, nat>, committed: map<OpId, Option<nat>>)
  {
    OwnersOk(heap, byOperation, pendingData, responses, committed) && AgreeOk(heap, byOperation, pendingData, responses)
  }

  ghost predicate QueueOk(queue: seq<nat>, heap: seq<Outbound>, byOperation: map<OpId, nat>) {
    && NoDup(queue)
    && (forall r :: r in queue ==> r < |heap|)
    && (forall r :: r in queue && heap[r].Confirmable() ==>
          heap[r].key in byOperation && byOperation[heap[r].key] == r)
  }

  /** While the radio works on `r` its identity stays fenced, so nothing else can take it over. */
  ghost predicate SendFenced(r: nat, since: nat, heap: seq<Outbound>, byOperation: map<OpId, nat>,
                             pendingData: map<OpId, nat>, responses: map<OpId, nat>, committed: map<OpId, Option<nat>>)
  {
    && r < |heap|
    && (heap[r].Confirmable() ==>
          var k := heap[r].key;
          && k in committed
          && (committed[k].Some? ==> committed[k].value >= since + RETENTION_MS)
          && (k in byOperation ==> byOperation[k] == r)
          && (k in pendingData ==> pendingData[k] == r)
          && (k in responses ==> responses[k] == r))
  }

  ghost predicate SendingShape(sending: Option<Transmission>, queue: seq<nat>, heap: seq<Outbound>, now: nat) {
    sending.Some? ==>
      var t := sending.value;
      && t.ref < |heap| && t.ref !in queue && t.chunk < heap[t.ref].frames && t.since <= now < t.since + RETENTION_MS
      && (t.report.Some? ==>
            && t.report.value < |heap| && t.report.value != t.ref && IsReceipt(heap[t.ref])
            && heap[t.report.value].message.TaskReport? && heap[t.report.value].frames == 1)
  }

  ghost predicate SendingFenced(sending: Option<Transmission>, heap: seq<Outbound>, byOperation: map<OpId, nat>,
                                pendingData: map<OpId, nat>, responses: map<OpId, nat>, committed: map<OpId, Option<nat>>)
  {
    sending.Some? ==>
      && SendFenced(sending.value.ref, sending.value.since, heap, byOperation, pendingData, responses, committed)
      && (sending.value.report.Some? ==>
            SendFenced(sending.value.report.value, sending.value.since, heap, byOperation, pendingData, responses, committed))
  }

  /** The object lock belongs to an operation that is still tracked. */
  ghost predicate LockHeld(lock: Option<nat>, heap: seq<Outbound>, byOperation: map<OpId, nat>) {
    lock.Some? ==> exists k :: k in byOperation && byOperation[k] < |heap| && heap[byOperation[k]].IsObject()
                               && heap[byOperation[k]].msgId == lock.value
  }

  ghost predicate InFlight(sending: Option<Transmission>, r: nat) {
    sending.Some? && (sending.value.ref == r || sending.value.report == Some(r))
  }

  /** `r` is queued, being sent, or has a retry timer running. */
  ghost predicate Moving(r: nat, progress: seq<Progress>, queue: seq<nat>, sending: Option<Transmission>) {
    r in queue || InFlight(sending, r) || (r < |progress| && progress[r].retry != NoRetry)
  }

  /** Exactly the operations under way have a deadline timer and, until confirmed, each has a next action. */
  ghost predicate NoneForgotten(progress: seq<Progress>, queue: seq<nat>, sending: Option<Transmission>,
                                byOperation: map<OpId, nat>, pendingData: map<OpId, nat>, responses: map<OpId, nat>)
  {
    && (forall k :: k in byOperation ==>
          byOperation[k] < |progress| && progress[byOperation[k]].deadline && Moving(byOperation[k], progress, queue, sending))
    && (forall k :: k in pendingData ==> pendingData[k] < |progress| && progress[pendingData[k]].deadline)
    && (forall k :: k in responses ==> responses[k] < |progress| && progress[responses[k]].deadline)
    && (forall r :: 0 <= r < |progress| && progress[r].deadline ==> r in AwaitedBy(byOperation, pendingData, responses))
  }

  /** Retry timers belong to tracked operations, and a message with nothing left to send is waiting for one. */
  ghost predicate TimersOk(progress: seq<Progress>, queue: seq<nat>, sending: Option<Transmission>,
                           byOperation: map<OpId, nat>)
  {
    && (forall r :: 0 <= r < |progress| && progress[r].retry != NoRetry ==> r in byOperation.Values)
    && (forall r :: r in queue && r < |progress| && progress[r].pending == [] ==> progress[r].retry == FullRetry)
    && (forall r :: 0 <= r < |progress| && progress[r].retry == ResumeRetry && progress[r].pending == [] ==>
          sending.Some? && sending.value.ref == r)
    && (forall r :: 0 <= r < |progress| && (progress[r].retry == ResumeRetry || InFlight(sending, r)) ==>
          progress[r].started)
  }

  ghost predicate FlagsOk(requested: bool, sending: Option<Transmission>, paused: bool, stopped: bool) {
    requested ==> sending.None? && !paused && !stopped
  }

  /** No lost wakeup. */
  ghost predicate Awake(s: Out) {
    !s.paused && !s.stopped && HasEligible(s) ==> s.sending.Some? || s.requested
  }

  ghost predicate WithinLimits(s: Out) {
    && |Occupied(s)| <= s.cfg.queueLimit + s.cfg.confirmedLimit
    && |Awaiting(s)| <= s.cfg.confirmedLimit
    && |s.committed.m| <= COMMITTED_OPERATION_ID_LIMIT
  }

  ghost predicate ExpiriesOk(committed: map<OpId, Option<nat>>, expiries: seq<Expiry>, now: nat) {
    && (forall k :: k in committed && committed[k].Some? ==> Expiry(k, committed[k].value) in expiries)
    && (forall i, j :: 0 <= i < j < |expiries| ==> expiries[i].at <= expiries[j].at)
    && (forall e :: e in expiries ==> e.at <= now + RETENTION_MS)
  }

  /** A caller turned away for want of identities will be woken. */
  ghost predicate WakeOk(blocked: bool, expiries: seq<Expiry>, wakeAt: Option<nat>, stopped: bool) {
    && (blocked && expiries != [] ==> wakeAt.Some? && wakeAt.value <= expiries[0].at)
    && (blocked ==> !stopped)
  }

  ghost predicate StoppedOk(stopped: bool, queue: seq<nat>, byOperation: map<OpId, nat>, pendingData: map<OpId, nat>,
                            responses: map<OpId, nat>)
  {
    stopped ==> queue == [] && byOperation == map[] && pendingData == map[] && responses == map[]
  }

  ghost predicate Linked(s: Out) {
    && HeapOk(s.heap, s.nextId, s.sequence)
    && ProgressOk(s.heap, s.progress, s.nextOrder)
    && ReservedOk(s.reserved.m, s.heap, s.committed.m, s.nextId, s.sequence)
    && MapsOk(s.heap, s.byOperation.m, s.pendingData.m, s.responses.m, s.committed.m)
    && QueueOk(s.queue, s.heap, s.byOperation.m)
    && SendingShape(s.sending, s.queue, s.heap, s.now)
    && SendingFenced(s.sending, s.heap, s.byOperation.m, s.pendingData.m, s.responses.m, s.committed.m)
    && LockHeld(s.lock, s.heap, s.byOperation.m)
    && NoneForgotten(s.progress, s.queue, s.sending, s.byOperation.m, s.pendingData.m, s.responses.m)
    && TimersOk(s.progress, s.queue, s.sending, s.byOperation.m)
    && FlagsOk(s.requested, s.sending, s.paused, s.stopped)
    && ExpiriesOk(s.committed.m, s.expiries, s.now)
    && WakeOk(s.blocked, s.expiries, s.wakeAt, s.stopped)
  }

  /** Everything but the limits and the wakeup. */
  ghost predicate Consistent(s: Out) {
    Linked(s) && StoppedOk(s.stopped, s.queue, s.byOperation.m, s.pendingData.m, s.responses.m)
  }

  ghost predicate Inv(s: Out) { Consistent(s) && WithinLimits(s) && Awake(s) }

  // ----- limits -----------------------------------------------------------------------------------

  /** Nothing the limits count grew. */
  ghost predicate Shrinks(s: Out, n: Out) {
    && n.cfg == s.cfg && Occupied(n) <= Occupied(s) && Awaiting(n) <= Awaiting(s) && n.committed.m.Keys <= s.committed.m.Keys
  }

  lemma ShrinkKeepsLimits(s: Out, n: Out)
    requires WithinLimits(s) && Shrinks(s, n)
    ensures WithinLimits(n)
  {
    SubsetCard(Occupied(n), Occupied(s));
    SubsetCard(Awaiting(n), Awaiting(s));
    SubsetCard(n.committed.m.Keys, s.committed.m.Keys);
    assert |n.committed.m| == |n.committed.m.Keys| && |s.committed.m| == |s.committed.m.Keys|;
  }

  // ----- primitive changes ----------------------------------------------------------------------

  lemma {:induction false} WithoutNoDup(q: seq<nat>, r: nat)
    requires NoDup(q)
    ensures NoDup(Without(q, r))
  {
    if q != [] {
      WithoutNoDup(q[..|q| - 1], r);
      assert q[|q| - 1] !in q[..|q| - 1];
    }
  }

  lemma DequeueKeeps(s: Out, r: nat)
    requires Consistent(s)
    requires r in s.byOperation.m.Values ==> InFlight(s.sending, r) || At(s, r).retry != NoRetry
    ensures Consistent(Dequeue(s, r)) && Shrinks(s, Dequeue(s, r))
  {
    hide HeapOk, ProgressOk, ReservedOk, MapsOk, SendingFenced, LockHeld, FlagsOk, ExpiriesOk, WakeOk, AwaitedBy;
    WithoutNoDup(s.queue, r);
    assert QueueOk(Dequeue(s, r).queue, s.heap, s.byOperation.m);
  }

  lemma EnqueueKeeps(s: Out, r: nat)
    requires Consistent(s) && !s.stopped && At(s, r).pending != [] && r < |s.heap| && r !in s.queue && r !in Active(s)
    requires s.heap[r].Confirmable() ==> s.heap[r].key in s.byOperation.m && s.byOperation.m[s.heap[r].key] == r
    ensures Consistent(Enqueue(s, r))
  {
    hide HeapOk, ProgressOk, ReservedOk, MapsOk, SendingFenced, LockHeld, FlagsOk, ExpiriesOk, WakeOk;
  }

  lemma RequestKeeps(s: Out)
    requires Consistent(s)
    ensures Consistent(RequestPump(s)) && Shrinks(s, RequestPump(s)) && Awake(RequestPump(s))
  {
    var n := RequestPump(s);
    assert n.paused || n.stopped || n.sending.Some? || n.requested;
    assert n == s || n == s.(requested := true);
  }

  lemma MoveKeeps(s: Out, r: nat, p: Progress)
    requires Consistent(s) && r < |s.heap| && p.order < s.nextOrder
    requires forall c :: c in p.pending ==> c < s.heap[r].frames
    requires s.progress[r].deadline == p.deadline
    requires p.retry != NoRetry ==> r in s.byOperation.m.Values
    requires r in s.queue && p.pending == [] ==> p.retry == FullRetry
    requires p.retry == ResumeRetry && p.pending == [] ==> r in Active(s)
    requires s.progress[r].started ==> p.started
    requires p.retry == ResumeRetry ==> p.started
    requires r in s.byOperation.m.Values ==> r in s.queue || InFlight(s.sending, r) || p.retry != NoRetry
    ensures Consistent(Move(s, r, p)) && Shrinks(s, Move(s, r, p))
    ensures HasEligible(Move(s, r, p)) == HasEligible(s)
  {
    hide HeapOk, ReservedOk, MapsOk, QueueOk, SendingShape, SendingFenced, LockHeld, FlagsOk, ExpiriesOk, WakeOk, OccupiedBy, AwaitedBy;
  }

  // ----- the pump -------------------------------------------------------------------------------

  /** Waiters, the request flag and a pause touch nothing else. */
  lemma FlagsKeep(s: Out, paused: bool, waiters: nat)
    requires Consistent(s)
    ensures Consistent(s.(waiters := waiters)) && Consistent(s.(requested := false, paused := paused, waiters := waiters))
    ensures !s.requested ==> Consistent(s.(paused := paused))
  {
    hide HeapOk, ProgressOk, ReservedOk, MapsOk, QueueOk, SendingShape, SendingFenced, LockHeld, NoneForgotten, TimersOk, ExpiriesOk, WakeOk;
  }

  lemma WaitersKeep(s: Out)
    requires WithinLimits(s) && Awake(s)
    ensures WithinLimits(s.(waiters := 0)) && Awake(s.(waiters := 0))
  {
    hide OccupiedBy, AwaitedBy, AnyMayGo;
  }

  lemma IdleShrinks(s: Out)
    ensures Shrinks(s, s.(sending := None))
  {
  }

  lemma IdleAwake(s: Out)
    ensures var idle := s.(sending := None);
            !(!idle.paused && HasEligible(idle)) ==> Awake(idle)
  {
    hide AnyMayGo;
  }

  lemma FinishKeeps(s: Out)
    requires Consistent(s.(sending := None)) && WithinLimits(s)
    ensures Inv(FinishPump(s))
  {
    hide Consistent, Shrinks, WithinLimits, Awake, AnyMayGo;
    var idle := s.(sending := None);
    IdleShrinks(s);
    ShrinkKeepsLimits(s, idle);
    RequestKeeps(idle);
    ShrinkKeepsLimits(idle, RequestPump(idle));
    var next := if !idle.paused && HasEligible(idle) then RequestPump(idle) else idle;
    assert Awake(next) by { IdleAwake(s); }
    FlagsKeep(next, next.paused, 0);
    WaitersKeep(next);
  }

  lemma {:induction false} FirstObjectQueued(s: Out, q: seq<nat>)
    ensures FirstObject(s, q).Some? ==>
              exists r :: r in q && Get(s, r).IsObject() && Get(s, r).msgId == FirstObject(s, q).value
    ensures FirstObject(s, q).None? ==> forall r :: r in q ==> !Get(s, r).IsObject()
  {
    if q != [] {
      FirstObjectQueued(s, q[..|q| - 1]);
      assert q == q[..|q| - 1] + [q[|q| - 1]];
    }
  }

  lemma ScanKeeps(s: Out)
    requires Consistent(s)
    ensures Consistent(ScanLock(s)) && Shrinks(s, ScanLock(s))
    ensures HasEligible(s) ==> HasEligible(ScanLock(s))
  {
    hide HeapOk, ProgressOk, ReservedOk, MapsOk, SendingShape, SendingFenced, NoneForgotten, TimersOk, FlagsOk, ExpiriesOk, WakeOk, OccupiedBy, AwaitedBy;
    FirstObjectQueued(s, s.queue);
    var n := ScanLock(s);
    if s.lock.None? && n.lock.Some? {
      var r :| r in s.queue && Get(s, r).IsObject() && Get(s, r).msgId == n.lock.value;
      assert s.heap[r].key in s.byOperation.m && s.byOperation.m[s.heap[r].key] == r;
      assert LockHeld(n.lock, n.heap, n.byOperation.m);
      assert Eligible(n, r);
    } else if HasEligible(s) {
      var r :| r in s.queue && Eligible(s, r);
      assert Eligible(n, r);
    }
  }

  /** The pump takes an eligible message that nothing else in the queue precedes. */
  lemma {:induction false} BestIsFirst(s: Out, q: seq<nat>)
    ensures Best(s, q).Some? ==> Best(s, q).value in q && Eligible(s, Best(s, q).value)
    ensures Best(s, q).Some? ==> forall r :: r in q && Eligible(s, r) ==> !Before(s, r, Best(s, q).value)
    ensures Best(s, q).None? <==> forall r :: r in q ==> !Eligible(s, r)
  {
    if q != [] {
      BestIsFirst(s, q[..|q| - 1]);
      assert q == q[..|q| - 1] + [q[|q| - 1]];
    }
  }

  lemma {:induction false} FirstPairQueued(s: Out, receipt: nat, q: seq<nat>, fits: nat -> bool)
    ensures FirstPair(s, receipt, q, fits).Some? ==>
              FirstPair(s, receipt, q, fits).value in q && PairsWith(s, receipt, FirstPair(s, receipt, q, fits).value, fits)
  {
    if q != [] {
      FirstPairQueued(s, receipt, q[..|q| - 1], fits);
      assert q == q[..|q| - 1] + [q[|q| - 1]];
    }
  }

  lemma StaleWaits(s: Out, r: nat)
    requires Consistent(s) && r in s.queue && At(s, r).pending == []
    ensures At(s, r).retry != NoRetry && r < |s.heap|
  {
    hide HeapOk, ReservedOk, MapsOk, SendingShape, SendingFenced, LockHeld, NoneForgotten, FlagsOk, ExpiriesOk, WakeOk;
  }

  /** A queued message with nothing left to send drops out and does not keep the object lock. */
  lemma StaleKeeps(s: Out, r: nat)
    requires Consistent(s) && WithinLimits(s) && s.sending.None? && r in s.queue && At(s, r).pending == []
    ensures Inv(FinishPump(ReleaseLock(Dequeue(s, r), r)))
  {
    hide Consistent, OccupiedBy, AwaitedBy, WithinLimits, Awake, FinishPump;
    StaleWaits(s, r);
    DequeueKeeps(s, r);
    ReleaseKeeps(Dequeue(s, r), r);
    var n := ReleaseLock(Dequeue(s, r), r);
    ShrinkKeepsLimits(s, Dequeue(s, r));
    ShrinkKeepsLimits(Dequeue(s, r), n);
    assert n.(sending := None) == n;
    FinishKeeps(n);
  }

  function Taken(s: Out, r: nat, fits: nat -> bool): Out {
    var p := At(s, r);
    var begun := Move(Dequeue(s, r), r, p.(pending := p.pending[if p.pending == [] then 0 else 1..], started := true));
    var report := ReceiptPair(begun, r, fits);
    TakeReport(begun, report).(
      sending := Some(Transmission(r, if p.pending == [] then 0 else p.pending[0], report, s.now)))
  }

  /** `n` is `s` with `r`, and the report that rides along, taken by the pump. */
  ghost predicate TakenFrom(s: Out, n: Out, r: nat, report: Option<nat>) {
    && n == s.(queue := n.queue, progress := n.progress, sending := n.sending)
    && n.sending.Some? && n.sending.value.ref == r && n.sending.value.report == report && n.sending.value.since == s.now
    && r < |s.heap| && n.sending.value.chunk < s.heap[r].frames
    && NoDup(n.queue) && |n.progress| == |s.progress| == |s.heap|
    && (forall x :: x in n.queue <==> x in s.queue && x != r && Some(x) != report)
    && n.progress[r] == s.progress[r].(pending := n.progress[r].pending, started := true)
    && (forall c :: c in n.progress[r].pending ==> c in s.progress[r].pending)
    && (forall x :: 0 <= x < |s.heap| && x != r && Some(x) != report ==> n.progress[x] == s.progress[x])
    && (report.Some? ==>
          && report.value in s.queue && report.value < |s.heap| && report.value != r && IsReceipt(s.heap[r])
          && s.heap[report.value].message.TaskReport? && s.heap[report.value].frames == 1
          && !s.progress[report.value].started
          && n.progress[report.value] == s.progress[report.value].(pending := [], started := true))
  }

  lemma PairShape(s: Out, receipt: nat, fits: nat -> bool)
    ensures var report := ReceiptPair(s, receipt, fits);
            report.Some? ==>
              && report.value in s.queue && IsReceipt(Get(s, receipt)) && !At(s, report.value).started
              && Get(s, report.value).message.TaskReport? && Get(s, report.value).frames == 1
  {
    hide FirstPair;
    FirstPairQueued(s, receipt, s.queue, fits);
  }

  lemma TakenShape(s: Out, r: nat, fits: nat -> bool)
    requires QueueOk(s.queue, s.heap, s.byOperation.m) && ProgressOk(s.heap, s.progress, s.nextOrder)
    requires r in s.queue && At(s, r).pending != []
    ensures Taken(s, r, fits).sending.Some?
    ensures TakenFrom(s, Taken(s, r, fits), r, Taken(s, r, fits).sending.value.report)
  {
    hide Without, ReceiptPair, NoDup, IsReceipt;
    var p := At(s, r);
    assert p.pending[0] in p.pending;
    var begun := Move(Dequeue(s, r), r, p.(pending := p.pending[1..], started := true));
    WithoutNoDup(s.queue, r);
    PairShape(begun, r, fits);
    var report := ReceiptPair(begun, r, fits);
    if report.Some? {
      WithoutNoDup(begun.queue, report.value);
      assert report.value in s.queue && report.value < |s.heap|;
    }
  }

  lemma TakenTimers(s: Out, n: Out, r: nat, report: Option<nat>)
    requires TakenFrom(s, n, r, report) && ProgressOk(s.heap, s.progress, s.nextOrder)
    requires TimersOk(s.progress, s.queue, None, s.byOperation.m)
    ensures TimersOk(n.progress, n.queue, n.sending, n.byOperation.m) && ProgressOk(n.heap, n.progress, n.nextOrder)
  {
  }

  lemma TakenMoving(s: Out, n: Out, r: nat, report: Option<nat>)
    requires TakenFrom(s, n, r, report) && s.sending.None?
    requires NoneForgotten(s.progress, s.queue, s.sending, s.byOperation.m, s.pendingData.m, s.responses.m)
    ensures NoneForgotten(n.progress, n.queue, n.sending, n.byOperation.m, n.pendingData.m, n.responses.m)
  {
    forall k | k in s.byOperation.m
      ensures Moving(s.byOperation.m[k], n.progress, n.queue, n.sending)
    {
      assert Moving(s.byOperation.m[k], s.progress, s.queue, s.sending);
    }
  }

  lemma TakenFenced(s: Out, n: Out, r: nat, report: Option<nat>)
    requires TakenFrom(s, n, r, report) && r in s.queue
    requires QueueOk(s.queue, s.heap, s.byOperation.m)
    requires MapsOk(s.heap, s.byOperation.m, s.pendingData.m, s.responses.m, s.committed.m)
    ensures QueueOk(n.queue, n.heap, n.byOperation.m) && SendingShape(n.sending, n.queue, n.heap, n.now)
    ensures SendingFenced(n.sending, n.heap, n.byOperation.m, n.pendingData.m, n.responses.m, n.committed.m)
    ensures Shrinks(s, n)
  {
  }

  /** The pump suspends on the radio with `r`, and perhaps a report, taken out of the queue. */
  lemma PumpTakes(s: Out, r: nat, fits: nat -> bool)
    requires Consistent(s) && s.sending.None? && !s.requested && r in s.queue && At(s, r).pending != []
    ensures Consistent(Taken(s, r, fits)) && Shrinks(s, Taken(s, r, fits)) && Awake(Taken(s, r, fits))
  {
    TakenShape(s, r, fits);
    var n := Taken(s, r, fits);
    var report := n.sending.value.report;
    TakenTimers(s, n, r, report);
    TakenMoving(s, n, r, report);
    TakenFenced(s, n, r, report);
    hide HeapOk, ReservedOk, LockHeld, ExpiriesOk, WakeOk, NoneForgotten, TimersOk, ProgressOk, QueueOk, SendingShape;
    hide SendingFenced, MapsOk, AwaitedBy, OccupiedBy, Taken;
  }

  lemma ReleaseKeeps(s: Out, r: nat)
    requires Consistent(s)
    ensures Consistent(ReleaseLock(s, r)) && Shrinks(s, ReleaseLock(s, r))
  {
    hide HeapOk, ProgressOk, ReservedOk, MapsOk, QueueOk, SendingShape, SendingFenced, NoneForgotten, TimersOk, ExpiriesOk, WakeOk, FlagsOk;
    hide OccupiedBy, AwaitedBy;
  }

  lemma PausedKeeps(s: Out)
    requires Inv(s)
    ensures var woken := s.(requested := false);
            && Consistent(woken) && WithinLimits(woken) && Consistent(woken.(waiters := 0)) && WithinLimits(woken.(waiters := 0))
            && (s.paused || s.stopped ==> Awake(woken.(waiters := 0))) && (s.sending.Some? ==> Awake(woken))
  {
    hide OccupiedBy, AwaitedBy, AnyMayGo, HeapOk, ProgressOk, ReservedOk, MapsOk, QueueOk, SendingShape, SendingFenced;
    hide LockHeld, NoneForgotten, TimersOk, ExpiriesOk, WakeOk;
  }

  lemma PumpFiresKeeps(s: Out, fits: nat -> bool)
    requires Inv(s)
    ensures Inv(PumpFires(s, fits))
  {
    hide Consistent, WithinLimits, Awake, Shrinks, Best, ReleaseLock, Dequeue, FinishPump, FirstObject, AnyMayGo, MayGo;
    hide TakeReport, ReceiptPair, Move;
    PausedKeeps(s);
    if !s.paused && !s.stopped && s.sending.None? {
      var woken := s.(requested := false);
      var scanned := ScanLock(woken);
      ScanKeeps(woken);
      ShrinkKeepsLimits(woken, scanned);
      BestIsFirst(scanned, scanned.queue);
      var pick := Best(scanned, scanned.queue);
      assert scanned.(sending := None) == scanned;
      if pick.None? {
        FinishKeeps(scanned);
      } else if At(scanned, pick.value).pending == [] {
        StaleKeeps(scanned, pick.value);
      } else {
        PumpTakes(scanned, pick.value, fits);
        ShrinkKeepsLimits(scanned, Taken(scanned, pick.value, fits));
      }
    }
  }

  // ----- the radio answers ----------------------------------------------------------------------

  /** The message the pump holds can be let go. */
  ghost predicate Released(s: Out, r: nat) {
    && (r in s.byOperation.m.Values ==> r in s.queue || At(s, r).retry != NoRetry)
    && (At(s, r).retry == ResumeRetry ==> At(s, r).pending != [])
  }

  lemma IdleKeeps(s: Out)
    requires Consistent(s) && s.sending.Some? && Released(s, s.sending.value.ref)
    requires s.sending.value.report.Some? ==> Released(s, s.sending.value.report.value)
    ensures Consistent(s.(sending := None))
  {
    hide HeapOk, ReservedOk, MapsOk, QueueOk, LockHeld, ExpiriesOk, WakeOk, StoppedOk;
  }

  lemma ReturnKeeps(s: Out)
    requires Consistent(s) && s.sending.Some? && s.sending.value.report.None? && !s.stopped
    requires At(s, s.sending.value.ref).pending != []
    requires Get(s, s.sending.value.ref).Confirmable() ==> Tracked(s, s.sending.value.ref)
    ensures Consistent(Enqueue(s, s.sending.value.ref).(sending := None)) && Shrinks(s, Enqueue(s, s.sending.value.ref))
  {
    hide HeapOk, ReservedOk, LockHeld, ExpiriesOk, WakeOk, MapsOk;
  }

  lemma FencedOwner(s: Out, r: nat)
    requires Consistent(s) && InFlight(s.sending, r) && Get(s, r).Confirmable()
    ensures r < |s.heap| && (Tracked(s, r) ==> r in s.byOperation.m.Values)
    ensures !Tracked(s, r) ==> r !in s.byOperation.m.Values
  {
    hide HeapOk, ReservedOk, LockHeld, ExpiriesOk, WakeOk, StoppedOk, TimersOk, NoneForgotten, ProgressOk, QueueOk;
  }

  /** Facts about the messages the pump holds. */
  lemma HeldFacts(s: Out)
    requires Consistent(s) && s.sending.Some?
    ensures var t := s.sending.value;
            && t.ref < |s.heap| && |s.progress| == |s.heap| && At(s, t.ref).started && At(s, t.ref).order < s.nextOrder
            && t.ref !in s.queue && t.chunk < Get(s, t.ref).frames
            && (forall c :: c in At(s, t.ref).pending ==> c < Get(s, t.ref).frames)
            && (t.report.Some? ==>
                  && t.report.value < |s.heap| && At(s, t.report.value).started && t.report.value != t.ref
                  && At(s, t.report.value).order < s.nextOrder
                  && (forall c :: c in At(s, t.report.value).pending ==> c < Get(s, t.report.value).frames)
                  && Get(s, t.report.value).frames == 1 && Get(s, t.report.value).Confirmable()
                  && Get(s, t.ref).frames == 1 && !Get(s, t.ref).Confirmable() && !Get(s, t.ref).IsObject())
  {
    hide HeapOk, ReservedOk, LockHeld, ExpiriesOk, WakeOk, StoppedOk, NoneForgotten, MapsOk, QueueOk, SendingFenced;
  }

  lemma UntrackedKeeps(s: Out, r: nat)
    requires Consistent(s) && r < |s.heap| && (!Get(s, r).Confirmable() || s.stopped)
    ensures r !in s.byOperation.m.Values && At(s, r).retry == NoRetry
  {
    hide HeapOk, ReservedOk, LockHeld, ExpiriesOk, WakeOk, NoneForgotten, QueueOk, SendingFenced, SendingShape;
  }

  lemma DeferKeeps(s: Out, r: nat, chunks: seq<nat>)
    requires Consistent(s) && r < |s.heap| && |s.progress| == |s.heap| && At(s, r).started && chunks != [] && r in s.byOperation.m.Values
    requires At(s, r).order < s.nextOrder && forall c :: c in chunks ==> c < s.heap[r].frames
    ensures Consistent(Defer(s, r, chunks)) && Shrinks(s, Defer(s, r, chunks))
  {
    hide Consistent, Shrinks, HasEligible;
    MoveKeeps(s, r, At(s, r).(pending := chunks, retry := ResumeRetry));
  }

  lemma AfterAllKeeps(s: Out, r: nat)
    requires Consistent(s) && r < |s.heap| && |s.progress| == |s.heap| && At(s, r).order < s.nextOrder
    requires Get(s, r).Confirmable() ==> r in s.byOperation.m.Values
    requires forall c :: c in At(s, r).pending ==> c < s.heap[r].frames
    ensures Consistent(AfterAllChunks(s, r)) && Shrinks(s, AfterAllChunks(s, r))
  {
    hide Consistent, Shrinks, HasEligible;
    ReleaseKeeps(s, r);
    var released := if Get(s, r).IsObject() then ReleaseLock(s, r) else s;
    assert Shrinks(s, released) by { SelfShrinks(s); }
    if Get(s, r).Confirmable() {
      MoveKeeps(released, r, At(released, r).(retry := FullRetry));
    } else {
      ResultsKeep(released, released.results.Put(Get(s, r).key, Sent));
    }
    ShrinksTrans(s, released, AfterAllChunks(s, r));
  }

  lemma AfterAllShape(s: Out, r: nat)
    requires r < |s.progress|
    ensures AfterAllChunks(s, r) == s.(progress := AfterAllChunks(s, r).progress, lock := AfterAllChunks(s, r).lock,
                                       results := AfterAllChunks(s, r).results)
    ensures AfterAllChunks(s, r).progress ==
            if Get(s, r).Confirmable() then s.progress[r := s.progress[r].(retry := FullRetry)] else s.progress
  {
    hide NeedsConfirmation;
    if Get(s, r).Confirmable() {
    } else {
    }
  }

  lemma SelfShrinks(s: Out)
    ensures Shrinks(s, s)
  {
  }

  lemma ShrinksTrans(a: Out, b: Out, c: Out)
    requires Shrinks(a, b) && Shrinks(b, c)
    ensures Shrinks(a, c)
  {
    hide OccupiedBy, AwaitedBy;
  }

  lemma ResultsKeep(s: Out, results: Table<OpId, Status>)
    requires Consistent(s)
    ensures Consistent(s.(results := results)) && Shrinks(s, s.(results := results))
  {
    hide HeapOk, ProgressOk, ReservedOk, MapsOk, QueueOk, SendingShape, SendingFenced, LockHeld, NoneForgotten, TimersOk, ExpiriesOk, WakeOk, FlagsOk, StoppedOk;
  }

  lemma FinishPairKeeps(s: Out)
    requires Inv(s) && s.sending.Some? && s.sending.value.report.Some? && !s.stopped
    ensures Inv(FinishPump(FinishPair(s, s.sending.value)))
  {
    hide Consistent, Shrinks, WithinLimits, Awake, HasEligible, FinishPump, AfterAllChunks;
    var t := s.sending.value;
    HeldFacts(s);
    UntrackedKeeps(s, t.ref);
    AfterAllKeeps(s, t.ref);
    AfterAllShape(s, t.ref);
    var sent := AfterAllChunks(s, t.ref);
    FencedOwner(sent, t.report.value);
    ShrinkKeepsLimits(s, sent);
    assert Consistent(sent);
    HeldFacts(sent);
    if Tracked(sent, t.report.value) {
      AfterAllKeeps(sent, t.report.value);
      AfterAllShape(sent, t.report.value);
      ShrinkKeepsLimits(sent, FinishPair(s, t));
    } else {
      RetryOwned(sent, t.report.value);
    }
    IdleKeeps(FinishPair(s, t));
    FinishKeeps(FinishPair(s, t));
  }

  lemma RetryOwned(s: Out, r: nat)
    requires Consistent(s) && r !in s.byOperation.m.Values
    ensures At(s, r).retry == NoRetry
  {
    hide HeapOk, ReservedOk, MapsOk, LockHeld, ExpiriesOk, WakeOk, NoneForgotten, QueueOk, SendingFenced, SendingShape, StoppedOk;
  }

  lemma OrderKeeps(s: Out, nextOrder: nat, nextId: nat, sequence: nat)
    requires Consistent(s) && s.nextOrder <= nextOrder && s.nextId <= nextId && s.sequence <= sequence
    ensures Consistent(s.(nextOrder := nextOrder, nextId := nextId, sequence := sequence))
  {
    hide MapsOk, QueueOk, SendingShape, SendingFenced, LockHeld, NoneForgotten, TimersOk, ExpiriesOk, WakeOk, FlagsOk, StoppedOk;
  }

  lemma PairFailedKeeps(s: Out)
    requires Inv(s) && s.sending.Some? && s.sending.value.report.Some? && !s.stopped
    ensures Inv(FinishPump(PairFailed(s, s.sending.value)))
  {
    hide Consistent, Shrinks, WithinLimits, Awake, HasEligible, FinishPump, Defer, Enqueue;
    var t := s.sending.value;
    HeldFacts(s);
    UntrackedKeeps(s, t.ref);
    FencedOwner(s, t.report.value);
    var deferred := if Tracked(s, t.report.value) then Defer(s, t.report.value, [0]) else s;
    DeferShape(s, t.report.value, [0]);
    if Tracked(s, t.report.value) {
      DeferKeeps(s, t.report.value, [0]);
      ShrinkKeepsLimits(s, deferred);
    } else {
      RetryOwned(s, t.report.value);
    }
    var bumped := deferred.(nextOrder := deferred.nextOrder + 1);
    OrderKeeps(deferred, deferred.nextOrder + 1, deferred.nextId, deferred.sequence);
    assert bumped == deferred.(nextOrder := deferred.nextOrder + 1, nextId := deferred.nextId, sequence := deferred.sequence);
    var p := At(deferred, t.ref).(pending := [0], order := deferred.nextOrder);
    var moved := Move(bumped, t.ref, p);
    MoveKeeps(bumped, t.ref, p);
    LimitsSame(deferred, bumped);
    ShrinkKeepsLimits(bumped, moved);
    ReturnPairKeeps(moved);
    assert Move(deferred, t.ref, p).(nextOrder := deferred.nextOrder + 1) == moved;
    var queued := Enqueue(moved, t.ref);
    assert queued.sending.Some? by { EnqueueShape(moved, t.ref); }
    assert PairFailed(s, t) == queued;
    ShrinkKeepsLimits(moved, queued);
    FinishKeeps(queued);
  }

  lemma LimitsSame(s: Out, n: Out)
    requires WithinLimits(s) && n.cfg == s.cfg && n.queue == s.queue && n.byOperation == s.byOperation
    requires n.pendingData == s.pendingData && n.responses == s.responses && n.committed == s.committed && n.sending == s.sending
    ensures WithinLimits(n)
  {
  }

  lemma EnqueueShape(s: Out, r: nat)
    ensures Enqueue(s, r) == s.(queue := s.queue + [r])
  {
  }

  lemma DeferShape(s: Out, r: nat, chunks: seq<nat>)
    ensures Defer(s, r, chunks) == s.(progress := Defer(s, r, chunks).progress)
    ensures r < |s.progress| ==>
              Defer(s, r, chunks).progress == s.progress[r := s.progress[r].(pending := chunks, retry := ResumeRetry)]
  {
  }

  /** The receipt goes back into the queue; its report has a retry timer or is no longer wanted. */
  lemma ReturnPairKeeps(s: Out)
    requires Consistent(s) && s.sending.Some? && s.sending.value.report.Some? && !s.stopped
    requires At(s, s.sending.value.ref).pending != [] && Released(s, s.sending.value.report.value)
    requires !Get(s, s.sending.value.ref).Confirmable()
    ensures Consistent(Enqueue(s, s.sending.value.ref).(sending := None)) && Shrinks(s, Enqueue(s, s.sending.value.ref))
  {
    hide HeapOk, ReservedOk, LockHeld, ExpiriesOk, WakeOk, MapsOk;
  }

  lemma FailBestEffortKeeps(s: Out)
    requires Inv(s) && s.sending.Some? && s.sending.value.report.None? && !Get(s, s.sending.value.ref).Confirmable()
    ensures Inv(FinishPump(FailBestEffort(s, s.sending.value.ref)))
  {
    hide Consistent, Shrinks, WithinLimits, Awake, HasEligible, FinishPump, Dequeue;
    var r := s.sending.value.ref;
    HeldFacts(s);
    UntrackedKeeps(s, r);
    DequeueKeeps(s, r);
    DequeueShape(s, r);
    ShrinkKeepsLimits(s, Dequeue(s, r));
    ReleaseKeeps(Dequeue(s, r), r);
    var released := ReleaseLock(Dequeue(s, r), r);
    ShrinkKeepsLimits(Dequeue(s, r), released);
    var n := FailBestEffort(s, r);
    ResultsKeep(released, n.results);
    assert n == released.(results := n.results);
    ShrinkKeepsLimits(released, n);
    IdleKeeps(n);
    FinishKeeps(n);
  }

  lemma DequeueShape(s: Out, r: nat)
    ensures Dequeue(s, r) == s.(queue := Dequeue(s, r).queue)
    ensures forall x :: x in Dequeue(s, r).queue <==> x in s.queue && x != r
  {
  }

  lemma PumpEndsKeeps(s: Out, ok: bool)
    requires Inv(s) && s.sending.Some?
    ensures Inv(PumpEnds(s, ok))
  {
    hide Consistent, Shrinks, WithinLimits, Awake, HasEligible, FinishPump, Defer, Enqueue, FailBestEffort, FinishPair, PairFailed, AfterAllChunks;
    var t := s.sending.value;
    HeldFacts(s);
    if s.stopped {
      UntrackedKeeps(s, t.ref);
      if t.report.Some? {
        UntrackedKeeps(s, t.report.value);
      }
      IdleKeeps(s);
      FinishKeeps(s);
    } else if t.report.Some? {
      if ok { FinishPairKeeps(s); } else { PairFailedKeeps(s); }
    } else if !ok {
      SendRefusedKeeps(s);
    } else {
      SendAcceptedKeeps(s);
    }
  }

  lemma SendRefusedKeeps(s: Out)
    requires Inv(s) && s.sending.Some? && s.sending.value.report.None? && !s.stopped
    ensures Inv(PumpEnds(s, false))
  {
    hide Consistent, Shrinks, WithinLimits, Awake, HasEligible, FinishPump, Defer, FailBestEffort;
    var t := s.sending.value;
    HeldFacts(s);
    if !Get(s, t.ref).Confirmable() {
      FailBestEffortKeeps(s);
    } else {
      FencedOwner(s, t.ref);
      if Tracked(s, t.ref) {
        var chunks := [t.chunk] + At(s, t.ref).pending;
        var n := Defer(s, t.ref, chunks);
        DeferKeeps(s, t.ref, chunks);
        DeferShape(s, t.ref, chunks);
        ShrinkKeepsLimits(s, n);
        IdleKeeps(n);
        FinishKeeps(n);
      } else {
        RetryOwned(s, t.ref);
        IdleKeeps(s);
        FinishKeeps(s);
      }
    }
  }

  lemma SendAcceptedKeeps(s: Out)
    requires Inv(s) && s.sending.Some? && s.sending.value.report.None? && !s.stopped
    ensures Inv(PumpEnds(s, true))
  {
    hide Consistent, Shrinks, WithinLimits, Awake, HasEligible, FinishPump, Enqueue, AfterAllChunks;
    var t := s.sending.value;
    HeldFacts(s);
    if Get(s, t.ref).Confirmable() {
      FencedOwner(s, t.ref);
    } else {
      UntrackedKeeps(s, t.ref);
    }
    if Get(s, t.ref).Confirmable() && !Tracked(s, t.ref) {
      RetryOwned(s, t.ref);
      IdleKeeps(s);
      FinishKeeps(s);
    } else if At(s, t.ref).pending != [] {
      ReturnKeeps(s);
      ShrinkKeepsLimits(s, Enqueue(s, t.ref));
      FinishKeeps(Enqueue(s, t.ref));
    } else {
      AfterAllKeeps(s, t.ref);
      AfterAllShape(s, t.ref);
      ShrinkKeepsLimits(s, AfterAllChunks(s, t.ref));
      IdleKeeps(AfterAllChunks(s, t.ref));
      FinishKeeps(AfterAllChunks(s, t.ref));
    }
  }
}
