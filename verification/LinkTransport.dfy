/** `LinkTransport` itself: the fields it updates in place, each method proved against the state machine. */
module LinkTransport {
  import opened Wrappers
  import opened LinkTypes
  import opened LinkOutbound
  import opened LinkReassembly
  import opened LinkInbound
  import opened LinkInboundInvariants
  import opened LinkOutboundInvariants
  import opened LinkOperations
  import opened LinkSubmission
  import opened LinkLifecycle
  import opened LinkMessages
  import opened LinkRuns

  /** `removeAll`, from the back of the queue as the source does it. */
  method RemoveAll(q: seq<nat>, r: nat) returns (rest: seq<nat>)
    ensures rest == Without(q, r)
  {
    rest := q;
    var index := |q|;
    assert q[..|q|] == q;
    while index > 0
      invariant 0 <= index <= |q| && index <= |rest|
      invariant rest[..index] == q[..index]
      invariant Without(q, r) == Without(q[..index], r) + rest[index..]
    {
      index := index - 1;
      assert q[..index + 1][..index] == q[..index];
      if rest[index] == r {
        rest := rest[..index] + rest[index + 1..];
      }
    }
  }

  class LinkTransport {
    const cfg: Config
    var now: nat
    var heap: seq<Outbound>
    var progress: seq<Progress>
    var queue: seq<nat>
    var byOperation: map<OpId, nat>
    var pendingData: map<OpId, nat>
    var responses: map<OpId, nat>
    var results: map<OpId, Status>
    var committed: map<OpId, Option<nat>>
    var expiryQueue: seq<Expiry>
    var expiryHead: nat
    var blocked: bool
    var wakeAt: Option<nat>
    var reserved: map<OpId, Reservation>
    var sequence: nat
    var nextOrder: nat
    var nextId: nat
    var sending: Option<Transmission>
    var requested: bool
    var paused: bool
    var stopped: bool
    var waiters: nat
    var lock: Option<nat>
    var fences: map<Node, Fence>
    var partial: seq<Reassembly>
    var pending: map<SettlementId, Pending>
    var settled: seq<Settled>
    var deliveries: seq<Delivery>
    var events: seq<Event>

    ghost predicate Valid()
      reads `expiryHead, `expiryQueue
    {
      expiryHead <= |expiryQueue|
    }

    /** The sending half as a value. */
    ghost function View(): Out
      requires Valid()
      reads `now, `heap, `progress, `queue, `byOperation, `pendingData, `responses, `results, `committed, `expiryQueue
      reads `expiryHead, `blocked, `wakeAt, `reserved, `sequence, `nextOrder, `nextId, `sending, `requested, `paused
      reads `stopped, `waiters, `lock
    {
      Out(cfg, now, heap, progress, queue, Table(byOperation), Table(pendingData), Table(responses), Table(results),
          Table(committed), expiryQueue[expiryHead..], blocked, wakeAt, Table(reserved), sequence, nextOrder, nextId,
          sending, requested, paused, stopped, waiters, lock)
    }

    lemma ViewNow()
      requires Valid()
      ensures View().now == now && View().cfg == cfg && View().stopped == stopped
    {
    }

    /** The whole transport as a value. */
    ghost function LinkView(): Link
      reads this
      requires Valid()
    {
      Link(View(), Table(fences), partial, Table(pending), settled, deliveries, events)
    }

    /** A new service session, with nothing queued, tracked or received. */
    constructor (cfg: Config, now: nat)
      requires ConfigOk(cfg)
      ensures Valid() && Initial(LinkView()) && LinkInv(LinkView())
      ensures this.cfg == cfg && this.now == now
    {
      this.cfg, this.now := cfg, now;
      heap, progress, queue := [], [], [];
      byOperation, pendingData, responses, results := map[], map[], map[], map[];
      committed, expiryQueue, expiryHead, blocked, wakeAt := map[], [], 0, false, None;
      reserved, sequence, nextOrder, nextId := map[], 0, 0, 0;
      sending, requested, paused, stopped, waiters, lock := None, false, false, false, 0, None;
      fences, partial, pending, settled, deliveries, events := map[], [], map[], [], [], [];
      new;
      hide LinkInv;
      InitialInv(LinkView());
    }

    function MessageAt(r: nat): Outbound
      reads `heap
    {
      if r < |heap| then heap[r] else NO_MESSAGE
    }

    function ProgressAt(r: nat): Progress
      reads `progress
    {
      if r < |progress| then progress[r] else NO_PROGRESS
    }

    /** Higher priority first, then the older order. */
    predicate Precedes(a: nat, b: nat)
      reads `heap, `progress
    {
      || MessageAt(a).Level() < MessageAt(b).Level()
      || (MessageAt(a).Level() == MessageAt(b).Level() && ProgressAt(a).order < ProgressAt(b).order)
    }

    method HasEligibleOutbound() returns (found: bool)
      requires Valid()
      ensures found == HasEligible(View())
    {
      var index := 0;
      found := false;
      while index < |queue| && !found
        invariant 0 <= index <= |queue|
        invariant found ==> HasEligible(View())
        invariant !found ==> forall k :: 0 <= k < index ==> !MayGo(heap, lock, queue[k])
      {
        found := MayGo(heap, lock, queue[index]);
        assert queue[index] in queue;
        index := index + 1;
      }
    }

    method RequestPumpTimer()
      requires Valid()
      modifies `requested
      ensures View() == RequestPump(old(View()))
    {
      if sending.Some? || requested || stopped || paused { return; }
      requested := true;
    }

    /** The `finally` block of the pump. */
    method FinishPumping()
      requires Valid()
      modifies `requested, `sending, `waiters
      ensures View() == FinishPump(old(View()))
    {
      sending := None;
      var eligible := HasEligibleOutbound();
      if !paused && eligible { RequestPumpTimer(); }
      if !requested { waiters := 0; }
    }

    /** One pass over the queue: the first object transfer takes a free lock, the best eligible message is removed. */
    method TakeNextOutbound() returns (taken: Option<nat>)
      requires Valid() && NoDup(queue)
      modifies `queue, `lock
      ensures var scanned := ScanLock(old(View()));
              && taken == Best(scanned, scanned.queue)
              && View() == if taken.Some? then Dequeue(scanned, taken.value) else scanned
    {
      hide HasEligible, Best, FirstObject, Without, ScanLock;
      ghost var before := View();
      var bestIndex := -1;
      var index := 0;
      ScanStart(before);
      while index < |queue|
        invariant 0 <= index <= |queue| && -1 <= bestIndex < index
        invariant queue == old(queue)
        invariant lock == LockAfter(before, queue, index)
        invariant Best(ScanLock(before), queue[..index]) == if bestIndex < 0 then None else Some(queue[bestIndex])
      {
        var candidate := queue[index];
        ScanStep(before, queue, index);
        if MessageAt(candidate).IsObject() && lock.None? {
          lock := Some(MessageAt(candidate).msgId);
        }
        if MayGo(heap, lock, candidate) && (bestIndex < 0 || Precedes(candidate, queue[bestIndex])) {
          bestIndex := index;
        }
        index := index + 1;
      }
      assert queue[..|queue|] == queue;
      ScanEnd(before);
      if bestIndex < 0 { return None; }
      SpliceIsWithout(queue, bestIndex);
      taken := Some(queue[bestIndex]);
      queue := queue[..bestIndex] + queue[bestIndex + 1..];
    }

    /** A queued Task report that fits into the receipt's frame leaves the queue with it. */
    method CompoundReceiptPair(receipt: nat, fits: nat -> bool) returns (report: Option<nat>)
      requires Valid() && NoDup(queue)
      modifies `queue
      ensures report == ReceiptPair(old(View()), receipt, fits)
      ensures queue == if report.Some? then Without(old(queue), report.value) else old(queue)
      ensures View() == if report.Some? then Dequeue(old(View()), report.value) else old(View())
    {
      report := None;
      if !cfg.pairReceipts || !IsReceipt(MessageAt(receipt)) { return; }
      hide Without;
      var index := 0;
      while index < |queue|
        invariant 0 <= index <= |queue| && queue == old(queue)
        invariant FirstPair(View(), receipt, queue[..index], fits).None?
      {
        var r := queue[index];
        var o := MessageAt(r);
        assert queue[..index + 1][..index] == queue[..index];
        if !ProgressAt(r).started && o.Confirmable() && o.message.TaskReport? && o.frames == 1 && o.dest.Some?
           && o.dest == MessageAt(receipt).dest && fits(r) {
          PairPrefix(View(), receipt, queue, index + 1, fits);
          SpliceIsWithout(queue, index);
          report := Some(r);
          queue := queue[..index] + queue[index + 1..];
          return;
        }
        index := index + 1;
      }
      assert queue[..|queue|] == queue;
    }

    /** The message just taken starts, or goes on, with its next chunk. */
    method StartChunk(r: nat, fits: nat -> bool)
      requires Valid() && NoDup(queue) && ProgressAt(r).pending != []
      modifies `queue, `progress, `sending
      ensures View() == Launch(old(View()), r, fits)
    {
      hide Without, ReceiptPair, NeedsConfirmation, Move, View;
      var p := ProgressAt(r);
      ViewQueue();
      ViewNow();
      SetProgress(r, p.(pending := p.pending[1..], started := true));
      var report := CompoundReceiptPair(r, fits);
      ViewQueue();
      if report.Some? {
        SetProgress(report.value, ProgressAt(report.value).(pending := [], started := true));
      }
      Transmit(Transmission(r, p.pending[0], report, now));
    }

    method Transmit(t: Transmission)
      requires Valid()
      modifies `sending
      ensures View() == old(View()).(sending := Some(t))
    {
      sending := Some(t);
    }

    method SetProgress(r: nat, p: Progress)
      requires Valid()
      modifies `progress
      ensures View() == Move(old(View()), r, p)
    {
      if r < |progress| { progress := progress[r := p]; }
    }

    /** A stale queue reference must not keep the object lock. */
    method FreeLock(r: nat)
      requires Valid()
      modifies `lock
      ensures View() == ReleaseLock(old(View()), r)
    {
      if lock == Some(MessageAt(r).msgId) { lock := None; }
    }

    lemma ViewQueue()
      requires Valid()
      ensures View().queue == queue && View().progress == progress
    {
    }

    method PumpQueue(fits: nat -> bool)
      requires Valid() && NoDup(queue)
      modifies `queue, `lock, `progress, `sending, `requested, `waiters
      ensures View() == PumpQueued(old(View()), fits)
    {
      hide HasEligible, Best, ScanLock, Without, ReceiptPair, FinishPump, Launch, NoDup, View, Move;
      ghost var before := View();
      ViewQueue();
      var taken := TakeNextOutbound();
      if taken.None? {
        FinishPumping();
        return;
      }
      var r := taken.value;
      ViewQueue();
      ScanFields(before);
      if ProgressAt(r).pending == [] {
        FreeLock(r);
        FinishPumping();
        return;
      }
      WithoutNoDup(before.queue, r);
      StartChunk(r, fits);
      LaunchTakes(ScanLock(before), r, fits);
    }

    /** The pump timer: up to the point where the radio takes over. */
    method PumpBegin(fits: nat -> bool)
      requires Valid() && Inv(View())
      modifies `queue, `lock, `progress, `sending, `requested, `waiters
      ensures Valid() && View() == PumpFires(old(View()), fits) && Inv(View())
    {
      hide Inv, PumpQueued;
      ghost var before := View();
      PumpFiresKeeps(before, fits);
      QueueFacts(before);
      requested := false;
      if paused || stopped {
        waiters := 0;
      } else if sending.None? {
        PumpQueue(fits);
      }
    }

    // ----- the radio answers ------------------------------------------------------------------------

    method AfterAllChunksSent(r: nat)
      requires Valid()
      modifies `lock, `results, `progress
      ensures View() == AfterAllChunks(old(View()), r)
    {
      hide NeedsConfirmation;
      var o := MessageAt(r);
      if o.IsObject() && lock == Some(o.msgId) { lock := None; }
      if !o.Confirmable() {
        results := results[o.key := Sent];
      } else if r < |progress| {
        progress := progress[r := progress[r].(retry := FullRetry)];
      }
    }

    method FailBestEffortOutbound(r: nat)
      requires Valid()
      modifies `queue, `lock, `results
      ensures View() == FailBestEffort(old(View()), r)
    {
      hide Without;
      var o := MessageAt(r);
      queue := RemoveAll(queue, r);
      if lock == Some(o.msgId) { lock := None; }
      results := results[o.key := Failed];
    }

    method DeferRadioSendRetry(r: nat, chunks: seq<nat>)
      requires Valid()
      modifies `progress
      ensures View() == Defer(old(View()), r, chunks)
    {
      if r < |progress| {
        progress := progress[r := progress[r].(pending := chunks, retry := ResumeRetry)];
      }
    }

    method RequeueReceipt(r: nat)
      requires Valid()
      modifies `progress, `nextOrder, `queue, `requested
      ensures View() == ReturnReceipt(old(View()), r)
    {
      hide Move;
      MoveOnly(View(), r, ProgressAt(r).(pending := [0], order := nextOrder));
      SetProgress(r, ProgressAt(r).(pending := [0], order := nextOrder));
      nextOrder := nextOrder + 1;
      queue := queue + [r];
      RequestPumpTimer();
    }

    method HandleCompoundReceiptFailure(t: Transmission)
      requires Valid() && t.report.Some? && sending.Some?
      modifies `progress, `nextOrder, `queue, `requested
      ensures View() == PairFailed(old(View()), t)
    {
      hide ReturnReceipt, Defer;
      if MessageAt(t.report.value).key in byOperation {
        DeferRadioSendRetry(t.report.value, [0]);
      }
      RequeueReceipt(t.ref);
    }

    method FinishCompoundReceiptPair(t: Transmission)
      requires Valid() && t.report.Some?
      modifies `lock, `results, `progress
      ensures View() == FinishPair(old(View()), t)
    {
      hide AfterAllChunks;
      AfterAllChunksSent(t.ref);
      if MessageAt(t.report.value).key in byOperation {
        AfterAllChunksSent(t.report.value);
      }
    }

    /** What the pump does with the radio's answer, before it finishes. */
    method HandleSendResult(sent: bool)
      requires Valid() && sending.Some? && !stopped
      modifies `queue, `lock, `results, `progress, `nextOrder, `requested
      ensures View() == AfterSend(old(View()), sent)
    {
      hide AfterAllChunks, FailBestEffort, FinishPair, PairFailed, Defer, NeedsConfirmation;
      var t := sending.value;
      var o := MessageAt(t.ref);
      if t.report.Some? {
        if sent { FinishCompoundReceiptPair(t); } else { HandleCompoundReceiptFailure(t); }
      } else if !sent {
        if !o.Confirmable() {
          FailBestEffortOutbound(t.ref);
        } else if o.key in byOperation {
          DeferRadioSendRetry(t.ref, [t.chunk] + ProgressAt(t.ref).pending);
        }
      } else if o.Confirmable() && o.key !in byOperation {
      } else if ProgressAt(t.ref).pending != [] {
        queue := queue + [t.ref];
      } else {
        AfterAllChunksSent(t.ref);
      }
    }

    /** The radio accepted or refused the chunk. */
    method PumpEnd(sent: bool)
      requires Valid() && Inv(View()) && sending.Some?
      modifies `queue, `lock, `results, `progress, `nextOrder, `requested, `sending, `waiters
      ensures Valid() && View() == PumpEnds(old(View()), sent) && Inv(View())
    {
      hide Inv, AfterSend, FinishPump;
      PumpEndsKeeps(View(), sent);
      SendResult(View(), sent);
      if !stopped { HandleSendResult(sent); }
      FinishPumping();
    }

    // ----- retries ----------------------------------------------------------------------------------

    method RequeueOutbound(r: nat)
      requires Valid()
      modifies `queue, `requested
      ensures View() == Requeue(old(View()), r)
    {
      hide Without;
      queue := RemoveAll(queue, r);
      if !(sending.Some? && sending.value.ref == r) {
        queue := queue + [r];
        RequestPumpTimer();
      }
    }

    /** A retry timer fires: a full retransmission, or resuming after a refused send. */
    method RetryTimerFires(r: nat)
      requires Valid() && Inv(View())
      modifies `queue, `requested, `progress, `nextOrder
      ensures Valid() && View() == RetryFires(old(View()), r) && Inv(View())
    {
      hide Inv, Requeue, NeedsConfirmation;
      RetryFiresKeeps(View(), r);
      var p := ProgressAt(r);
      if r >= |progress| || p.retry.NoRetry? { return; }
      if MessageAt(r).key !in byOperation || stopped {
        progress := progress[r := p.(retry := NoRetry)];
      } else {
        var chunks := if p.retry.FullRetry? then AllChunks(MessageAt(r).frames) else p.pending;
        progress := progress[r := p.(retry := NoRetry, pending := chunks, order := nextOrder)];
        nextOrder := nextOrder + 1;
        RequeueOutbound(r);
      }
    }

    // ----- identity history -------------------------------------------------------------------------

    /** Expired identities leave through the head of the expiry queue, which is compacted now and then. */
    method PruneCommittedOperationIDs()
      requires Valid()
      modifies `expiryHead, `expiryQueue, `committed
      ensures Valid() && View() == Prune(old(View()))
    {
      ghost var before := View();
      while expiryHead < |expiryQueue| && expiryQueue[expiryHead].at <= now
        invariant expiryHead <= |expiryQueue| && expiryQueue == old(expiryQueue)
        invariant Unexpired(expiryQueue[expiryHead..], now) == Unexpired(before.expiries, now)
        invariant Remembered(Table(committed), expiryQueue[expiryHead..], now) == Remembered(before.committed, before.expiries, now)
      {
        var expiry := expiryQueue[expiryHead];
        assert expiryQueue[expiryHead..][1..] == expiryQueue[expiryHead + 1..];
        expiryHead := expiryHead + 1;
        if expiry.op in committed && committed[expiry.op] == Some(expiry.at) {
          committed := committed - {expiry.op};
        }
      }
      assert expiryHead < |expiryQueue| ==> expiryQueue[expiryHead..][0] == expiryQueue[expiryHead];
      if expiryHead == |expiryQueue| {
        expiryQueue := [];
        expiryHead := 0;
      } else if expiryHead >= 1024 {
        expiryQueue := expiryQueue[expiryHead..];
        expiryHead := 0;
      }
    }

    method ScheduleExpiryWakeup()
      requires Valid()
      modifies `wakeAt
      ensures View() == ScheduleWake(old(View()))
    {
      if !blocked || stopped || expiryHead == |expiryQueue| { return; }
      var earliest := expiryQueue[expiryHead].at;
      if wakeAt.Some? && wakeAt.value <= earliest { return; }
      wakeAt := Some(earliest);
    }

    method ExpiryWakeupFires()
      requires Valid() && Inv(View())
      modifies `wakeAt, `blocked, `expiryHead, `expiryQueue, `committed
      ensures Valid() && View() == WakeFires(old(View())) && Inv(View())
    {
      hide Inv, Remembered, Unexpired;
      WakeFiresKeeps(View());
      if wakeAt.None? { return; }
      wakeAt := None;
      PruneCommittedOperationIDs();
      blocked := false;
    }

    method RetainCompletedOperation(op: OpId)
      requires Valid()
      modifies `committed, `expiryQueue, `wakeAt
      ensures Valid() && View() == RetainCompleted(old(View()), op)
    {
      if op !in committed { return; }
      var expiresAt := now + RETENTION_MS;
      committed := committed[op := Some(expiresAt)];
      assert (expiryQueue + [Expiry(op, expiresAt)])[expiryHead..] == expiryQueue[expiryHead..] + [Expiry(op, expiresAt)];
      expiryQueue := expiryQueue + [Expiry(op, expiresAt)];
      if blocked { ScheduleExpiryWakeup(); }
    }

    // ----- terminal outcomes ------------------------------------------------------------------------

    method LeaveTracking(r: nat, status: Status)
      requires Valid()
      modifies `byOperation, `pendingData, `responses
      ensures View() == LeaveMaps(old(View()), r, status)
    {
      var o := MessageAt(r);
      byOperation := byOperation - {o.key};
      if o.message.DataRequest? && o.message.id in pendingData && pendingData[o.message.id] == r {
        pendingData := pendingData - {o.message.id};
      }
      if !status.ConfirmedStatus? { responses := responses - {o.key}; }
    }

    method LeaveQueue(r: nat)
      requires Valid()
      modifies `progress, `queue, `lock
      ensures View() == LeaveLine(old(View()), r)
    {
      hide Without;
      if r < |progress| {
        progress := progress[r := progress[r].(retry := NoRetry, deadline := false)];
      }
      queue := RemoveAll(queue, r);
      if lock == Some(MessageAt(r).msgId) { lock := None; }
    }

    method RecordResult(key: OpId, status: Status)
      requires Valid()
      modifies `results
      ensures View() == Record(old(View()), key, status)
    {
      results := results[key := status];
    }

    lemma MessageViewed(r: nat)
      requires Valid()
      ensures MessageAt(r) == Get(View(), r) && View().lock == lock
    {
    }

    /** `completeOutbound` */
    method CompleteOutbound(r: nat, status: Status)
      requires Valid()
      modifies `progress, `byOperation, `pendingData, `responses, `queue, `lock, `results
      modifies `committed, `expiryQueue, `wakeAt, `requested
      ensures Valid() && View() == Complete(old(View()), r, status)
    {
      hide LeaveMaps, LeaveLine, Leave, RetainCompleted, HasEligible, RequestPump, View;
      MessageViewed(r);
      var releasedObject := lock == Some(MessageAt(r).msgId);
      var key := MessageAt(r).key;
      LeaveParts(View(), r, status);
      LeaveTracking(r, status);
      LeaveQueue(r);
      RetainCompletedOperation(key);
      RecordResult(key, status);
      if releasedObject {
        var eligible := HasEligibleOutbound();
        if eligible { RequestPumpTimer(); }
      }
    }

    method ConfirmAwaitingResponseTransport(r: nat)
      requires Valid()
      modifies `progress, `byOperation, `queue, `results
      ensures View() == ConfirmAwaitingResponse(old(View()), r)
    {
      hide Without, Move;
      var key := MessageAt(r).key;
      MoveOnly(View(), r, ProgressAt(r).(retry := NoRetry));
      SetProgress(r, ProgressAt(r).(retry := NoRetry));
      byOperation := byOperation - {key};
      queue := RemoveAll(queue, r);
      results := results[key := ConfirmedStatus];
    }

    method ForgetAnswered(r: nat, request: OpId)
      requires Valid()
      modifies `byOperation, `pendingData, `responses
      ensures View() == var s := old(View());
                        var key := Get(s, r).key;
                        s.(pendingData := s.pendingData.Drop(request), responses := s.responses.Drop(key),
                           byOperation := s.byOperation.Drop(key))
    {
      var key := MessageAt(r).key;
      pendingData := pendingData - {request};
      responses := responses - {key};
      byOperation := byOperation - {key};
    }

    method LeaveAnsweredQueue(r: nat)
      requires Valid()
      modifies `progress, `queue
      ensures View() == var s := old(View()); s.(queue := Without(s.queue, r), progress := Quiet(s, r))
    {
      hide Without;
      if r < |progress| {
        progress := progress[r := progress[r].(retry := NoRetry, deadline := false)];
      }
      queue := RemoveAll(queue, r);
    }

    /** `completeDataRequest` once the awaited operation is known. */
    method CompleteDataRequest(r: nat, request: OpId)
      requires Valid()
      modifies `progress, `byOperation, `pendingData, `responses, `queue, `results, `committed, `expiryQueue, `wakeAt
      ensures Valid() && View() == CompleteWithResponse(old(View()), r, request)
    {
      hide Without, RetainCompleted, Quiet;
      var key := MessageAt(r).key;
      LeaveAnsweredQueue(r);
      ForgetAnswered(r, request);
      RetainCompletedOperation(key);
      results := results[key := Responded];
    }

    /** The deadline timer of a confirmed operation. */
    method DeadlineTimerFires(r: nat)
      requires Valid() && Inv(View())
      modifies `progress, `byOperation, `pendingData, `responses, `queue, `lock, `results
      modifies `committed, `expiryQueue, `wakeAt, `requested
      ensures Valid() && View() == DeadlineFires(old(View()), r) && Inv(View())
    {
      hide Inv, Complete;
      DeadlineFiresKeeps(View(), r);
      if !ProgressAt(r).deadline { return; }
      CompleteOutbound(r, Failed);
    }

    method CancelOperation(op: OpId) returns (found: bool)
      requires Valid() && Inv(View())
      modifies `progress, `byOperation, `pendingData, `responses, `queue, `lock, `results
      modifies `committed, `expiryQueue, `wakeAt, `requested
      ensures Valid() && View() == Cancel(old(View()), op) && Inv(View())
      ensures found == Cancellable(old(View()), op).Some?
    {
      hide Inv, Complete;
      CancelKeeps(View(), op);
      found := true;
      if op in byOperation { CompleteOutbound(byOperation[op], Failed); }
      else if op in responses { CompleteOutbound(responses[op], Failed); }
      else if op in pendingData { CompleteOutbound(pendingData[op], Failed); }
      else { found := false; }
    }

    // ----- control answers --------------------------------------------------------------------------

    /** The chunks the receiver asks for that exist, in the order it asked. */
    static method ExistingChunks(frames: nat, chunks: seq<nat>) returns (present: seq<nat>)
      ensures present == Present(frames, chunks)
    {
      present := [];
      for index := 0 to |chunks|
        invariant present == Present(frames, chunks[..index])
      {
        assert chunks[..index + 1][..index] == chunks[..index];
        if chunks[index] < frames { present := present + [chunks[index]]; }
      }
      assert chunks[..|chunks|] == chunks;
    }

    method RepairMissingChunks(r: nat, chunks: seq<nat>)
      requires Valid()
      modifies `progress, `queue, `requested
      ensures View() == RepairChunks(old(View()), r, chunks)
    {
      hide Requeue, Present;
      var missing := ExistingChunks(MessageAt(r).frames, chunks);
      if r < |progress| {
        progress := progress[r := progress[r].(pending := missing, retry := if missing == [] then FullRetry else NoRetry)];
      }
      if missing != [] { RequeueOutbound(r); }
    }

    /** `handleControl` for the operation the control message addresses. */
    method ApplyControl(r: nat, c: ControlKind)
      requires Valid()
      modifies `progress, `byOperation, `pendingData, `responses, `queue, `lock, `results
      modifies `committed, `expiryQueue, `wakeAt, `requested
      ensures Valid() && View() == ApplyAnswer(old(View()), r, c)
    {
      hide RepairChunks, ConfirmAwaitingResponse, Complete;
      match c {
        case MissingChunks(_, _, chunks) => RepairMissingChunks(r, chunks);
        case Confirmed(_, _) =>
          if MessageAt(r).message.DataRequest? || MessageAt(r).message.ResourceOperation? {
            ConfirmAwaitingResponseTransport(r);
          } else {
            CompleteOutbound(r, ConfirmedStatus);
          }
        case Rejected(_, _) => CompleteOutbound(r, RejectedStatus);
        case SourceActive(_, _, _) =>
      }
    }

    /** The tracked operation a control message answers: message identities are unique, so the first found is the only one. */
    method FindAnswered(from: Node, op: OpId, msgId: nat) returns (found: Option<nat>)
      requires Valid() && Inv(View())
      ensures found == FoundAnswer(View(), from, op, msgId)
    {
      hide Inv;
      found := None;
      var keys := byOperation.Keys;
      while keys != {} && found.None?
        invariant keys <= byOperation.Keys
        invariant found.Some? ==> AnswerFound(View(), found.value, from, op, msgId)
        invariant found.None? ==> forall k :: k in byOperation && k !in keys ==> !Answers(MessageAt(byOperation[k]), from, op, msgId)
        decreases |keys|
      {
        var k :| k in keys;
        keys := keys - {k};
        if Answers(MessageAt(byOperation[k]), from, op, msgId) { found := Some(byOperation[k]); }
      }
      ghost var expected := FoundAnswer(View(), from, op, msgId);
      if found.Some? && expected.Some? {
        InvLinked(View());
        AnswerUnique(View(), found.value, expected.value, from, op, msgId);
      }
    }

    // ----- submission -------------------------------------------------------------------------------

    /** The queued, unsent publication of the same resource that `m` replaces. */
    method FindReplaceable(m: Message) returns (found: Option<nat>)
      requires Valid()
      ensures found == Replaceable(View(), m)
    {
      found := None;
      if !m.State? { return; }
      var index := 0;
      while index < |queue| && found.None?
        invariant 0 <= index <= |queue|
        invariant found == Coalescable(View(), queue[..index], m.resource)
      {
        assert queue[..index + 1][..index] == queue[..index];
        var o := MessageAt(queue[index]);
        if !ProgressAt(queue[index]).started && o.message.State? && o.message.resource == m.resource {
          found := Some(queue[index]);
        }
        index := index + 1;
      }
      assert queue[..|queue|] == queue;
      CoalescablePrefix(View(), queue, index, m.resource);
    }

    method OutOfQueueSpace(m: Message, useReservation: bool, capacity: Capacity, pendingInbound: nat) returns (full: bool)
      requires Valid()
      ensures full == QueueFull(View(), m, useReservation, capacity, pendingInbound)
    {
      hide Coalescable;
      var replaced := FindReplaceable(m);
      var occupied := |OccupiedBy(queue, byOperation, sending)|;
      full := if useReservation then occupied >= cfg.queueLimit + cfg.confirmedLimit
              else occupied + capacity.additionalOutbound - (if replaced.Some? then 1 else 0)
                   + pendingInbound + capacity.pendingDelta > cfg.queueLimit;
    }

    /** The checks on identities and confirmed capacity; they change nothing. */
    method CheckIdentity(m: Message, op: OpId, capacity: Capacity, held: Option<Reservation>) returns (c: Check)
      requires Valid()
      ensures c == IdentityCheck(View(), m, op, capacity, held)
    {
      hide AwaitedBy, NeedsConfirmation;
      var confirmable := NeedsConfirmation(m);
      if op in reserved && held != Some(reserved[op]) { return Turned(Refused); }
      if op in results && (results[op] != Failed || op in committed) { return Turned(Existing(results[op])); }
      if op in committed { return Turned(Refused); }
      if confirmable && |committed| + capacity.additionalConfirmed > COMMITTED_OPERATION_ID_LIMIT { return Exhausted; }
      if m.DataRequest? && m.id in pendingData { return Turned(Refused); }
      if confirmable && |AwaitedBy(byOperation, pendingData, responses)| + capacity.additionalConfirmed > cfg.confirmedLimit {
        return Turned(Refused);
      }
      return Passed;
    }

    method AdmitOutbound(m: Message, dest: Option<Node>, op: OpId, useReservation: bool, capacity: Capacity,
                         number: nat, held: Option<Reservation>, pendingInbound: nat, frames: nat) returns (p: Prepared)
      requires Valid()
      modifies `blocked, `wakeAt, `nextId, `nextOrder
      ensures (View(), p)
              == Admit(old(View()), m, dest, op, useReservation, capacity, number, held, pendingInbound, frames)
    {
      hide QueueFull, IdentityCheck, ScheduleWake, Admit;
      AdmitByCheck(View(), m, dest, op, useReservation, capacity, number, held, pendingInbound, frames);
      var check := CheckIdentity(m, op, capacity, held);
      match check {
        case Turned(answer) => return answer;
        case Exhausted =>
          blocked := true;
          ScheduleExpiryWakeup();
          return Refused;
        case Passed =>
          var full := OutOfQueueSpace(m, useReservation, capacity, pendingInbound);
          p := ReadyOutbound(m, dest, op, number, held, frames, full);
      }
    }

    method ReadyOutbound(m: Message, dest: Option<Node>, op: OpId, number: nat, held: Option<Reservation>,
                         frames: nat, full: bool) returns (p: Prepared)
      requires Valid()
      modifies `nextId, `nextOrder
      ensures View() == var s := old(View());
                        s.(nextId := if held.Some? then s.nextId else s.nextId + 1,
                           nextOrder := if frames == 0 || full then s.nextOrder else s.nextOrder + 1)
      ensures p == if frames == 0 || full then Refused
                   else Ready(Outbound(m, op, if held.Some? then held.value.msgId else old(nextId), number, dest, frames),
                              old(nextOrder), op in results && results[op] == Failed)
    {
      var msgId := nextId;
      if held.Some? { msgId := held.value.msgId; } else { nextId := nextId + 1; }
      if frames == 0 || full { return Refused; }
      p := Ready(Outbound(m, op, msgId, number, dest, frames), nextOrder, op in results && results[op] == Failed);
      nextOrder := nextOrder + 1;
    }

    /** `prepareOutbound` */
    method PrepareOutbound(m: Message, dest: Option<Node>, op: OpId, useReservation: bool, capacity: Capacity,
                           number: nat, held: Option<Reservation>, pendingInbound: nat, frames: nat) returns (p: Prepared)
      requires Valid()
      modifies `blocked, `wakeAt, `nextId, `nextOrder, `expiryHead, `expiryQueue, `committed
      ensures Valid()
      ensures (View(), p)
              == Prepare(old(View()), m, dest, op, useReservation, capacity, number, held, pendingInbound, frames)
    {
      hide Admit, Prune, NeedsConfirmation, ValidStateSource, View;
      ViewNow();
      if stopped || !ValidStateSource(m, cfg.node) || (NeedsConfirmation(m) && dest.None?) || (m.DataRequest? && m.id != op) {
        return Refused;
      }
      PruneCommittedOperationIDs();
      p := AdmitOutbound(m, dest, op, useReservation, capacity, number, held, pendingInbound, frames);
    }

    /** A failed earlier attempt and a queued, unsent publication make way for `o`. */
    method ReplaceEarlier(o: Outbound, replacesFailed: bool)
      requires Valid()
      modifies `results, `sequence, `queue
      ensures View() == EarlierReplaced(old(View()), o, replacesFailed)
    {
      hide Replaceable, Without;
      if replacesFailed { results := results - {o.key}; }
      var previous := FindReplaceable(o.message);
      assert previous == Replaceable(old(View()), o.message) by { SameReplaced(old(View()), View(), o.message); }
      sequence := Max(sequence, o.sequence);
      if previous.Some? {
        queue := RemoveAll(queue, previous.value);
        results := results[MessageAt(previous.value).key := Failed];
      }
    }

    method TrackOutbound(o: Outbound, r: nat)
      requires Valid()
      modifies `committed, `byOperation, `pendingData, `responses
      ensures View() == Track(old(View()), o, r)
    {
      if o.Confirmable() {
        committed := committed[o.key := None];
        byOperation := byOperation[o.key := r];
        if o.message.DataRequest? { pendingData := pendingData[o.key := r]; }
        if o.message.ResourceOperation? { responses := responses[o.key := r]; }
      }
    }

    method JoinQueue(o: Outbound, order: nat)
      requires Valid()
      modifies `reserved, `queue, `heap, `progress
      ensures View() == Joining(old(View()), o, order)
    {
      hide AllChunks;
      DropReservation(o.key);
      Append(o, order);
    }

    method DropReservation(op: OpId)
      requires Valid()
      modifies `reserved
      ensures View() == old(View()).(reserved := Table(old(reserved) - {op}))
    {
      reserved := reserved - {op};
    }

    method Append(o: Outbound, order: nat)
      requires Valid()
      modifies `queue, `heap, `progress
      ensures View() == old(View()).(queue := old(queue) + [|old(heap)|], heap := old(heap) + [o],
                                     progress := old(progress)
                                                 + [Progress(AllChunks(o.frames), false, order, NoRetry, o.Confirmable())])
    {
      hide AllChunks;
      queue := queue + [|heap|];
      heap := heap + [o];
      progress := progress + [Progress(AllChunks(o.frames), false, order, NoRetry, o.Confirmable())];
    }

    /** `commitOutbound`, up to recording the result and waking the pump. */
    method CommitOutbound(o: Outbound, order: nat, replacesFailed: bool)
      requires Valid()
      modifies `results, `sequence, `queue, `reserved, `heap, `progress, `committed, `byOperation, `pendingData, `responses
      ensures View() == Commit(old(View()), o, order, replacesFailed)
    {
      hide EarlierReplaced, Joining, Track, Commit;
      CommitParts(View(), o, order, replacesFailed);
      ReplaceEarlier(o, replacesFailed);
      var r := |heap|;
      JoinQueue(o, order);
      TrackOutbound(o, r);
      EarlierHeap(old(View()), o, replacesFailed);
    }

    method SubmitWithCapacity(m: Message, dest: Option<Node>, op: OpId, useReservation: bool, number: nat,
                              held: Option<Reservation>, pendingInbound: nat, frames: nat) returns (status: Status)
      requires Valid()
      modifies `blocked, `wakeAt, `nextId, `nextOrder, `expiryHead, `expiryQueue, `committed
      modifies `results, `sequence, `queue, `reserved, `heap, `progress, `byOperation, `pendingData, `responses, `requested
      ensures Valid()
      ensures var (n, p) := Prepare(old(View()), m, dest, op, useReservation, DefaultCapacity(m), number, held, pendingInbound, frames);
              (View(), status) == SubmitPrepared(n, op, p)
    {
      hide Prepare, Commit, RequestPump, NeedsConfirmation;
      var prepared := PrepareOutbound(m, dest, op, useReservation, DefaultCapacity(m), number, held, pendingInbound, frames);
      match prepared {
        case Existing(earlier) => return earlier;
        case Refused =>
          results := results[op := Failed];
          return Failed;
        case Ready(o, order, replacesFailed) =>
          CommitOutbound(o, order, replacesFailed);
          results := results[op := Queued];
          RequestPumpTimer();
          return Queued;
      }
    }

    method SendControlMessage(c: ControlKind, dest: Node, useReservation: bool, pendingInbound: nat, frames: nat)
      returns (status: Status)
      requires Valid()
      modifies `blocked, `wakeAt, `nextId, `nextOrder, `expiryHead, `expiryQueue, `committed
      modifies `results, `sequence, `queue, `reserved, `heap, `progress, `byOperation, `pendingData, `responses, `requested
      ensures Valid()
      ensures (View(), status) == SendControl(old(View()), c, dest, useReservation, pendingInbound, frames)
    {
      hide Prepare, SubmitPrepared;
      var op := Drawn(nextId);
      nextId := nextId + 1;
      status := SubmitWithCapacity(Control(c), Some(dest), op, useReservation, sequence + 1, None, pendingInbound, frames);
    }

    // ----- reservations and lifecycle ---------------------------------------------------------------

    method ReserveTaskDelivery(m: Message, dest: Node, op: OpId, frames: nat) returns (ok: bool)
      requires Valid() && Inv(View())
      modifies `nextId, `sequence, `reserved, `expiryHead, `expiryQueue, `committed
      ensures Valid() && (View(), ok) == Reserve(old(View()), m, dest, op, frames) && Inv(View())
    {
      hide Inv, Remembered, Unexpired;
      ReserveKeeps(View(), m, dest, op, frames);
      if stopped || !m.TaskDelivery? { return false; }
      var msgId := nextId;
      nextId := nextId + 1;
      if frames == 0 { return false; }
      PruneCommittedOperationIDs();
      if op in reserved || op in committed || (op in results && results[op] != Failed)
         || |reserved| >= TASK_RESERVATION_LIMIT { return false; }
      HoldPlace(m, dest, op, msgId);
      return true;
    }

    method HoldPlace(m: Message, dest: Node, op: OpId, msgId: nat)
      requires Valid()
      modifies `sequence, `reserved
      ensures View() == old(View()).(sequence := old(sequence) + 1,
                                     reserved := Table(old(reserved)[op := Reservation(m, dest, old(sequence) + 1, msgId)]))
    {
      sequence := sequence + 1;
      reserved := reserved[op := Reservation(m, dest, sequence, msgId)];
    }

    method CancelTaskReservation(op: OpId)
      requires Valid() && Inv(View())
      modifies `reserved
      ensures Valid() && View() == CancelReservation(old(View()), op) && Inv(View())
    {
      hide Inv;
      DropKeeps(View(), op);
      reserved := reserved - {op};
    }

    method PauseSending()
      requires Valid() && Inv(View())
      modifies `paused, `requested, `waiters
      ensures Valid() && View() == Pause(old(View())) && Inv(View())
    {
      hide Inv;
      PauseKeeps(View());
      if stopped { return; }
      paused := true;
      requested := false;
      if sending.Some? { waiters := waiters + 1; }
    }

    method ResumeSending()
      requires Valid() && Inv(View())
      modifies `paused, `requested
      ensures Valid() && View() == Resume(old(View())) && Inv(View())
    {
      hide Inv, HasEligible;
      ResumeKeeps(View());
      PausedEligible(View());
      if stopped { return; }
      paused := false;
      var eligible := HasEligibleOutbound();
      if eligible { RequestPumpTimer(); }
    }

    method FailOutbound(r: nat)
      requires Valid()
      modifies `progress, `byOperation, `pendingData, `responses, `queue, `lock, `results
      modifies `committed, `expiryQueue, `wakeAt, `requested
      ensures Valid() && View() == FailAll(old(View()), [r])
    {
      hide Complete, FailBestEffort, NeedsConfirmation;
      assert [r][..0] == [];
      if MessageAt(r).Confirmable() { CompleteOutbound(r, Failed); } else { FailBestEffortOutbound(r); }
    }

    method ClosePump()
      requires Valid()
      modifies `stopped, `paused, `requested
      ensures View() == old(View()).(stopped := true, paused := true, requested := false)
    {
      stopped, paused, requested := true, true, false;
    }

    method CloseIdentities()
      requires Valid()
      modifies `reserved, `wakeAt, `blocked
      ensures View() == old(View()).(reserved := Table(map[]), wakeAt := None, blocked := false)
    {
      reserved, wakeAt, blocked := map[], None, false;
    }

    /** Fails every queued, tracked and active message, in some order. */
    method FailEverything() returns (ghost refs: seq<nat>)
      requires Valid()
      modifies `progress, `byOperation, `pendingData, `responses, `queue, `lock, `results
      modifies `committed, `expiryQueue, `wakeAt, `requested
      ensures Valid() && Concerns(old(View()), refs) && View() == FailAll(old(View()), refs)
    {
      hide FailAll;
      ghost var before := View();
      var todo := OccupiedBy(queue, byOperation, sending) + AwaitedBy(byOperation, pendingData, responses);
      ghost var all := todo;
      refs := [];
      FailNone(before);
      while todo != {}
        invariant Valid() && View() == FailAll(before, refs)
        invariant todo <= all && forall r :: r in refs <==> r in all && r !in todo
        decreases |todo|
      {
        var r :| r in todo;
        FailMore(before, refs, r);
        FailOutbound(r);
        refs := refs + [r];
        todo := todo - {r};
      }
    }

    method StopSending() returns (ghost refs: seq<nat>)
      requires Valid() && !stopped
      modifies `stopped, `paused, `reserved, `blocked, `waiters
      modifies `progress, `byOperation, `pendingData, `responses, `queue, `lock, `results
      modifies `committed, `expiryQueue, `wakeAt, `requested
      ensures Valid() && Concerns(old(View()), refs) && View() == Stop(old(View()), refs)
    {
      hide FailAll, Concerns, View;
      ViewNow();
      ClosePump();
      CloseIdentities();
      refs := FailEverything();
      ConcernsClosing(old(View()), refs);
      FailAllOnly(Closing(old(View())), refs);
      FailAllSending(Closing(old(View())), refs);
      EmptyQueues();
    }

    /** Nothing is queued or answered any more; without a send in progress the pause waiters are released. */
    method EmptyQueues()
      requires Valid()
      modifies `queue, `responses, `waiters
      ensures View() == old(View()).(queue := [], responses := Table(map[]),
                                     waiters := if old(View()).sending.None? then 0 else old(View()).waiters)
    {
      queue := [];
      responses := map[];
      waiters := if sending.None? then 0 else waiters;
    }

    /** `stop` */
    method StopTransport() returns (ghost refs: seq<nat>)
      requires Valid() && LinkInv(LinkView())
      modifies this
      ensures Valid() && LinkInv(LinkView())
      ensures Concerns(old(View()), refs) && LinkView() == StopLink(old(LinkView()), refs)
    {
      hide LinkInv, Stop, Concerns;
      refs := AnyOrder(View());
      if stopped { return; }
      ghost var before := LinkView();
      refs := StopSending();
      StopLinkKeeps(before, refs);
      partial := [];
      pending := map[];
    }

    // ----- source fences and the settlement history -------------------------------------------------

    /** `activateSourceFence` */
    method ActivateSourceFence(source: Node, generation: nat, session: string, admits: bool) returns (ok: bool)
      requires Valid()
      modifies `fences, `partial
      ensures (LinkView(), ok) == ActivateFence(old(LinkView()), source, generation, session, admits)
    {
      hide KeepUnfenced;
      if !PassesFence(Table(fences), source, generation, session) { return false; }
      var changed := source !in fences || generation > fences[source].generation;
      if changed && !admits { return false; }
      fences := fences[source := Fence(generation, session)];
      if changed {
        partial := DropFencedOff(partial, source, generation, session);
      }
      return true;
    }

    /** Expired results leave the history from the front, where the oldest are. */
    method PruneSettledInbound()
      requires Valid()
      modifies `settled
      ensures settled == PruneSettled(old(settled), now)
    {
      while settled != [] && settled[0].expiresAt <= now
        invariant PruneSettled(settled, now) == PruneSettled(old(settled), now)
        decreases |settled|
      {
        settled := settled[1..];
      }
    }

    /** `recordSettledInbound` */
    method RecordSettledInbound(id: SettlementId, confirmed: bool)
      requires Valid()
      modifies `settled
      ensures LinkView() == RecordSettled(old(LinkView()), id, confirmed, None)
    {
      hide PruneSettled, Lookup;
      PruneSettledInbound();
      if Lookup(settled, id).Some? { return; }
      if id !in pending && |settled| + |pending| >= SETTLED_INBOUND_LIMIT { return; }
      settled := settled + [Settled(id, confirmed, now + RETENTION_MS, None)];
    }

    method ReplyTo(to: Node, c: ControlKind, frames: nat)
      requires Valid()
      modifies `blocked, `wakeAt, `nextId, `nextOrder, `expiryHead, `expiryQueue, `committed
      modifies `results, `sequence, `queue, `reserved, `heap, `progress, `byOperation, `pendingData, `responses, `requested
      ensures Valid() && LinkView() == Reply(old(LinkView()), to, c, frames)
    {
      hide SendControl, View;
      var _ := SendControlMessage(c, to, true, |pending|, frames);
    }

    /** `rejectAddressedMessage` and `rejectInboundCapacity` */
    method RejectMessage(i: Identity, frames: nat)
      requires Valid()
      modifies this
      ensures Valid() && LinkView() == Refuse(old(LinkView()), i, frames)
    {
      hide Reply, RecordSettled;
      RecordSettledInbound(IdOf(i), false);
      ReplyTo(i.source, Rejected(i.op, i.msgId), frames);
    }

    // ----- received messages ------------------------------------------------------------------------

    method AnswerReceived(from: Node, op: OpId, msgId: nat, c: ControlKind)
      requires Valid() && Inv(View())
      modifies `progress, `byOperation, `pendingData, `responses, `queue, `lock, `results
      modifies `committed, `expiryQueue, `wakeAt, `requested
      ensures Valid() && View() == AnswerTo(old(View()), from, op, msgId, c)
    {
      hide Inv, ApplyAnswer, FoundAnswer;
      var found := FindAnswered(from, op, msgId);
      if found.Some? { ApplyControl(found.value, c); }
    }

    /** `handleControl` */
    method HandleControlMessage(c: ControlKind, from: Node, dest: Option<Node>, env: Env)
      requires Valid() && Inv(View())
      modifies this
      ensures Valid() && LinkView() == HandleControl(old(LinkView()), c, from, dest, env)
    {
      hide Inv, AnswerTo, ActivateFence, View;
      ViewNow();
      match c {
        case SourceActive(source, generation, session) =>
          if from.role.Gateway? {
            var _ := ActivateSourceFence(source, generation, session, env.admits(source));
          }
        case Confirmed(op, msgId) => if dest == Some(cfg.node) { AnswerReceived(from, op, msgId, c); }
        case Rejected(op, msgId) => if dest == Some(cfg.node) { AnswerReceived(from, op, msgId, c); }
        case MissingChunks(op, msgId, _) => if dest == Some(cfg.node) { AnswerReceived(from, op, msgId, c); }
      }
    }

    /** `acceptTaskDeliverySequence` */
    method AcceptTaskDelivery(i: Identity, m: Message) returns (order: Order)
      requires Valid()
      modifies `deliveries
      ensures (LinkView(), order) == AcceptDelivery(old(LinkView()), i, m)
    {
      hide FindDelivery;
      if !m.TaskDelivery? { return NewDelivery; }
      var at := FindDelivery(deliveries, i, m.task);
      if at.Some? && i.sequence < deliveries[at.value].sequence { return StaleDelivery; }
      if at.Some? && i.sequence == deliveries[at.value].sequence { return DuplicateDelivery; }
      var d := Delivery(i.source, i.generation, i.session, m.task, i.sequence);
      deliveries := TrimOldest(if at.Some? then deliveries[at.value := d] else deliveries + [d]);
      return NewDelivery;
    }

    method RaiseEvent(i: Identity, m: Message)
      requires Valid()
      modifies `events
      ensures LinkView() == Raise(old(LinkView()), i, m)
    {
      events := events + [Event(IdOf(i), i.sequence, NeedsConfirmation(m) && i.dest == Some(cfg.node), now, m)];
    }

    method AwaitApplication(i: Identity, m: Message)
      requires Valid()
      modifies `pending
      ensures LinkView() == AwaitSettlement(old(LinkView()), i, m)
    {
      if NeedsConfirmation(m) && i.dest == Some(cfg.node) {
        pending := pending[IdOf(i) := Pending(i.source, i.op, i.msgId, if m.TaskDelivery? then Some(m.task) else None)];
      }
    }

    /** `matchingResponseOperation` */
    method FindMatching(i: Identity, m: Message, env: Env) returns (found: Option<nat>)
      requires Valid()
      ensures found == Matching(View(), i, m, env)
    {
      found := None;
      var request := RequestOf(m);
      if request.None? { return; }
      var r := 0;
      if request.value in pendingData { r := pendingData[request.value]; }
      else if m.DataResponse? && request.value in responses { r := responses[request.value]; }
      else { return; }
      var o := MessageAt(r);
      if o.dest != Some(i.source) || !env.matches(r) { return; }
      if o.message.DataRequest? || (m.DataResponse? && o.message.ResourceOperation?) { found := Some(r); }
    }

    method CompleteAwaited(i: Identity, m: Message, env: Env)
      requires Valid()
      modifies `progress, `byOperation, `pendingData, `responses, `queue, `results, `committed, `expiryQueue, `wakeAt
      ensures Valid() && LinkView() == AnswerRequest(old(LinkView()), i, m, env)
    {
      hide Matching, CompleteWithResponse;
      MatchingRequest(View(), i, m, env);
      if i.dest != Some(cfg.node) { return; }
      var r := FindMatching(i, m, env);
      if r.Some? { CompleteDataRequest(r.value, RequestOf(m).value); }
    }

    /** The message gets past the settlement history: room for its settlement, then the event. */
    method DeliverNew(i: Identity, m: Message, env: Env)
      requires Valid()
      modifies this
      ensures Valid()
      ensures LinkView() == Raise(AnswerRequest(AwaitSettlement(old(LinkView()), i, m), i, m, env), i, m)
    {
      hide Raise, AnswerRequest, AwaitSettlement;
      AwaitApplication(i, m);
      CompleteAwaited(i, m, env);
      RaiseEvent(i, m);
    }

    /** There is no room for another delivery that has to be settled. */
    method LacksRoom() returns (full: bool)
      requires Valid()
      ensures full == NoRoom(LinkView())
    {
      hide OccupiedBy;
      return |pending| >= cfg.confirmedLimit || |OccupiedBy(queue, byOperation, sending)| + |pending| >= cfg.queueLimit
             || |settled| + |pending| >= SETTLED_INBOUND_LIMIT;
    }

    /** What the settlement history, awaited answers and the limits say about a message; nothing changes. */
    method RuleOn(i: Identity, m: Message, order: Order, env: Env) returns (ruling: Ruling)
      requires Valid()
      ensures ruling == RulingOn(LinkView(), i, m, order, env)
    {
      hide Lookup, NeedsConfirmation, Matching, NoRoom, View, RequestOf;
      ViewNow();
      var addressed := i.dest == Some(cfg.node);
      var settles := NeedsConfirmation(m) && addressed;
      var known := Lookup(settled, IdOf(i));
      var matching := FindMatching(i, m, env);
      var full := LacksRoom();
      return if settles && known.Some? then AnswerAgain(Answer(known.value.confirmed, i.op, i.msgId))
             else if settles && IdOf(i) in pending then Ignore
             else if addressed && RequestOf(m).Some? && matching.None? then Ignore
             else if settles && order.DuplicateDelivery? then Ignore
             else if settles && full then TurnAway else PassOn;
    }

    method DeliverMessage(i: Identity, m: Message, order: Order, env: Env)
      requires Valid()
      modifies this
      ensures Valid() && LinkView() == Deliver(old(LinkView()), i, m, order, env)
    {
      hide Deliver, RulingOn, Raise, AnswerRequest, AwaitSettlement, Reply, Refuse, PruneSettled, NeedsConfirmation;
      DeliverByRuling(LinkView(), i, m, order, env);
      if NeedsConfirmation(m) && i.dest == Some(cfg.node) { PruneSettledInbound(); }
      var ruling := RuleOn(i, m, order, env);
      match ruling {
        case AnswerAgain(c) => ReplyTo(i.source, c, env.frames);
        case Ignore =>
        case TurnAway => RejectMessage(i, env.frames);
        case PassOn => DeliverNew(i, m, env);
      }
    }

    /** From the sender's right to send this to the order of Task deliveries. */
    method ScreenMessage(i: Identity, m: Message, env: Env)
      requires Valid()
      modifies this
      ensures Valid() && LinkView() == Screen(old(LinkView()), i, m, env)
    {
      hide Refuse, Deliver, AcceptDelivery, NeedsConfirmation, View;
      ViewNow();
      var addressed := i.dest == Some(cfg.node);
      if NeedsConfirmation(m) && i.dest.None? { return; }
      if (m.TaskDelivery? && !i.source.role.Gateway?) || (m.TaskDelivery? && addressed && m.asset != cfg.node.id)
         || (m.TaskReport? && !i.source.role.Asset?)
         || (m.TaskReport? && env.assignee.Some? && env.assignee.value != i.source.id) {
        if addressed { RejectMessage(i, env.frames); }
        return;
      }
      AcceptShape(LinkView(), i, m);
      var order := AcceptTaskDelivery(i, m);
      if order.StaleDelivery? {
        if addressed { RejectMessage(i, env.frames); }
        return;
      }
      if order.DuplicateDelivery? && !addressed { return; }
      DeliverMessage(i, m, order, env);
    }

    /** `handleCompleteMessage` */
    method HandleCompleteMessage(i: Identity, decoded: Option<Message>, env: Env)
      requires Valid() && LinkInv(LinkView()) && !stopped
      modifies this
      ensures Valid() && LinkView() == HandleComplete(old(LinkView()), i, decoded, env)
    {
      hide Inv, InboundInv, ActivateFence, HandleControl, Screen, NeedsConfirmation, ValidStateSource;
      if decoded.None? { return; }
      var m := decoded.value;
      if KindOf(m) != i.kind || MessagePriority(m) != i.priority || !ValidStateSource(m, i.source) { return; }
      ActivateKeeps(LinkView(), i.source, i.generation, i.session, env.admits(i.source));
      var ok := ActivateSourceFence(i.source, i.generation, i.session, env.admits(i.source));
      if !ok { return; }
      if m.Control? {
        if i.dest.Some? && i.dest != Some(cfg.node) { return; }
        HandleControlMessage(m.control, i.source, i.dest, env);
        return;
      }
      if m.TaskReport? && i.receipt.Some? && i.source.role.Asset? {
        HandleControlMessage(Confirmed(i.receipt.value.op, i.receipt.value.msgId), i.source, i.dest, env);
      }
      ScreenMessage(i, m, env);
    }

    /** `makeReassemblyRoom`: the first of those heard from longest ago gives way. */
    method MakeReassemblyRoom()
      requires Valid()
      modifies `partial
      ensures partial == MakeRoom(old(partial), cfg.reassemblyLimit)
    {
      if |partial| < cfg.reassemblyLimit || partial == [] { return; }
      var oldest := 0;
      for index := 1 to |partial|
        invariant oldest < index
        invariant oldest == Oldest(partial[..index])
      {
        assert partial[..index + 1][..index] == partial[..index];
        if partial[index].lastReceivedAt < partial[oldest].lastReceivedAt { oldest := index; }
      }
      assert partial[..|partial|] == partial;
      partial := partial[..oldest] + partial[oldest + 1..];
    }

    /** Files the frame with its message; the bytes come back once nothing is missing. */
    method CollectFrame(f: Frame, receivedAt: nat, expiresAt: nat) returns (done: Option<(Identity, Bytes)>)
      requires Valid()
      modifies `partial
      ensures (partial, done) == Collect(old(partial), cfg.reassemblyLimit, f, receivedAt, expiresAt)
    {
      hide MakeRoom, Find, SameFrameSet, Join;
      var known := Find(partial, KeyOf(f.identity));
      var at := 0;
      if known.Some? {
        at := known.value;
      } else {
        MakeReassemblyRoom();
        at := |partial|;
        partial := partial + [Begin(f, receivedAt, expiresAt)];
      }
      var held := partial[at];
      if !SameFrameSet(held, f) || f.index in held.chunks.m { return None; }
      if held.size + |f.payload| > MAX_LINK_MESSAGE_BYTES {
        partial := partial[..at] + partial[at + 1..];
        return None;
      }
      var chunks := held.chunks.Put(f.index, f.payload);
      if |chunks.m| != held.count {
        partial := partial[at := held.(chunks := chunks, size := held.size + |f.payload|, lastReceivedAt := receivedAt)];
        return None;
      }
      var bytes := JoinChunks(chunks, held.count);
      done := Some((held.identity, bytes));
      partial := partial[..at] + partial[at + 1..];
    }

    /** `expectsObjectContent` */
    method ExpectsObjectContent(i: Identity) returns (expected: bool)
      requires Valid() && LinkInv(LinkView())
      modifies `settled
      ensures expected == ExpectsContent(old(LinkView()), i)
      ensures LinkView() == if Addressed(old(LinkView()), i)
                            then old(LinkView()).(settled := PruneSettled(old(settled), now)) else old(LinkView())
      ensures LinkInv(LinkView())
    {
      hide Inv, InboundInv, PruneSettled, Lookup, View, Requested;
      ViewNow();
      if i.dest != Some(cfg.node) { return false; }
      PruneSettledKeeps(LinkView());
      PruneSettledInbound();
      ExpectsMeans(old(LinkView()), i);
      if IdOf(i) in pending || Lookup(settled, IdOf(i)).Some? { return true; }
      expected := AwaitsContent(i);
    }

    method AwaitsContent(i: Identity) returns (awaits: bool)
      requires Valid()
      ensures awaits == Requested(View(), i)
    {
      if i.op !in pendingData { return false; }
      var o := MessageAt(pendingData[i.op]);
      return o.message.DataRequest? && o.message.content && o.message.id == i.op && o.dest == Some(i.source);
    }

    /** `receive`: one frame from the radio. */
    method ReceiveFrame(f: Frame, receivedAt: nat, env: Env)
      requires Valid() && LinkInv(LinkView()) && f.WellFormed()
      modifies this
      ensures Valid() && LinkView() == Receive(old(LinkView()), f, receivedAt, env) && LinkInv(LinkView())
    {
      hide Inv, InboundInv, HandleComplete, Collect, PassesFence, PruneSettled, Lookup, ExpectsContent, View;
      ViewNow();
      ReceiveKeeps(LinkView(), f, receivedAt, env);
      var i := f.identity;
      if stopped || i.source == cfg.node || !PassesFence(Table(fences), i.source, i.generation, i.session) { return; }
      if i.kind.ContentKind? {
        var expected := ExpectsObjectContent(i);
        if !expected { return; }
      }
      CollectedNow(LinkView(), f, receivedAt, now + DeadlineMs(i.priority));
      var done := CollectFrame(f, receivedAt, now + DeadlineMs(i.priority));
      if done.Some? { HandleCompleteMessage(done.value.0, env.decode(done.value.1), env); }
    }

    // ----- timers and verdicts on deliveries --------------------------------------------------------

    /** `expireReassembly` */
    method ReassemblyTimerFires(key: Key, frames: nat)
      requires Valid() && LinkInv(LinkView())
      modifies this
      ensures Valid() && LinkView() == ReassemblyExpires(old(LinkView()), key, frames) && LinkInv(LinkView())
    {
      hide LinkInv, RepairOrDropAt, Moves, Find;
      ReassemblyExpiresKeeps(LinkView(), key, frames);
      var at := Find(partial, key);
      if at.Some? { RepairOrDrop(at.value, frames); }
    }

    method AskForMissing(r: Reassembly, frames: nat)
      requires Valid()
      modifies `blocked, `wakeAt, `nextId, `nextOrder, `expiryHead, `expiryQueue, `committed
      modifies `results, `sequence, `queue, `reserved, `heap, `progress, `byOperation, `pendingData, `responses, `requested
      ensures Valid()
      ensures View() == SendControl(old(View()), MissingChunks(r.identity.op, r.identity.msgId, MissingFrom(r.chunks, r.count)),
                                    r.identity.source, false, |pending|, frames).0
    {
      hide SendControl;
      var missing := MissingIndices(r.chunks, r.count);
      var _ := SendControlMessage(MissingChunks(r.identity.op, r.identity.msgId, missing), r.identity.source, false, |pending|, frames);
    }

    method RepairOrDrop(at: nat, frames: nat)
      requires Valid() && at < |partial|
      modifies this
      ensures Valid() && LinkView() == RepairOrDropAt(old(LinkView()), at, frames)
    {
      hide SendControl, RepairInterval, RepairAfter, View, MissingFrom;
      var r := partial[at];
      RepairSame(r);
      ViewNow();
      if !r.identity.kind.StateKind? && r.identity.dest == Some(cfg.node) && now + RepairAfter(r) < r.expiresAt {
        AskForMissing(r, frames);
      } else {
        partial := partial[..at] + partial[at + 1..];
      }
    }

    lemma RepairSame(r: Reassembly)
      requires Valid()
      ensures RepairAfter(r) == RepairInterval(LinkView(), r)
    {
    }

    /** `reassemblyInterval` */
    function RepairAfter(r: Reassembly): nat
      reads this
    {
      var i := r.identity;
      if i.kind.StateKind? || i.kind.ControlMessageKind? || i.dest != Some(cfg.node) || r.count == 0
         || r.count - 1 !in r.chunks.m then cfg.reassemblyTimeout
      else if i.priority.TaskPriority? || i.priority.Safety? then
        if cfg.reassemblyTimeout < 1000 then cfg.reassemblyTimeout else 1000
      else cfg.reassemblyTimeout
    }

    /** The delivery moves from pending into the settlement history. */
    method RememberVerdict(id: SettlementId, confirmed: bool)
      requires Valid()
      modifies `settled, `pending
      ensures LinkView() == Unpend(RecordSettled(old(LinkView()), id, confirmed, None), id)
    {
      hide RecordSettled;
      RecordShape(LinkView(), id, confirmed, None);
      RecordSettledInbound(id, confirmed);
      pending := pending - {id};
    }

    /** `settleInbound` */
    method SettleInbound(id: SettlementId, accepted: bool, frames: nat) returns (ok: bool)
      requires Valid() && LinkInv(LinkView())
      modifies this
      ensures Valid() && (LinkView(), ok) == Settle(old(LinkView()), id, accepted, frames) && LinkInv(LinkView())
    {
      hide LinkInv, Settle, Moves, Ids;
      SettleKeeps(LinkView(), id, accepted, frames);
      ok := AnswerAndRemember(id, accepted, frames);
    }

    method AnswerAndRemember(id: SettlementId, accepted: bool, frames: nat) returns (ok: bool)
      requires Valid()
      modifies this
      ensures Valid() && (LinkView(), ok) == Settle(old(LinkView()), id, accepted, frames)
    {
      hide SendControl, RecordSettled, Unpend, View;
      if id !in pending { return false; }
      var p := pending[id];
      var status := SendControlMessage(Answer(accepted, p.op, p.msgId), p.source, true, |pending|, frames);
      if status.Failed? { return false; }
      RememberVerdict(id, accepted);
      return true;
    }

    /** `expirePendingInbound` */
    method PendingTimerFires(id: SettlementId, frames: nat)
      requires Valid() && LinkInv(LinkView())
      modifies this
      ensures Valid() && LinkView() == PendingExpires(old(LinkView()), id, frames) && LinkInv(LinkView())
    {
      hide LinkInv, Reply, RecordSettled, Unpend, Moves, Ids;
      PendingExpiresKeeps(LinkView(), id, frames);
      if id !in pending { return; }
      var p := pending[id];
      ReplyTo(p.source, Rejected(p.op, p.msgId), frames);
      RememberVerdict(id, false);
    }

    // ----- calls from the application ---------------------------------------------------------------

    /** `submit` */
    method SubmitMessage(m: Message, dest: Option<Node>, op: OpId, frames: nat) returns (status: Status)
      requires Valid() && Inv(View())
      modifies `blocked, `wakeAt, `nextId, `nextOrder, `expiryHead, `expiryQueue, `committed
      modifies `results, `sequence, `queue, `reserved, `heap, `progress, `byOperation, `pendingData, `responses, `requested
      ensures Valid() && Inv(View())
      ensures (View(), status) == Submit(old(View()), m, dest, op, false, |pending|, frames)
    {
      hide Inv, Prepare, SubmitPrepared;
      SubmitKeeps(View(), m, dest, op, false, |pending|, frames);
      status := SubmitWithCapacity(m, dest, op, false, sequence + 1, None, |pending|, frames);
    }

    /** `dispatch` of a reserved Task delivery, which uses the identity set aside for it. */
    method DispatchReservedTask(op: OpId, frames: nat) returns (status: Status)
      requires Valid() && Inv(View())
      modifies `blocked, `wakeAt, `nextId, `nextOrder, `expiryHead, `expiryQueue, `committed
      modifies `results, `sequence, `queue, `reserved, `heap, `progress, `byOperation, `pendingData, `responses, `requested
      ensures Valid() && Inv(View())
      ensures (View(), status) == DispatchReserved(old(View()), op, |pending|, frames)
    {
      hide Inv, Prepare, SubmitPrepared;
      DispatchKeeps(View(), op, |pending|, frames);
      if op !in reserved { return Failed; }
      var held := reserved[op];
      status := SubmitWithCapacity(held.message, Some(held.dest), op, false, held.sequence, Some(held), |pending|, frames);
    }

    /** `announceSourceActivation` */
    method AnnounceSourceActivation(source: Node, generation: nat, session: string, admits: bool, frames: nat)
      requires Valid() && LinkInv(LinkView())
      modifies this
      ensures Valid() && LinkInv(LinkView())
      ensures LinkView() == Announce(old(LinkView()), source, generation, session, admits, frames)
    {
      hide LinkInv, Inv, InboundInv, Submit, ActivateFence, Moves, View;
      ViewNow();
      AnnounceKeeps(LinkView(), source, generation, session, admits, frames);
      if !cfg.node.role.Gateway? || !source.role.Asset? || generation == 0 { return; }
      ActivateInv(LinkView(), source, generation, session, admits);
      var ok := ActivateSourceFence(source, generation, session, admits);
      if !ok { return; }
      var _ := SubmitMessage(Control(SourceActive(source, generation, session)), None, Activation(source.id, generation), frames);
    }

    method PrepareReceipt(receipt: ControlKind, dest: Node, pendingInbound: nat, frames: nat) returns (p: Prepared)
      requires Valid()
      modifies `blocked, `wakeAt, `nextId, `nextOrder, `expiryHead, `expiryQueue, `committed
      ensures Valid()
      ensures (View(), p) == var s := old(View());
                             Prepare(s.(nextId := s.nextId + 1), Control(receipt), Some(dest), Drawn(s.nextId), false,
                                     RECEIPT_CAPACITY, s.sequence + 1, None, pendingInbound, frames)
    {
      hide Prepare;
      var key := Drawn(nextId);
      nextId := nextId + 1;
      p := PrepareOutbound(Control(receipt), Some(dest), key, false, RECEIPT_CAPACITY, sequence + 1, None, pendingInbound, frames);
    }

    method CommitTogether(a: Prepared, b: Prepared, key: OpId, op: OpId)
      requires Valid() && a.Ready? && b.Ready?
      modifies `results, `sequence, `queue, `reserved, `heap, `progress, `committed, `byOperation, `pendingData, `responses, `requested
      ensures Valid()
      ensures View() == RequestPump(Record(Record(
                          Commit(Commit(old(View()), a.outbound, a.order, a.replacesFailed), b.outbound, b.order, b.replacesFailed),
                          key, Queued), op, Queued))
    {
      hide Commit, RequestPump;
      CommitOutbound(a.outbound, a.order, a.replacesFailed);
      CommitOutbound(b.outbound, b.order, b.replacesFailed);
      results := results[key := Queued][op := Queued];
      RequestPumpTimer();
    }

    /** Both messages are prepared before either is committed. */
    method SendTogether(receipt: ControlKind, report: Message, dest: Node, op: OpId, pendingInbound: nat,
                        receiptFrames: nat, reportFrames: nat) returns (ok: bool)
      requires Valid()
      modifies `blocked, `wakeAt, `nextId, `nextOrder, `expiryHead, `expiryQueue, `committed
      modifies `results, `sequence, `queue, `reserved, `heap, `progress, `byOperation, `pendingData, `responses, `requested
      ensures Valid()
      ensures (View(), ok)
              == SendReceiptAndReport(old(View()), receipt, report, dest, op, pendingInbound, receiptFrames, reportFrames)
    {
      hide Prepare, Commit, RequestPump;
      var key := Drawn(nextId);
      var first := sequence + 1;
      var a := PrepareReceipt(receipt, dest, pendingInbound, receiptFrames);
      if !a.Ready? { return false; }
      var b := PrepareOutbound(report, Some(dest), op, false, REPORT_CAPACITY, first + 1, None, pendingInbound, reportFrames);
      if !b.Ready? { return false; }
      CommitTogether(a, b, key, op);
      return true;
    }

    method RememberTogether(id: SettlementId, atomic: AtomicTask)
      requires Valid()
      modifies `settled, `pending
      ensures var recorded := Unpend(RecordSettled(old(LinkView()), id, true, None), id);
              LinkView() == recorded.(settled := MarkAtomic(recorded.settled, id, atomic))
    {
      hide RecordSettled, MarkAtomic;
      RememberVerdict(id, true);
      settled := MarkEntry(settled, id, atomic);
    }

    method SettleDeliveryAndReport(id: SettlementId, report: Message, dest: Node, op: OpId, receiptFrames: nat,
                                   reportFrames: nat) returns (ok: bool)
      requires Valid() && report.TaskReport?
      modifies this
      ensures Valid()
      ensures (LinkView(), ok) == SettleFirst(old(LinkView()), id, report, dest, op, receiptFrames, reportFrames)
    {
      hide SendReceiptAndReport, RecordSettled, MarkAtomic, Unpend, View;
      ViewNow();
      if id !in pending || pending[id].task != Some(report.task) || !cfg.node.role.Asset?
         || !pending[id].source.role.Gateway? || dest != pending[id].source { return false; }
      var held := pending[id];
      ok := SendTogether(Confirmed(held.op, held.msgId), report, dest, op, |pending|, receiptFrames, reportFrames);
      if ok { RememberTogether(id, AtomicTask(report, dest, op)); }
    }

    /** `settleInboundWithTaskReport` */
    method SettleInboundWithTaskReport(id: SettlementId, report: Message, dest: Node, op: OpId, receiptFrames: nat,
                                       reportFrames: nat) returns (ok: bool)
      requires Valid() && LinkInv(LinkView())
      modifies this
      ensures Valid() && LinkInv(LinkView())
      ensures (LinkView(), ok) == SettleWithReport(old(LinkView()), id, report, dest, op, receiptFrames, reportFrames)
    {
      hide LinkInv, Moves, Ids, PruneSettled, Lookup, SettleFirst;
      SettleWithReportKeeps(LinkView(), id, report, dest, op, receiptFrames, reportFrames);
      if stopped || !report.TaskReport? { return false; }
      PruneSettledInbound();
      var prior := Lookup(settled, id);
      if prior.Some? && prior.value.atomic.Some? { return prior.value.atomic.value == AtomicTask(report, dest, op); }
      ok := SettleDeliveryAndReport(id, report, dest, op, receiptFrames, reportFrames);
    }
  }

  /** The history entry of `id` remembers the Task report it was settled with. */
  method MarkEntry(settled: seq<Settled>, id: SettlementId, atomic: AtomicTask) returns (marked: seq<Settled>)
    ensures marked == MarkAtomic(settled, id, atomic)
  {
    marked := [];
    for index := 0 to |settled|
      invariant marked == MarkAtomic(settled[..index], id, atomic)
    {
      assert settled[..index + 1][..index] == settled[..index];
      var e := settled[index];
      marked := marked + [if e.id == id then e.(atomic := Some(atomic)) else e];
    }
    assert settled[..|settled|] == settled;
  }

  /** The oldest entries go once there are too many. */
  method TrimOldest(ds: seq<Delivery>) returns (kept: seq<Delivery>)
    ensures kept == if |ds| > TASK_DELIVERY_FENCE_LIMIT then ds[|ds| - TASK_DELIVERY_FENCE_LIMIT..] else ds
  {
    kept := ds;
    while |kept| > TASK_DELIVERY_FENCE_LIMIT
      invariant |kept| <= |ds| && kept == ds[|ds| - |kept|..]
      invariant |ds| > TASK_DELIVERY_FENCE_LIMIT ==> |kept| >= TASK_DELIVERY_FENCE_LIMIT
      invariant |ds| <= TASK_DELIVERY_FENCE_LIMIT ==> kept == ds
    {
      kept := kept[1..];
    }
  }

  /** Drops the reassemblies a newer generation or session of their source leaves behind. */
  method DropFencedOff(rs: seq<Reassembly>, source: Node, generation: nat, session: string) returns (kept: seq<Reassembly>)
    ensures kept == KeepUnfenced(rs, source, generation, session)
  {
    kept := [];
    for index := 0 to |rs|
      invariant kept == KeepUnfenced(rs[..index], source, generation, session)
    {
      assert rs[..index + 1][..index] == rs[..index];
      if !FencedOff(rs[index].identity, source, generation, session) { kept := kept + [rs[index]]; }
    }
    assert rs[..|rs|] == rs;
  }

  method MissingIndices(chunks: Table<nat, Bytes>, count: nat) returns (missing: seq<nat>)
    ensures missing == MissingFrom(chunks, count)
  {
    missing := [];
    for index := 0 to count
      invariant missing == MissingFrom(chunks, index)
    {
      if index !in chunks.m { missing := missing + [index]; }
    }
  }

  /** `joinChunks` */
  method JoinChunks(chunks: Table<nat, Bytes>, count: nat) returns (bytes: Bytes)
    ensures bytes == Join(chunks, count)
  {
    bytes := [];
    for index := 0 to count
      invariant bytes == Join(chunks, index)
    {
      bytes := bytes + Chunk(chunks, index);
    }
  }

  // ----- the queue scan -----------------------------------------------------------------------------

  /** The object lock once the first `n` queued messages have been looked at. */
  function LockAfter(s: Out, q: seq<nat>, n: nat): Option<nat>
    requires n <= |q|
  {
    if s.lock.Some? then s.lock else FirstObject(s, q[..n])
  }

  lemma ScanStep(s: Out, q: seq<nat>, n: nat)
    requires n < |q| && s.queue == q
    ensures var c := q[n];
            var lock := LockAfter(s, q, n);
            var next := if Get(s, c).IsObject() && lock.None? then Some(Get(s, c).msgId) else lock;
            var scanned := ScanLock(s);
            && next == LockAfter(s, q, n + 1)
            && MayGo(s.heap, next, c) == Eligible(scanned, c)
            && Best(scanned, q[..n + 1]) ==
                 (var best := Best(scanned, q[..n]);
                  if Eligible(scanned, c) && (best.None? || Before(s, c, best.value)) then Some(c) else best)
  {
    assert q[..n + 1][..n] == q[..n];
    FirstObjectGrows(s, q, n);
    FirstObjectGrows(s, q, n + 1);
    BestIsFirst(ScanLock(s), q[..n]);
  }

  /** The lock found in a prefix of the queue is the one found in all of it. */
  lemma {:induction false} FirstObjectGrows(s: Out, q: seq<nat>, n: nat)
    requires n <= |q|
    ensures FirstObject(s, q[..n]).Some? ==> FirstObject(s, q) == FirstObject(s, q[..n])
    decreases |q|
  {
    if n < |q| {
      FirstObjectGrows(s, q[..|q| - 1], n);
      assert q[..|q| - 1][..n] == q[..n];
    } else {
      assert q[..n] == q;
    }
  }

  lemma ScanStart(s: Out)
    ensures LockAfter(s, s.queue, 0) == s.lock && Best(ScanLock(s), s.queue[..0]) == None
  {
  }

  lemma ScanEnd(s: Out)
    ensures ScanLock(s) == s.(lock := LockAfter(s, s.queue, |s.queue|))
  {
    assert s.queue[..|s.queue|] == s.queue;
  }

  /** Splicing out one occurrence is removing all of them when nothing is queued twice. */
  lemma {:induction false} SpliceIsWithout(q: seq<nat>, i: nat)
    requires NoDup(q) && i < |q|
    ensures q[..i] + q[i + 1..] == Without(q, q[i])
    decreases |q|
  {
    var rest := q[..|q| - 1];
    if i == |q| - 1 {
      NotThere(rest, q[i]);
      assert q[..i] + q[i + 1..] == rest;
    } else {
      SpliceIsWithout(rest, i);
      assert q[..i] + q[i + 1..] == rest[..i] + rest[i + 1..] + [q[|q| - 1]];
    }
  }

  lemma {:induction false} NotThere(q: seq<nat>, r: nat)
    requires r !in q
    ensures Without(q, r) == q
  {
    if q != [] {
      NotThere(q[..|q| - 1], r);
      assert q == q[..|q| - 1] + [q[|q| - 1]];
    }
  }

  lemma {:induction false} PairPrefix(s: Out, receipt: nat, q: seq<nat>, n: nat, fits: nat -> bool)
    requires n <= |q| && FirstPair(s, receipt, q[..n], fits).Some?
    ensures FirstPair(s, receipt, q, fits) == FirstPair(s, receipt, q[..n], fits)
    decreases |q|
  {
    if n < |q| {
      assert q[..|q| - 1][..n] == q[..n];
      PairPrefix(s, receipt, q[..|q| - 1], n, fits);
    } else {
      assert q[..n] == q;
    }
  }

  lemma QueueFacts(s: Out)
    requires Inv(s)
    ensures NoDup(s.queue) && |s.heap| == |s.progress| && forall r :: r in s.queue ==> r < |s.heap|
  {
    hide HeapOk, ReservedOk, MapsOk, SendingShape, SendingFenced, LockHeld, NoneForgotten, TimersOk, FlagsOk, ExpiriesOk, WakeOk;
    hide WithinLimits, Awake;
  }

  /** What the pump does to a message it has just taken out of the queue. */
  function Launch(s: Out, r: nat, fits: nat -> bool): Out {
    var p := At(s, r);
    var begun := Move(s, r, p.(pending := p.pending[if p.pending == [] then 0 else 1..], started := true));
    var report := ReceiptPair(begun, r, fits);
    TakeReport(begun, report).(
      sending := Some(Transmission(r, if p.pending == [] then 0 else p.pending[0], report, s.now)))
  }

  lemma LaunchTakes(s: Out, r: nat, fits: nat -> bool)
    ensures Launch(Dequeue(s, r), r, fits) == Taken(s, r, fits)
  {
    hide Without, ReceiptPair;
  }

  lemma MoveOnly(s: Out, r: nat, p: Progress)
    ensures Move(s, r, p) == s.(progress := Move(s, r, p).progress)
  {
  }

  lemma ScanFields(s: Out)
    ensures ScanLock(s) == s.(lock := ScanLock(s).lock)
  {
    hide FirstObject;
  }

  /** What the radio's answer changes before the pump finishes. */
  function AfterSend(s: Out, sent: bool): Out
    requires s.sending.Some?
  {
    var t := s.sending.value;
    var o := Get(s, t.ref);
    if t.report.Some? then if sent then FinishPair(s, t) else PairFailed(s, t)
    else if !sent then
      if !o.Confirmable() then FailBestEffort(s, t.ref)
      else if Tracked(s, t.ref) then Defer(s, t.ref, [t.chunk] + At(s, t.ref).pending)
      else s
    else if o.Confirmable() && !Tracked(s, t.ref) then s
    else if At(s, t.ref).pending != [] then Enqueue(s, t.ref)
    else AfterAllChunks(s, t.ref)
  }

  lemma SendResult(s: Out, sent: bool)
    requires s.sending.Some?
    ensures PumpEnds(s, sent) == FinishPump(if s.stopped then s else AfterSend(s, sent))
  {
    hide FinishPump, NeedsConfirmation, Defer, FailBestEffort, FinishPair, PairFailed, AfterAllChunks;
  }

  lemma InvLinked(s: Out)
    requires Inv(s)
    ensures Linked(s)
  {
  }

  function LeaveMaps(s: Out, r: nat, status: Status): Out {
    var o := Get(s, r);
    s.(byOperation := s.byOperation.Drop(o.key),
       pendingData := ForgetData(s.pendingData, o.message, r),
       responses := if status.ConfirmedStatus? then s.responses else s.responses.Drop(o.key))
  }

  function LeaveLine(s: Out, r: nat): Out {
    s.(queue := Without(s.queue, r), progress := Quiet(s, r),
       lock := if s.lock == Some(Get(s, r).msgId) then None else s.lock)
  }

  lemma LeaveParts(s: Out, r: nat, status: Status)
    ensures LeaveLine(LeaveMaps(s, r, status), r) == Leave(s, r, status)
  {
    hide ForgetData, Without;
  }

  lemma {:induction false} CoalescablePrefix(s: Out, q: seq<nat>, n: nat, resource: string)
    requires n <= |q| && (n == |q| || Coalescable(s, q[..n], resource).Some?)
    ensures Coalescable(s, q, resource) == Coalescable(s, q[..n], resource)
    decreases |q|
  {
    if n < |q| {
      assert q[..|q| - 1][..n] == q[..n];
      CoalescablePrefix(s, q[..|q| - 1], n, resource);
    } else {
      assert q[..n] == q;
    }
  }

  datatype Check = Turned(answer: Prepared) | Exhausted | Passed

  function IdentityCheck(s: Out, m: Message, op: OpId, capacity: Capacity, held: Option<Reservation>): Check {
    var confirmable := NeedsConfirmation(m);
    if op in s.reserved.m && held != Some(s.reserved.m[op]) then Turned(Refused)
    else if op in s.results.m && (s.results.m[op] != Failed || op in s.committed.m) then Turned(Existing(s.results.m[op]))
    else if op in s.committed.m then Turned(Refused)
    else if confirmable && |s.committed.m| + capacity.additionalConfirmed > COMMITTED_OPERATION_ID_LIMIT then Exhausted
    else if m.DataRequest? && m.id in s.pendingData.m then Turned(Refused)
    else if confirmable && |Awaiting(s)| + capacity.additionalConfirmed > s.cfg.confirmedLimit then Turned(Refused)
    else Passed
  }

  lemma AdmitByCheck(s: Out, m: Message, dest: Option<Node>, op: OpId, useReservation: bool, capacity: Capacity,
                     number: nat, held: Option<Reservation>, pendingInbound: nat, frames: nat)
    ensures Admit(s, m, dest, op, useReservation, capacity, number, held, pendingInbound, frames) ==
            match IdentityCheck(s, m, op, capacity, held)
            case Turned(answer) => (s, answer)
            case Exhausted => (ScheduleWake(s.(blocked := true)), Refused)
            case Passed =>
              var refused := frames == 0 || QueueFull(s, m, useReservation, capacity, pendingInbound);
              (s.(nextId := if held.Some? then s.nextId else s.nextId + 1,
                  nextOrder := if refused then s.nextOrder else s.nextOrder + 1),
               if refused then Refused
               else Ready(Outbound(m, op, if held.Some? then held.value.msgId else s.nextId, number, dest, frames),
                          s.nextOrder, op in s.results.m && s.results.m[op] == Failed))
  {
    hide QueueFull, ScheduleWake, AwaitedBy, NeedsConfirmation;
  }

  function EarlierReplaced(s: Out, o: Outbound, replacesFailed: bool): Out {
    s.(results := ResultsAfter(s, o, replacesFailed), sequence := Max(s.sequence, o.sequence),
       queue := RemoveFrom(s.queue, Replaceable(s, o.message)))
  }

  function Joining(s: Out, o: Outbound, order: nat): Out {
    s.(reserved := s.reserved.Drop(o.key), queue := s.queue + [|s.heap|], heap := s.heap + [o],
       progress := s.progress + [Progress(AllChunks(o.frames), false, order, NoRetry, o.Confirmable())])
  }

  function Track(s: Out, o: Outbound, r: nat): Out {
    s.(committed := PutIf(o.Confirmable(), s.committed, o.key, None),
       byOperation := PutIf(o.Confirmable(), s.byOperation, o.key, r),
       pendingData := PutIf(o.message.DataRequest?, s.pendingData, o.key, r),
       responses := PutIf(o.message.ResourceOperation?, s.responses, o.key, r))
  }

  lemma CommitParts(s: Out, o: Outbound, order: nat, replacesFailed: bool)
    ensures Commit(s, o, order, replacesFailed)
            == Track(Joining(EarlierReplaced(s, o, replacesFailed), o, order), o, |s.heap|)
  {
    hide Replaceable, RemoveFrom, ResultsAfter, NeedsConfirmation, PutIf;
  }

  lemma EarlierHeap(s: Out, o: Outbound, replacesFailed: bool)
    ensures EarlierReplaced(s, o, replacesFailed).heap == s.heap
  {
    hide Replaceable, RemoveFrom, ResultsAfter;
  }

  lemma PausedEligible(s: Out)
    ensures HasEligible(s.(paused := false)) == HasEligible(s)
  {
  }

  lemma FailNone(s: Out)
    ensures FailAll(s, []) == s
  {
  }

  lemma FailMore(s: Out, refs: seq<nat>, r: nat)
    ensures FailAll(s, refs + [r]) == FailAll(FailAll(s, refs), [r])
  {
    hide Complete, FailBestEffort, NeedsConfirmation;
    assert (refs + [r])[..|refs|] == refs;
    assert [r][..0] == [];
    FailAllOnly(s, refs);
  }

  lemma {:induction false} FailAllSending(s: Out, refs: seq<nat>)
    ensures FailAll(s, refs).sending == s.sending && FailAll(s, refs).waiters == s.waiters
    decreases |refs|
  {
    if refs != [] {
      hide Complete, FailBestEffort, NeedsConfirmation;
      FailAllSending(s, refs[..|refs| - 1]);
      FailOneSending(FailAll(s, refs[..|refs| - 1]), refs[|refs| - 1]);
    }
  }

  lemma FailOneSending(s: Out, r: nat)
    ensures Complete(s, r, Failed).sending == s.sending && Complete(s, r, Failed).waiters == s.waiters
    ensures FailBestEffort(s, r).sending == s.sending && FailBestEffort(s, r).waiters == s.waiters
  {
    hide Without, HasEligible, ForgetData;
  }

  ghost function SetSeq(s: set<nat>): (q: seq<nat>)
    ensures forall r :: r in q <==> r in s
  {
    if s == {} then [] else
      var r :| r in s;
      [r] + SetSeq(s - {r})
  }

  ghost function AnyOrder(s: Out): (refs: seq<nat>)
    ensures Concerns(s, refs)
  {
    SetSeq(Occupied(s) + Awaiting(s))
  }

  lemma ConcernsClosing(s: Out, refs: seq<nat>)
    requires Concerns(Closing(s), refs)
    ensures Concerns(s, refs)
  {
  }

  /** The content answers a request that this node is still waiting on. */
  predicate Requested(s: Out, i: Identity) {
    i.op in s.pendingData.m
    && var o := Get(s, s.pendingData.m[i.op]);
       o.message.DataRequest? && o.message.content && o.message.id == i.op && o.dest == Some(i.source)
  }

  lemma ExpectsMeans(l: Link, i: Identity)
    ensures ExpectsContent(l, i) <==>
            Addressed(l, i) && (IdOf(i) in l.pending.m || Lookup(PruneSettled(l.settled, l.out.now), IdOf(i)).Some?
                                || Requested(l.out, i))
  {
    hide PruneSettled, Lookup;
  }

  lemma CollectedNow(l: Link, f: Frame, receivedAt: nat, expiresAt: nat)
    requires LinkInv(l) && !l.out.stopped && f.WellFormed()
    requires PassesFence(l.fences, f.identity.source, f.identity.generation, f.identity.session)
    ensures LinkInv(l.(partial := Collect(l.partial, l.out.cfg.reassemblyLimit, f, receivedAt, expiresAt).0))
  {
    hide LinkInv, PassesFence, Collect;
    PartialKeeps(l, f, receivedAt, expiresAt);
  }

  datatype Ruling = AnswerAgain(c: ControlKind) | Ignore | TurnAway | PassOn

  function RulingOn(p: Link, i: Identity, m: Message, order: Order, env: Env): Ruling {
    var settles := Settles(p, i, m);
    var known := Lookup(p.settled, IdOf(i));
    if settles && known.Some? then AnswerAgain(Answer(known.value.confirmed, i.op, i.msgId))
    else if settles && IdOf(i) in p.pending.m then Ignore
    else if Addressed(p, i) && RequestOf(m).Some? && Matching(p.out, i, m, env).None? then Ignore
    else if settles && order.DuplicateDelivery? then Ignore
    else if settles && NoRoom(p) then TurnAway
    else PassOn
  }

  lemma DeliverByRuling(l: Link, i: Identity, m: Message, order: Order, env: Env)
    ensures var p := if Settles(l, i, m) then l.(settled := PruneSettled(l.settled, l.out.now)) else l;
            Deliver(l, i, m, order, env) ==
            match RulingOn(p, i, m, order, env)
            case AnswerAgain(c) => Reply(p, i.source, c, env.frames)
            case Ignore => p
            case TurnAway => Refuse(p, i, env.frames)
            case PassOn => Raise(AnswerRequest(AwaitSettlement(p, i, m), i, m, env), i, m)
  {
    hide PruneSettled, Lookup, Matching, NoRoom, Reply, Refuse, Raise, AnswerRequest, AwaitSettlement, NeedsConfirmation;
  }

  lemma ActivateInv(l: Link, source: Node, generation: nat, session: string, admits: bool)
    requires LinkInv(l)
    ensures Inv(ActivateFence(l, source, generation, session, admits).0.out)
  {
    hide Inv, InboundInv, ActivateFence;
    ActivateKeeps(l, source, generation, session, admits);
  }
}
