/** What the steps of the transport do to the message they concern, in chunks, timers, results and turns (transport.ts). */
module LinkEffects {
  import opened Wrappers
  import opened LinkTypes
  import opened LinkOutbound
  import opened LinkReassembly
  import opened LinkInbound
  import opened LinkOutboundInvariants
  import opened LinkOperations
  import opened LinkLifecycle
  import opened LinkInboundInvariants
  import opened LinkMessages
  import opened LinkOutcomes
  import opened LinkFindings

  // ----- retries --------------------------------------------------------------------------------------

  /** `r` waits in the queue, unless the radio is at work on it. */
  ghost predicate QueuedOrSending(n: Out, r: nat) {
    if n.sending.Some? && n.sending.value.ref == r then r !in n.queue else r in n.queue
  }

  /** Every other message keeps its chunks, timers and turn. */
  ghost predicate OthersKeep(s: Out, n: Out, r: nat) {
    |n.progress| == |s.progress| && forall x :: 0 <= x < |s.progress| && x != r ==> n.progress[x] == s.progress[x]
  }

  /**
    The retry timer of an operation sends it again behind all others: every chunk from the first to the last when the
    peer has not answered, or just the chunks that were still to be sent when the radio had refused one.
    */
  lemma RetryEffect(s: Out, r: nat)
    requires Inv(s) && !s.stopped && r < |s.heap| && At(s, r).retry != NoRetry
    ensures var n := RetryFires(s, r);
            && (At(s, r).retry == FullRetry ==>
                  |At(n, r).pending| == s.heap[r].frames && forall k :: 0 <= k < s.heap[r].frames ==> At(n, r).pending[k] == k)
            && (At(s, r).retry == ResumeRetry ==> At(n, r).pending == At(s, r).pending)
            && At(n, r).retry == NoRetry && At(n, r).deadline == At(s, r).deadline
            && At(n, r).order == s.nextOrder && n.nextOrder == s.nextOrder + 1
            && (forall x :: 0 <= x < |s.progress| ==> s.progress[x].order < At(n, r).order)
            && QueuedOrSending(n, r) && OthersKeep(s, n, r) && n.heap == s.heap && n.sending == s.sending
            && (forall x :: x in n.queue <==> (x in s.queue && x != r) || (x == r && QueuedAgain(s, r)))
            && n.byOperation == s.byOperation && n.results == s.results
            && (s.sending.None? && !s.paused ==> n.requested)
  {
    hide Consistent, WithinLimits, Awake, HasEligible, Requeue, RetryFires;
    TimerOwned(s, r);
    StartedFacts(s, r);
    OrdersBehind(s);
    RetryShape(s, r);
    var chunks := if At(s, r).retry.FullRetry? then AllChunks(Get(s, r).frames) else At(s, r).pending;
    var p := At(s, r).(retry := NoRetry, pending := chunks, order := s.nextOrder);
    RequeueEffect(Move(s, r, p).(nextOrder := s.nextOrder + 1), r);
  }

  lemma RetryShape(s: Out, r: nat)
    requires At(s, r).retry != NoRetry && Tracked(s, r) && !s.stopped
    ensures var p := At(s, r);
            var chunks := if p.retry.FullRetry? then AllChunks(Get(s, r).frames) else p.pending;
            RetryFires(s, r) ==
            Requeue(Move(s, r, p.(retry := NoRetry, pending := chunks, order := s.nextOrder)).(nextOrder := s.nextOrder + 1), r)
  {
    hide Requeue;
  }

  /** Moving to the back of the queue changes no more than the queue and the request for a pump. */
  lemma RequeueEffect(s: Out, r: nat)
    ensures var n := Requeue(s, r);
            && n == s.(queue := n.queue, requested := n.requested) && QueuedOrSending(n, r)
            && (forall x :: x in n.queue <==> (x in s.queue && x != r) || (x == r && QueuedAgain(s, r)))
            && (QueuedAgain(s, r) && s.sending.None? && !s.paused && !s.stopped ==> n.requested)
            && (QueuedAgain(s, r) ==> n.queue[|n.queue| - 1] == r)
  {
    hide HasEligible;
    RequestOnly(Enqueue(Dequeue(s, r), r));
  }

  predicate QueuedAgain(s: Out, r: nat) { !(s.sending.Some? && s.sending.value.ref == r) }

  lemma OrdersBehind(s: Out)
    requires Consistent(s)
    ensures forall x :: 0 <= x < |s.progress| ==> s.progress[x].order < s.nextOrder
  {
    hide HeapOk, ReservedOk, MapsOk, QueueOk, SendingShape, SendingFenced, LockHeld, NoneForgotten, TimersOk, FlagsOk, ExpiriesOk;
    hide WakeOk, StoppedOk;
  }

  lemma RequestOnly(s: Out)
    ensures RequestPump(s) == s.(requested := RequestPump(s).requested)
    ensures s.sending.None? && !s.paused && !s.stopped ==> RequestPump(s).requested
    ensures HasEligible(RequestPump(s)) == HasEligible(s)
  {
    hide AnyMayGo;
  }

  // ----- answers of the peer --------------------------------------------------------------------------

  /**
    The operation of `r` has ended with that result: it is queued and tracked no more, its identity stays taken for ten
    minutes, and nothing else has changed.
    */
  ghost predicate Ends(s: Out, n: Out, r: nat, status: Status) {
    var key := Get(s, r).key;
    && n.results == s.results.Put(key, status) && n.heap == s.heap && n.sending == s.sending
    && n.committed.m == (if key in s.committed.m then s.committed.m[key := Some(s.now + 600_000)] else s.committed.m)
    && (forall x :: x in n.queue <==> x in s.queue && x != r)
    && OnlyForgets(s.byOperation.m, n.byOperation.m, key) && OnlyForgets(s.pendingData.m, n.pendingData.m, key)
    && OnlyForgets(s.responses.m, n.responses.m, key)
    && OthersKeep(s, n, r) && At(n, r).retry == NoRetry && !At(n, r).deadline
  }

  lemma EndsWell(s: Out, r: nat, status: Status)
    requires Inv(s) && r in Awaiting(s) && r < |s.heap| && |s.progress| == |s.heap|
    requires status.ConfirmedStatus? ==> s.heap[r].key !in s.responses.m
    ensures Ends(s, Complete(s, r, status), r, status)
  {
    hide Inv, Complete, Without;
    TrackedData(s, r);
    CompleteFields(s, r, status);
    CompleteResult(s, r, status);
    CompletedSending(s, r, status);
    CompletedIdentity(s, r, status);
    EndedProgress(s, r, status);
  }

  lemma CompletedIdentity(s: Out, r: nat, status: Status)
    ensures var key := Get(s, r).key;
            Complete(s, r, status).committed.m ==
            if key in s.committed.m then s.committed.m[key := Some(s.now + 600_000)] else s.committed.m
  {
    hide Leave, HasEligible, ScheduleWake;
    LeftIdentity(s, r, status);
    ScheduledSame(s, Leave(s, r, status), Get(s, r).key);
  }

  lemma LeftIdentity(s: Out, r: nat, status: Status)
    ensures Leave(s, r, status).committed == s.committed && Leave(s, r, status).now == s.now
  {
    hide Without, ForgetData, Quiet;
  }

  lemma ScheduledSame(s: Out, n: Out, op: OpId)
    requires n.committed == s.committed && n.now == s.now
    ensures RetainCompleted(n, op).committed.m == if op in s.committed.m then s.committed.m[op := Some(s.now + 600_000)] else s.committed.m
  {
  }

  lemma CompletedSending(s: Out, r: nat, status: Status)
    ensures Complete(s, r, status).sending == s.sending
  {
    hide Without, HasEligible, ForgetData;
  }

  lemma EndedProgress(s: Out, r: nat, status: Status)
    requires r < |s.progress|
    ensures var n := Leave(s, r, status);
            && |n.progress| == |s.progress| && n.progress[r].retry == NoRetry && !n.progress[r].deadline
            && forall x :: 0 <= x < |s.progress| && x != r ==> n.progress[x] == s.progress[x]
  {
    hide Without, ForgetData;
  }

  /** The maps know the message under its own key. */
  lemma TrackedData(s: Out, r: nat)
    requires Inv(s) && r in Awaiting(s)
    ensures var key := Get(s, r).key; ForgetData(s.pendingData, Get(s, r).message, r).m == s.pendingData.m - {key}
  {
    hide HeapOk, ReservedOk, QueueOk, SendingShape, SendingFenced, LockHeld, NoneForgotten, TimersOk, ExpiriesOk, WakeOk, FlagsOk;
    hide WithinLimits, Awake, StoppedOk;
  }

  /** A rejection ends the operation with that result. */
  lemma RejectionEffect(s: Out, r: nat, op: OpId, msgId: nat)
    requires Inv(s) && r in s.byOperation.m.Values && r < |s.heap|
    ensures |s.progress| == |s.heap| && Ends(s, ApplyAnswer(s, r, Rejected(op, msgId)), r, RejectedStatus)
  {
    hide Inv, Complete, Ends;
    SameLength(s);
    EndsWell(s, r, RejectedStatus);
  }

  lemma SameLength(s: Out)
    requires Inv(s)
    ensures |s.progress| == |s.heap|
  {
    hide HeapOk, ReservedOk, MapsOk, QueueOk, SendingShape, SendingFenced, LockHeld, NoneForgotten, TimersOk, FlagsOk;
    hide ExpiriesOk, WakeOk, WithinLimits, Awake, StoppedOk;
  }

  /**
    A confirmation ends the operation with that result, except that a request for data or of a resource operation stays
    awaited for its answer, under its deadline, and is sent no more.
    */
  lemma ConfirmationEffect(s: Out, r: nat, op: OpId, msgId: nat)
    requires Inv(s) && r in s.byOperation.m.Values && r < |s.heap|
    ensures var n := ApplyAnswer(s, r, Confirmed(op, msgId));
            var key := s.heap[r].key;
            && |s.progress| == |s.heap|
            && if !s.heap[r].message.DataRequest? && !s.heap[r].message.ResourceOperation? then Ends(s, n, r, ConfirmedStatus)
               else
                 && n.results == s.results.Put(key, ConfirmedStatus) && OnlyForgets(s.byOperation.m, n.byOperation.m, key)
                 && n.pendingData == s.pendingData && n.responses == s.responses && r in Awaiting(n)
                 && (forall x :: x in n.queue <==> x in s.queue && x != r) && OthersKeep(s, n, r)
                 && n.progress[r] == s.progress[r].(retry := NoRetry)
  {
    hide Linked, StoppedOk, WithinLimits, Awake, Complete, Ends, Without;
    SameLength(s);
    OwnKey(s, r);
    if !s.heap[r].message.DataRequest? && !s.heap[r].message.ResourceOperation? {
      EndsWell(s, r, ConfirmedStatus);
    }
  }

  lemma OwnKey(s: Out, r: nat)
    requires Inv(s) && r in s.byOperation.m.Values && r < |s.heap|
    ensures var key := s.heap[r].key;
            && key in s.byOperation.m && s.byOperation.m[key] == r
            && (s.heap[r].message.DataRequest? ==> key in s.pendingData.m && s.pendingData.m[key] == r)
            && (s.heap[r].message.ResourceOperation? ==> key in s.responses.m && s.responses.m[key] == r)
            && (!s.heap[r].message.ResourceOperation? ==> key !in s.responses.m)
  {
    hide HeapOk, ReservedOk, QueueOk, SendingShape, SendingFenced, LockHeld, NoneForgotten, TimersOk, ExpiriesOk, WakeOk, FlagsOk;
    hide WithinLimits, Awake, StoppedOk;
  }

  /** The awaited answer ends the request with that result, whether or not the request itself was confirmed before. */
  lemma ResponseEffect(s: Out, r: nat)
    requires Inv(s) && r in Awaiting(s) && r < |s.heap| && (s.heap[r].message.DataRequest? || s.heap[r].message.ResourceOperation?)
    ensures |s.progress| == |s.heap| && Ends(s, CompleteWithResponse(s, r, s.heap[r].key), r, Responded)
  {
    hide Inv, Awaiting, Ends;
    SameLength(s);
    AnswerEnds(s, r);
  }

  lemma AnswerEnds(s: Out, r: nat)
    requires r < |s.progress| == |s.heap|
    ensures Ends(s, CompleteWithResponse(s, r, s.heap[r].key), r, Responded)
  {
    hide Without, RetainCompleted;
    ScheduledSame(s, LeaveAnswered(s, r, s.heap[r].key), s.heap[r].key);
    RetainShape(LeaveAnswered(s, r, s.heap[r].key), s.heap[r].key);
  }

  /** `part` is what is left of `all` once what does not exist is taken out, in the same order. */
  ghost predicate Picked(all: seq<nat>, part: seq<nat>, frames: nat) {
    && (forall c: nat :: multiset(part)[c] == if c < frames then multiset(all)[c] else 0)
    && exists at: seq<nat> :: Places(all, part, at)
  }

  predicate Places(all: seq<nat>, part: seq<nat>, at: seq<nat>) {
    && |at| == |part| && (forall j, k :: 0 <= j < k < |at| ==> at[j] < at[k])
    && forall k :: 0 <= k < |at| ==> at[k] < |all| && all[at[k]] == part[k]
  }

  lemma PlacesOn(front: seq<nat>, last: nat, part: seq<nat>, at: seq<nat>)
    requires Places(front, part, at)
    ensures Places(front + [last], part, at)
  {
  }

  lemma PlacesLast(front: seq<nat>, last: nat, part: seq<nat>, at: seq<nat>)
    requires Places(front, part, at)
    ensures Places(front + [last], part + [last], at + [|front|])
  {
  }

  lemma {:induction false} PresentPicked(frames: nat, chunks: seq<nat>)
    ensures Picked(chunks, Present(frames, chunks), frames)
  {
    if chunks == [] {
      assert Places(chunks, [], []);
    } else {
      var front, last := chunks[..|chunks| - 1], chunks[|chunks| - 1];
      PresentPicked(frames, front);
      assert chunks == front + [last];
      var rest := Present(frames, front);
      var at: seq<nat> :| Places(front, rest, at);
      PlacesOn(front, last, rest, at);
      if last < frames { PlacesLast(front, last, rest, at); }
    }
  }

  /**
    A repair request queues exactly the named chunks that exist, in its order; one that names none leaves the operation
    to its retry timer, which will then send everything again.
    */
  lemma RepairEffect(s: Out, r: nat, op: OpId, msgId: nat, chunks: seq<nat>)
    requires Inv(s) && !s.stopped && r in s.byOperation.m.Values && r < |s.heap|
    ensures var n := ApplyAnswer(s, r, MissingChunks(op, msgId, chunks));
            && |s.progress| == |s.heap| && Picked(chunks, At(n, r).pending, s.heap[r].frames)
            && n.results == s.results && n.byOperation == s.byOperation && OthersKeep(s, n, r)
            && if At(n, r).pending == [] then At(n, r).retry == FullRetry && n.queue == s.queue
               else At(n, r).retry == NoRetry && QueuedOrSending(n, r) && (s.sending.None? && !s.paused ==> n.requested)
  {
    hide Inv, Present, Requeue, Picked;
    SameLength(s);
    PresentPicked(s.heap[r].frames, chunks);
    var missing := Present(s.heap[r].frames, chunks);
    RequeueEffect(Move(s, r, At(s, r).(pending := missing, retry := NoRetry)), r);
  }

  // ----- deadlines ------------------------------------------------------------------------------------

  /** A missed deadline ends the operation as failed. */
  lemma DeadlineEffect(s: Out, r: nat)
    requires Inv(s) && r < |s.heap| && At(s, r).deadline
    ensures |s.progress| == |s.heap| && Ends(s, DeadlineFires(s, r), r, Failed)
  {
    hide Linked, StoppedOk, WithinLimits, Awake, Ends, Complete;
    DeadlineFiresKeeps(s, r);
    DeadlineOwned(s, r);
    SameLength(s);
    EndsWell(s, r, Failed);
  }

  // ----- whose turn it is -----------------------------------------------------------------------------

  /** Control messages and all that calls a Task off. */
  predicate ForSafety(m: Message) {
    m.Control? || (m.TaskDelivery? && m.cancellation) || (m.TaskReport? && m.cancel) || (m.ResourceOperation? && m.cancel)
  }

  /** All else about Tasks, but for state shown live. */
  predicate AboutTasks(m: Message) {
    m.TaskDelivery? || m.TaskReport? || (m.ResourceOperation? && m.ofTask) || (m.State? && m.ofTask && !m.live)
  }

  predicate AboutRequests(m: Message) { m.DataRequest? || m.DataResponse? || m.Subscription? }

  predicate LiveState(m: Message) { m.State? && m.live }

  /** Safety first, then Tasks, requests and their answers, live state, other resources, and object contents last. */
  lemma Urgency(m: Message)
    ensures var level := Rank(MessagePriority(m));
            && (level == 0 <==> ForSafety(m))
            && (level <= 1 <==> ForSafety(m) || AboutTasks(m))
            && (level <= 2 <==> ForSafety(m) || AboutTasks(m) || AboutRequests(m))
            && (level <= 3 <==> ForSafety(m) || AboutTasks(m) || AboutRequests(m) || LiveState(m))
            && (level <= 4 <==> !m.ObjectContent?) && level <= 5
  {
  }

  /** `x` is in no class that goes before that of `r`; and in the same class it has waited no longer. */
  predicate Waits(s: Out, x: nat, r: nat) {
    var a, b := Get(s, x).message, Get(s, r).message;
    && (ForSafety(a) ==> ForSafety(b))
    && (AboutTasks(a) ==> ForSafety(b) || AboutTasks(b))
    && (AboutRequests(a) ==> ForSafety(b) || AboutTasks(b) || AboutRequests(b))
    && (LiveState(a) ==> ForSafety(b) || AboutTasks(b) || AboutRequests(b) || LiveState(b))
    && (!a.ObjectContent? ==> !b.ObjectContent?)
    && (MessagePriority(a) == MessagePriority(b) ==> At(s, r).order <= At(s, x).order)
  }

  lemma NotBeforeWaits(s: Out, x: nat, r: nat)
    requires !Before(s, x, r)
    ensures Waits(s, x, r)
  {
    Urgency(Get(s, x).message);
    Urgency(Get(s, r).message);
  }

  /** What goes out in one send: the first chunk still to be sent of a message whose turn it is. */
  ghost predicate Sends(s: Out, n: Out, fits: nat -> bool) {
    && n.sending.Some?
    && var t := n.sending.value;
    && t.ref in s.queue && At(s, t.ref).pending != [] && t.chunk == At(s, t.ref).pending[0]
    && t.since == s.now && t.ref !in n.queue
    && At(n, t.ref) == At(s, t.ref).(pending := At(s, t.ref).pending[1..], started := true)
    && (forall x :: x in s.queue && MayGo(s.heap, n.lock, x) ==> Waits(s, x, t.ref)) && MayGo(s.heap, n.lock, t.ref)
    && (forall x :: x in s.queue && x != t.ref && Some(x) != t.report ==> x in n.queue)
    && (t.report.Some? ==> RidesAlong(s, n, t.ref, t.report.value, fits))
  }

  /** A confirmation takes along a report of one frame to the same node that was not begun and fits beside it. */
  ghost predicate RidesAlong(s: Out, n: Out, receipt: nat, report: nat, fits: nat -> bool) {
    && s.cfg.pairReceipts && report in s.queue && report !in n.queue && fits(report) && !At(s, report).started
    && Get(s, receipt).message.Control? && Get(s, receipt).message.control.Confirmed? && Get(s, receipt).frames == 1
    && Get(s, report).message.TaskReport? && Get(s, report).frames == 1
    && Get(s, report).dest.Some? && Get(s, report).dest == Get(s, receipt).dest
  }

  /**
    A pump that fires puts the first chunk of the most urgent and then oldest message on the air, unless nothing may go
    or that message has nothing left to send.
    */
  lemma PumpEffect(s: Out, fits: nat -> bool)
    requires Inv(s) && s.requested
    ensures PumpFires(s, fits).sending.Some? ==> Sends(s, PumpFires(s, fits), fits)
    ensures HasEligible(s) && (forall x :: x in s.queue ==> At(s, x).pending != []) ==> PumpFires(s, fits).sending.Some?
  {
    hide HasEligible, Best, Before, Inv, Waits, Taken, PumpFires, Sends;
    PumpFacts(s);
    PumpShape(s, fits);
    var scanned := ScanLock(s.(requested := false));
    ScanStays(s);
    BestIsFirst(scanned, scanned.queue);
    SomeBest(scanned);
    var pick := Best(scanned, scanned.queue);
    if pick.Some? {
      var r := pick.value;
      forall x | x in s.queue && MayGo(s.heap, scanned.lock, x) ensures Waits(s, x, r) {
        assert Eligible(scanned, x);
        SameBefore(scanned, s, x, r);
        NotBeforeWaits(s, x, r);
      }
      if At(scanned, r).pending != [] { SendsTaken(s, scanned, r, fits); }
    }
  }

  lemma SomeBest(s: Out)
    ensures HasEligible(s) ==> Best(s, s.queue).Some?
  {
    BestIsFirst(s, s.queue);
    hide Best;
  }

  lemma PumpShape(s: Out, fits: nat -> bool)
    requires s.sending.None? && !s.paused && !s.stopped
    ensures var scanned := ScanLock(s.(requested := false));
            var pick := Best(scanned, scanned.queue);
            if pick.Some? && At(scanned, pick.value).pending != [] then PumpFires(s, fits) == Taken(scanned, pick.value, fits)
            else PumpFires(s, fits).sending.None?
  {
    hide HasEligible, FinishPump, Best, FirstObject, Without, Before, ReceiptPair, TakeReport, ReleaseLock;
    var scanned := ScanLock(s.(requested := false));
    FinishIdle(scanned);
    var pick := Best(scanned, scanned.queue);
    if pick.Some? { FinishIdle(ReleaseLock(Dequeue(scanned, pick.value), pick.value)); }
  }

  lemma SameBefore(a: Out, b: Out, x: nat, r: nat)
    requires a.heap == b.heap && a.progress == b.progress
    ensures Before(a, x, r) == Before(b, x, r)
  {
  }

  lemma PumpFacts(s: Out)
    requires Inv(s) && s.requested
    ensures s.sending.None? && !s.paused && !s.stopped && (forall x :: x in s.queue ==> x < |s.progress|)
  {
    hide HeapOk, ReservedOk, MapsOk, SendingShape, SendingFenced, LockHeld, NoneForgotten, TimersOk, ExpiriesOk, WakeOk;
    hide WithinLimits, Awake, StoppedOk;
  }

  lemma ScanStays(s: Out)
    ensures var n := ScanLock(s.(requested := false)); n == s.(requested := false, lock := n.lock)
    ensures HasEligible(s) ==> HasEligible(ScanLock(s.(requested := false)))
  {
    FirstObjectQueued(s, s.queue);
    hide FirstObject;
    var n := ScanLock(s.(requested := false));
    SameFirst(s, s.queue);
    if s.lock.None? && n.lock.Some? {
      var r :| r in s.queue && Get(s, r).IsObject() && Get(s, r).msgId == n.lock.value;
      assert MayGo(n.heap, n.lock, r);
    }
  }

  lemma {:induction false} SameFirst(s: Out, q: seq<nat>)
    ensures FirstObject(s.(requested := false), q) == FirstObject(s, q)
  {
    if q != [] { SameFirst(s, q[..|q| - 1]); }
  }

  lemma FinishIdle(s: Out)
    ensures FinishPump(s).sending.None?
  {
    hide HasEligible;
  }

  lemma SendsTaken(s: Out, scanned: Out, r: nat, fits: nat -> bool)
    requires scanned == s.(requested := false, lock := scanned.lock) && r in s.queue && r < |s.progress|
    requires At(s, r).pending != [] && s.sending.None? && MayGo(s.heap, scanned.lock, r)
    requires forall x :: x in s.queue && MayGo(s.heap, scanned.lock, x) ==> Waits(s, x, r)
    ensures Sends(s, Taken(scanned, r, fits), fits) && Taken(scanned, r, fits).sending.Some?
  {
    hide Without, FirstPair, Waits;
    var p := At(scanned, r);
    var begun := Move(Dequeue(scanned, r), r, p.(pending := p.pending[1..], started := true));
    FirstPairQueued(begun, r, begun.queue, fits);
  }

  // ----- the end of a send ----------------------------------------------------------------------------

  /** No message is queued or forgotten when the pump has come to rest. */
  lemma FinishQueue(s: Out)
    ensures var n := FinishPump(s); n == s.(sending := None, requested := n.requested, waiters := n.waiters)
  {
    hide HasEligible;
  }

  /**
    A chunk that was sent: more chunks put the message back in line as it is; without any, a best-effort message counts
    as sent, and an operation still tracked waits to be sent again in full.
    */
  lemma SentEffect(s: Out)
    requires Inv(s) && s.sending.Some? && s.sending.value.report.None? && !s.stopped
    ensures var r := s.sending.value.ref;
            var n := PumpEnds(s, true);
            && n.sending.None? && OthersKeep(s, n, r) && n.heap == s.heap
            && (At(s, r).pending != [] && (Get(s, r).Confirmable() ==> Tracked(s, r)) ==>
                  n.queue == s.queue + [r] && At(n, r) == At(s, r) && n.results == s.results)
            && (At(s, r).pending == [] && !Get(s, r).Confirmable() ==>
                  n.queue == s.queue && n.results == s.results.Put(Get(s, r).key, Sent))
            && (At(s, r).pending == [] && Get(s, r).Confirmable() && Tracked(s, r) ==>
                  n.queue == s.queue && n.results == s.results && At(n, r) == At(s, r).(retry := FullRetry))
            && (Get(s, r).Confirmable() && !Tracked(s, r) ==> n.queue == s.queue && n.results == s.results)
  {
    hide HasEligible, FinishPump, Inv, Tracked, NeedsConfirmation;
    SendingRef(s);
    var r := s.sending.value.ref;
    FinishQueue(s);
    FinishQueue(Enqueue(s, r));
    FinishQueue(AfterAllChunks(s, r));
  }

  lemma SendingRef(s: Out)
    requires Inv(s) && s.sending.Some?
    ensures s.sending.value.ref < |s.heap| && |s.progress| == |s.heap|
  {
    hide HeapOk, ReservedOk, MapsOk, SendingFenced, LockHeld, NoneForgotten, TimersOk, ExpiriesOk, WakeOk, FlagsOk, QueueOk;
    hide WithinLimits, Awake, StoppedOk;
  }

  /** A receipt that was sent with a report counts as sent; the report, if still tracked, waits to be sent again in full. */
  lemma PairSentEffect(s: Out)
    requires Inv(s) && s.sending.Some? && s.sending.value.report.Some? && !s.stopped
    ensures var t := s.sending.value;
            var report := t.report.value;
            var n := PumpEnds(s, true);
            && n.sending.None? && n.queue == s.queue && n.heap == s.heap
            && n.results == s.results.Put(Get(s, t.ref).key, Sent)
            && OthersKeep(s, n, report)
            && (Tracked(s, report) ==> At(n, report) == At(s, report).(retry := FullRetry))
            && (!Tracked(s, report) ==> At(n, report) == At(s, report))
  {
    hide HasEligible, FinishPump, Inv, NeedsConfirmation;
    SendingRef(s);
    PairRefs(s);
    FinishQueue(FinishPair(s, s.sending.value));
  }

  lemma PairRefs(s: Out)
    requires Inv(s) && s.sending.Some? && s.sending.value.report.Some?
    ensures var t := s.sending.value;
            && t.report.value < |s.heap| && !Get(s, t.ref).Confirmable() && !Get(s, t.ref).IsObject()
            && Get(s, t.report.value).Confirmable() && !Get(s, t.report.value).IsObject()
  {
    hide HeapOk, ReservedOk, MapsOk, SendingFenced, LockHeld, NoneForgotten, TimersOk, ExpiriesOk, WakeOk, FlagsOk, QueueOk;
    hide WithinLimits, Awake, StoppedOk;
  }

  /** A chunk the radio refused: a best-effort message has failed; of an operation still tracked it is kept for later. */
  lemma RefusedEffect(s: Out)
    requires Inv(s) && s.sending.Some? && s.sending.value.report.None? && !s.stopped
    ensures var t := s.sending.value;
            var n := PumpEnds(s, false);
            && n.sending.None? && OthersKeep(s, n, t.ref) && n.heap == s.heap
            && (forall x :: x in n.queue <==> x in s.queue && (Get(s, t.ref).Confirmable() || x != t.ref))
            && (!Get(s, t.ref).Confirmable() ==> n.results == s.results.Put(Get(s, t.ref).key, Failed))
            && (Get(s, t.ref).Confirmable() ==> n.results == s.results)
            && (Get(s, t.ref).Confirmable() && Tracked(s, t.ref) ==>
                  At(n, t.ref) == At(s, t.ref).(pending := [t.chunk] + At(s, t.ref).pending, retry := ResumeRetry))
  {
    hide HasEligible, FinishPump, Inv, Tracked, NeedsConfirmation, Without;
    SendingRef(s);
    var t := s.sending.value;
    FinishQueue(s);
    FinishQueue(FailBestEffort(s, t.ref));
    FinishQueue(Defer(s, t.ref, [t.chunk] + At(s, t.ref).pending));
  }

  // ----- reservations ---------------------------------------------------------------------------------

  /** A cancelled reservation is given up, and only that one; its numbers are not given again. */
  lemma CancelledReservation(s: Out, op: OpId)
    ensures var n := CancelReservation(s, op);
            && op !in n.reserved.m && n == s.(reserved := n.reserved)
            && forall k :: k in s.reserved.m && k != op ==> k in n.reserved.m && n.reserved.m[k] == s.reserved.m[k]
  {
  }

  // ----- pausing and stopping -------------------------------------------------------------------------

  /** A pause stops the pump; the caller waits for the chunk on the air, if there is one. */
  lemma PauseEffect(s: Out)
    requires !s.stopped
    ensures var n := Pause(s);
            && n.paused && !n.requested && n.waiters == s.waiters + (if s.sending.Some? then 1 else 0)
            && n == s.(paused := n.paused, requested := n.requested, waiters := n.waiters)
  {
  }

  /** A resume starts the pump again if anything may go, once the radio is free. */
  lemma ResumeEffect(s: Out)
    requires Inv(s) && !s.stopped
    ensures var n := Resume(s);
            && !n.paused && n == s.(paused := n.paused, requested := n.requested)
            && (n.requested <==> s.requested || (s.sending.None? && exists r :: r in s.queue && MayGo(s.heap, s.lock, r)))
  {
    hide MayGo, Inv;
  }

  /** A stopped service starts nothing more, tracks nothing, and has given up its reservations and the object lock. */
  lemma StopEffect(s: Out, refs: seq<nat>)
    requires Inv(s) && !s.stopped && Concerns(s, refs)
    ensures var n := Stop(s, refs);
            && n.stopped && !n.requested && n.queue == [] && n.lock == None && n.sending == s.sending && n.reserved.m == map[]
            && n.byOperation.m == map[] && n.pendingData.m == map[] && n.responses.m == map[] && n.heap == s.heap
  {
    hide Inv, Stop, Concerns;
    StopKeeps(s, refs);
    StoppedInv(Stop(s, refs));
    StoppedHeap(s, refs);
  }

  lemma StoppedHeap(s: Out, refs: seq<nat>)
    ensures Stop(s, refs).heap == s.heap
  {
    hide FailAll;
    FailAllOnly(Closing(s), refs);
  }

  lemma StoppedInv(s: Out)
    requires Inv(s) && s.stopped
    ensures !s.requested && s.queue == [] && s.lock == None
    ensures s.byOperation.m == map[] && s.pendingData.m == map[] && s.responses.m == map[]
  {
    hide HeapOk, ProgressOk, ReservedOk, MapsOk, QueueOk, SendingShape, SendingFenced, NoneForgotten, TimersOk, ExpiriesOk, WakeOk;
    hide WithinLimits;
  }

  // ----- incomplete messages --------------------------------------------------------------------------

  lemma {:induction false} MissingExactly(chunks: Table<nat, Bytes>, count: nat)
    ensures var m := MissingFrom(chunks, count);
            && (forall c: nat :: c in m <==> c < count && c !in chunks.m) && forall j, k :: 0 <= j < k < |m| ==> m[j] < m[k]
  {
    if count > 0 {
      MissingExactly(chunks, count - 1);
      var rest := MissingFrom(chunks, count - 1);
      assert forall j :: 0 <= j < |rest| ==> rest[j] in rest;
    }
  }

  /**
    The timer of an incomplete message asks its sender for exactly the missing chunks while the message is addressed to
    this node, is no state and the answer can still come before its deadline, which is waited for no longer than a second
    once the last chunk of an urgent message is there; otherwise what was received of it is dropped.
    */
  lemma TimeoutEffect(l: Link, at: nat, frames: nat)
    requires LinkInv(l) && at < |l.partial|
    ensures var r := l.partial[at];
            var n := ReassemblyExpires(l, KeyOf(r.identity), frames);
            var urgent := r.identity.priority in {TaskPriority, Safety} && r.identity.kind != ControlMessageKind;
            var timeout := l.out.cfg.reassemblyTimeout;
            var wait := if urgent && r.count - 1 in r.chunks.m && timeout > 1000 then 1000 else timeout;
            if r.identity.kind != StateKind && r.identity.dest == Some(l.out.cfg.node) && l.out.now + wait < r.expiresAt then
              exists missing: seq<nat> ::
                && n.out == SendControl(l.out, MissingChunks(r.identity.op, r.identity.msgId, missing), r.identity.source,
                                        false, |l.pending.m|, frames).0
                && n.partial == l.partial && (forall c: nat :: c in missing <==> c < r.count && c !in r.chunks.m)
                && forall j, k :: 0 <= j < k < |missing| ==> missing[j] < missing[k]
            else n.out == l.out && n.partial == l.partial[..at] + l.partial[at + 1..]
  {
    hide Inv, SendControl, MissingFrom, RepairInterval, Find;
    FoundAt(l, at);
    CountedAt(l, at);
    if l.partial[at].identity.kind != StateKind && l.partial[at].identity.dest == Some(l.out.cfg.node) { WaitsFor(l, l.partial[at]); }
    MissingExactly(l.partial[at].chunks, l.partial[at].count);
  }

  lemma WaitsFor(l: Link, r: Reassembly)
    requires r.count > 0 && r.identity.kind != StateKind && r.identity.dest == Some(l.out.cfg.node)
    ensures var urgent := r.identity.priority in {TaskPriority, Safety} && r.identity.kind != ControlMessageKind;
            var timeout := l.out.cfg.reassemblyTimeout;
            RepairInterval(l, r) == if urgent && r.count - 1 in r.chunks.m && timeout > 1000 then 1000 else timeout
  {
  }

  lemma CountedAt(l: Link, at: nat)
    requires LinkInv(l) && at < |l.partial|
    ensures l.partial[at].count > 0
  {
    hide Inv, FencesOk, Ordered, SettledOk, HistoryOk, Apart, RoomOk;
  }

  lemma FoundAt(l: Link, at: nat)
    requires LinkInv(l) && at < |l.partial|
    ensures Find(l.partial, KeyOf(l.partial[at].identity)) == Some(at)
  {
    hide Inv, FencesOk, Ordered, SettledOk, HistoryOk, Apart, RoomOk, Incomplete;
  }

  // ----- verdicts -------------------------------------------------------------------------------------

  /** A verdict of the application is queued for the sender and recorded, unless a result is on record already. */
  lemma SettleEffect(l: Link, id: SettlementId, accepted: bool, frames: nat)
    requires LinkInv(l) && id in l.pending.m
    ensures var (n, ok) := Settle(l, id, accepted, frames);
            var p := l.pending.m[id];
            var recorded := Lookup(PruneSettled(l.settled, l.out.now), id);
            && (Unused(l.out, Drawn(l.out.nextId)) ==> (ok <==> AnswerFits(l.out, frames)))
            && (AnswerFits(l.out, frames) ==>
                  Queues(l.out, n.out, if accepted then Confirmed(p.op, p.msgId) else Rejected(p.op, p.msgId), p.source))
            && (!AnswerFits(l.out, frames) ==> n.out.heap == l.out.heap)
            && (ok ==> id !in n.pending.m && Lookup(n.settled, id) ==
                         if recorded.Some? then recorded else Some(Settled(id, accepted, l.out.now + RETENTION_MS, None)))
            && (!ok ==> n.pending == l.pending && n.settled == l.settled)
  {
    hide Inv, InboundInv, SendControl, PruneSettled, Lookup, AnswerFits, Queues, Unused;
    var p := l.pending.m[id];
    var c := Answer(accepted, p.op, p.msgId);
    AnswerQueued(l.out, c, p.source, |l.pending.m|, frames);
    AnswerStatus(l.out, c, p.source, |l.pending.m|, frames);
    SendControlOnly(l.out, c, p.source, true, |l.pending.m|, frames);
    var n := l.(out := SendControl(l.out, c, p.source, true, |l.pending.m|, frames).0);
    FirstResultStays(n, id, accepted, None, id);
  }

  /** Sending an answer succeeds exactly when it fits, for an identity not used before. */
  lemma AnswerStatus(s: Out, c: ControlKind, to: Node, pendingInbound: nat, frames: nat)
    ensures Unused(s, Drawn(s.nextId)) ==> (SendControl(s, c, to, true, pendingInbound, frames).1.Failed? <==> !AnswerFits(s, frames))
    ensures AnswerFits(s, frames) ==> !SendControl(s, c, to, true, pendingInbound, frames).1.Failed?
  {
    hide Prune, OccupiedBy, Commit, RequestPump, ScheduleWake, Replaceable;
    PruneFields(s.(nextId := s.nextId + 1));
    PrunedNamed(s);
  }

  /** A delivery that was never answered is rejected: the rejection is queued for its sender if it fits. */
  lemma ExpiryEffect(l: Link, id: SettlementId, frames: nat)
    requires LinkInv(l) && id in l.pending.m
    ensures var p := l.pending.m[id];
            var n := PendingExpires(l, id, frames);
            && n.pending.m == l.pending.m - {id}
            && if AnswerFits(l.out, frames) then Queues(l.out, n.out, Rejected(p.op, p.msgId), p.source)
               else n.out.heap == l.out.heap
  {
    hide Inv, InboundInv, SendControl, RecordSettled, AnswerFits, Queues;
    var p := l.pending.m[id];
    AnswerQueued(l.out, Rejected(p.op, p.msgId), p.source, |l.pending.m|, frames);
    PendingStays(Reply(l, p.source, Rejected(p.op, p.msgId), frames), id);
  }

  lemma PendingStays(l: Link, id: SettlementId)
    ensures var n := RecordSettled(l, id, false, None); n == l.(settled := n.settled)
  {
    hide Lookup, PruneSettled;
  }
}
