/** Retries, answers, completion and the identity history keep the invariant of the sending half. */
module LinkOperations {
  import opened Wrappers
  import opened LinkTypes
  import opened LinkOutbound
  import opened LinkOutboundInvariants

  // ----- retries and repairs --------------------------------------------------------------------

  lemma RequeueKeeps(s: Out, r: nat, p: Progress)
    requires Inv(s) && !s.stopped && r < |s.heap| && |s.progress| == |s.heap| && r in s.byOperation.m.Values
    requires p == s.progress[r].(pending := p.pending, order := p.order, retry := NoRetry)
    requires p.pending != [] && p.order < s.nextOrder && forall c :: c in p.pending ==> c < s.heap[r].frames
    requires p.order >= s.progress[r].order
    ensures Inv(Requeue(Move(s, r, p), r))
  {
    hide Consistent, Shrinks, WithinLimits, Awake, HasEligible, RequestPump;
    StartedFacts(s, r);
    if r in Active(s) {
      MoveKeeps(s, r, p);
      var moved := Move(s, r, p);
      ShrinkKeepsLimits(s, moved);
      SendingAwake(moved);
      DequeueKeeps(moved, r);
      ShrinkKeepsLimits(moved, Dequeue(moved, r));
      SendingAwake(Dequeue(moved, r));
    } else {
      RequeueQueued(s, r, p);
    }
  }

  lemma SendingAwake(s: Out)
    requires s.sending.Some?
    ensures Awake(s)
  {
  }

  lemma StartedFacts(s: Out, r: nat)
    requires Consistent(s) && r in s.byOperation.m.Values
    ensures r < |s.heap| && |s.progress| == |s.heap| && Get(s, r).frames > 0 && Get(s, r).Confirmable()
    ensures At(s, r).order < s.nextOrder && (At(s, r).retry == ResumeRetry ==> At(s, r).started)
    ensures Get(s, r).key in s.byOperation.m && s.byOperation.m[Get(s, r).key] == r
    ensures forall c :: c in At(s, r).pending ==> c < Get(s, r).frames
  {
    hide ReservedOk, QueueOk, SendingShape, SendingFenced, LockHeld, NoneForgotten, FlagsOk, ExpiriesOk, WakeOk;
  }

  lemma RequeueQueued(s: Out, r: nat, p: Progress)
    requires Inv(s) && !s.stopped && r < |s.heap| && |s.progress| == |s.heap| && r in s.byOperation.m.Values && r !in Active(s)
    requires p == s.progress[r].(pending := p.pending, order := p.order, retry := NoRetry)
    requires p.pending != [] && p.order < s.nextOrder && forall c :: c in p.pending ==> c < s.heap[r].frames
    ensures Inv(Requeue(Move(s, r, p), r))
  {
    hide Consistent, Shrinks, WithinLimits, Awake, HasEligible, RequestPump;
    StartedFacts(s, r);
    // A retry timer stands in while the message is out of the queue.
    var waiting := Move(s, r, p.(retry := FullRetry));
    MoveKeeps(s, r, p.(retry := FullRetry));
    ShrinkKeepsLimits(s, waiting);
    var out := Dequeue(waiting, r);
    DequeueKeeps(waiting, r);
    ShrinkKeepsLimits(waiting, out);
    var back := Enqueue(out, r);
    EnqueueKeeps(out, r);
    EnqueueTrackedLimits(out, r);
    MoveKeeps(back, r, p);
    var done := Move(back, r, p);
    ShrinkKeepsLimits(back, done);
    assert waiting.progress[r := p] == s.progress[r := p];
    assert done == Enqueue(Dequeue(Move(s, r, p), r), r);
    RequestKeeps(done);
    ShrinkKeepsLimits(done, RequestPump(done));
  }

  lemma EnqueueTrackedLimits(s: Out, r: nat)
    requires WithinLimits(s) && r in s.byOperation.m.Values
    ensures WithinLimits(Enqueue(s, r))
  {
    assert Occupied(Enqueue(s, r)) == Occupied(s);
  }

  lemma RetryFiresKeeps(s: Out, r: nat)
    requires Inv(s)
    ensures Inv(RetryFires(s, r))
  {
    hide Consistent, Shrinks, WithinLimits, Awake, HasEligible, Requeue;
    var p := At(s, r);
    if p.retry != NoRetry {
      TimerOwned(s, r);
      StartedFacts(s, r);
      if s.stopped {
        UntrackedKeeps(s, r);
      } else {
        var bumped := s.(nextOrder := s.nextOrder + 1);
        OrderKeeps(s, s.nextOrder + 1, s.nextId, s.sequence);
        assert bumped == s.(nextOrder := s.nextOrder + 1, nextId := s.nextId, sequence := s.sequence);
        LimitsSame(s, bumped);
        AwakeSame(s, bumped);
        var chunks := if p.retry.FullRetry? then AllChunks(Get(s, r).frames) else p.pending;
        var q := p.(retry := NoRetry, pending := chunks, order := s.nextOrder);
        assert Move(s, r, q).(nextOrder := s.nextOrder + 1) == Move(bumped, r, q);
        if chunks == [] {
          EmptyResume(s, r);
          ActiveRequeue(bumped, r, q);
        } else {
          RequeueKeeps(bumped, r, q);
        }
      }
    }
  }

  lemma EmptyResume(s: Out, r: nat)
    requires Consistent(s) && At(s, r).retry == ResumeRetry && At(s, r).pending == []
    ensures r in Active(s)
  {
    hide HeapOk, ReservedOk, MapsOk, QueueOk, SendingShape, SendingFenced, LockHeld, NoneForgotten, FlagsOk, ExpiriesOk, WakeOk;
  }

  /** The last chunk of a message is on the air when its repair timer fires: only its order changes. */
  lemma ActiveRequeue(s: Out, r: nat, p: Progress)
    requires Inv(s) && r in Active(s) && r < |s.heap| && |s.progress| == |s.heap|
    requires p == s.progress[r].(pending := [], order := p.order, retry := NoRetry) && p.order < s.nextOrder
    ensures Inv(Requeue(Move(s, r, p), r))
  {
    hide Consistent, Shrinks, WithinLimits, Awake, HasEligible;
    HeldFacts(s);
    MoveKeeps(s, r, p);
    var moved := Move(s, r, p);
    ShrinkKeepsLimits(s, moved);
    DequeueKeeps(moved, r);
    ShrinkKeepsLimits(moved, Dequeue(moved, r));
    SendingAwake(Dequeue(moved, r));
  }

  lemma AwakeSame(s: Out, n: Out)
    requires Awake(s) && n.queue == s.queue && n.heap == s.heap && n.lock == s.lock
    requires n.paused == s.paused && n.stopped == s.stopped && n.requested == s.requested && n.sending == s.sending
    ensures Awake(n)
  {
    hide AnyMayGo;
  }

  lemma TimerOwned(s: Out, r: nat)
    requires Consistent(s) && At(s, r).retry != NoRetry
    ensures r in s.byOperation.m.Values
  {
    hide HeapOk, ReservedOk, MapsOk, QueueOk, SendingShape, SendingFenced, LockHeld, NoneForgotten, FlagsOk, ExpiriesOk, WakeOk;
  }

  lemma {:induction false} PresentOnly(frames: nat, chunks: seq<nat>)
    ensures forall c :: c in Present(frames, chunks) <==> c in chunks && c < frames
  {
    if chunks != [] {
      PresentOnly(frames, chunks[..|chunks| - 1]);
      assert chunks == chunks[..|chunks| - 1] + [chunks[|chunks| - 1]];
    }
  }

  lemma RepairKeeps(s: Out, r: nat, chunks: seq<nat>)
    requires Inv(s) && !s.stopped && r in s.byOperation.m.Values
    ensures Inv(RepairChunks(s, r, chunks))
  {
    hide Consistent, Shrinks, WithinLimits, Awake, HasEligible, Requeue;
    StartedFacts(s, r);
    PresentOnly(Get(s, r).frames, chunks);
    var missing := Present(Get(s, r).frames, chunks);
    if missing == [] {
      var p := At(s, r).(pending := [], retry := FullRetry);
      MoveKeeps(s, r, p);
      ShrinkKeepsLimits(s, Move(s, r, p));
      AwakeSame(s, Move(s, r, p));
    } else {
      RequeueKeeps(s, r, At(s, r).(pending := missing, retry := NoRetry));
    }
  }

  // ----- identity history -----------------------------------------------------------------------

  /** `n` is `s` with some expired identities gone. */
  ghost predicate Pruned(s: Out, n: Out) {
    && n == s.(expiries := n.expiries, committed := n.committed)
    && (forall k :: k in n.committed.m ==> k in s.committed.m && n.committed.m[k] == s.committed.m[k])
    && (forall k :: k in s.committed.m && k !in n.committed.m ==>
          s.committed.m[k].Some? && s.committed.m[k].value <= s.now)
    && WakeOk(s.blocked, s.expiries, s.wakeAt, s.stopped) && WakeOk(n.blocked, n.expiries, n.wakeAt, n.stopped)
  }

  lemma {:induction false} UnexpiredIsSuffix(expiries: seq<Expiry>, now: nat)
    ensures |Unexpired(expiries, now)| <= |expiries|
    ensures Unexpired(expiries, now) == expiries[|expiries| - |Unexpired(expiries, now)|..]
    ensures Unexpired(expiries, now) != [] ==> Unexpired(expiries, now)[0].at > now
  {
    if expiries != [] && expiries[0].at <= now {
      UnexpiredIsSuffix(expiries[1..], now);
    }
  }

  /** Pruning forgets exactly the completed identities whose retention has passed. */
  lemma {:induction false} PruneExact(committed: Table<OpId, Option<nat>>, expiries: seq<Expiry>, now: nat)
    requires ExpiriesOk(committed.m, expiries, now)
    ensures ExpiriesOk(Remembered(committed, expiries, now).m, Unexpired(expiries, now), now)
    ensures forall k :: k in Remembered(committed, expiries, now).m <==>
              k in committed.m && (committed.m[k].None? || committed.m[k].value > now)
    ensures forall k :: k in Remembered(committed, expiries, now).m ==>
              Remembered(committed, expiries, now).m[k] == committed.m[k]
    decreases |expiries|
  {
    if expiries != [] && expiries[0].at <= now {
      var e := expiries[0];
      var kept := Forget(committed, e);
      ForgetKeeps(committed, expiries, now);
      PruneExact(kept, expiries[1..], now);
    } else if expiries != [] {
      assert forall e :: e in expiries ==> e.at > now;
    }
  }

  lemma ForgetKeeps(committed: Table<OpId, Option<nat>>, expiries: seq<Expiry>, now: nat)
    requires ExpiriesOk(committed.m, expiries, now) && expiries != [] && expiries[0].at <= now
    ensures ExpiriesOk(Forget(committed, expiries[0]).m, expiries[1..], now)
    ensures forall k :: k in Forget(committed, expiries[0]).m ==>
              k in committed.m && Forget(committed, expiries[0]).m[k] == committed.m[k]
    ensures forall k :: k in committed.m && k !in Forget(committed, expiries[0]).m ==>
              committed.m[k].Some? && committed.m[k].value <= now
  {
    assert expiries == [expiries[0]] + expiries[1..];
  }

  lemma PruneShape(s: Out)
    requires Consistent(s)
    ensures Pruned(s, Prune(s)) && ExpiriesOk(Prune(s).committed.m, Prune(s).expiries, s.now)
  {
    hide HeapOk, ProgressOk, ReservedOk, MapsOk, QueueOk, SendingShape, SendingFenced, LockHeld, NoneForgotten, TimersOk, FlagsOk;
    PruneExact(s.committed, s.expiries, s.now);
    UnexpiredIsSuffix(s.expiries, s.now);
  }

  lemma PrunedLinked(s: Out, n: Out)
    requires Consistent(s) && Pruned(s, n) && ExpiriesOk(n.committed.m, n.expiries, s.now)
    ensures Consistent(n)
  {
    hide HeapOk, ProgressOk, ReservedOk, MapsOk, SendingShape, SendingFenced, QueueOk, LockHeld, NoneForgotten, TimersOk, FlagsOk,
         ExpiriesOk, StoppedOk, WakeOk;
    PrunedReserved(s, n);
    PrunedMaps(s, n);
    PrunedFenced(s, n);
  }

  lemma PrunedReserved(s: Out, n: Out)
    requires ReservedOk(s.reserved.m, s.heap, s.committed.m, s.nextId, s.sequence) && Pruned(s, n)
    ensures ReservedOk(n.reserved.m, n.heap, n.committed.m, n.nextId, n.sequence)
  {
    hide WakeOk;
  }

  lemma PrunedMaps(s: Out, n: Out)
    requires MapsOk(s.heap, s.byOperation.m, s.pendingData.m, s.responses.m, s.committed.m) && Pruned(s, n)
    ensures MapsOk(n.heap, n.byOperation.m, n.pendingData.m, n.responses.m, n.committed.m)
  {
    hide WakeOk, AgreeOk;
  }

  lemma PrunedFenced(s: Out, n: Out)
    requires SendingShape(s.sending, s.queue, s.heap, s.now) && Pruned(s, n)
    requires SendingFenced(s.sending, s.heap, s.byOperation.m, s.pendingData.m, s.responses.m, s.committed.m)
    ensures SendingFenced(n.sending, n.heap, n.byOperation.m, n.pendingData.m, n.responses.m, n.committed.m)
  {
    hide WakeOk;
  }

  lemma PruneKeeps(s: Out)
    requires Inv(s)
    ensures Inv(Prune(s)) && Pruned(s, Prune(s))
  {
    hide Consistent, WithinLimits, Awake, ExpiriesOk, OccupiedBy, AwaitedBy, WakeOk;
    PruneShape(s);
    PrunedLinked(s, Prune(s));
    assert Prune(s).committed.m.Keys <= s.committed.m.Keys;
    ShrinkKeepsLimits(s, Prune(s));
    AwakeSame(s, Prune(s));
  }

  lemma WakeKeeps(s: Out, blocked: bool)
    requires Linked(s) && (blocked ==> !s.stopped)
    ensures Linked(ScheduleWake(s.(blocked := blocked)))
    ensures var n := ScheduleWake(s.(blocked := blocked)); n == s.(blocked := blocked, wakeAt := n.wakeAt)
  {
    hide HeapOk, ProgressOk, ReservedOk, MapsOk, QueueOk, SendingShape, SendingFenced, LockHeld, NoneForgotten, TimersOk, FlagsOk, ExpiriesOk;
  }

  lemma BlockKeeps(s: Out)
    requires Inv(s) && !s.stopped
    ensures Inv(ScheduleWake(s.(blocked := true)))
  {
    hide Linked, WithinLimits, Awake;
    WakeKeeps(s, true);
    var n := ScheduleWake(s.(blocked := true));
    LimitsSame(s, n);
    AwakeSame(s, n);
  }

  lemma WakeFiresKeeps(s: Out)
    requires Inv(s)
    ensures Inv(WakeFires(s))
  {
    if s.wakeAt.Some? {
      var woken := s.(wakeAt := None, blocked := false);
      UnblockKeeps(s);
      hide Consistent, WithinLimits, Awake, Pruned;
      LimitsSame(s, woken);
      AwakeSame(s, woken);
      PruneKeeps(woken);
    }
  }

  lemma UnblockKeeps(s: Out)
    requires Consistent(s)
    ensures Consistent(s.(wakeAt := None, blocked := false))
  {
    hide HeapOk, ProgressOk, ReservedOk, MapsOk, QueueOk, SendingShape, SendingFenced, LockHeld, NoneForgotten, TimersOk, FlagsOk, ExpiriesOk;
  }

  /** The identity `op` is tracked nowhere any more. */
  ghost predicate Idle(s: Out, op: OpId) {
    op !in s.byOperation.m && op !in s.pendingData.m && op !in s.responses.m
  }

  lemma RetainExpiries(s: Out, op: OpId)
    requires ExpiriesOk(s.committed.m, s.expiries, s.now)
    ensures ExpiriesOk(s.committed.Put(op, Some(s.now + RETENTION_MS)).m, s.expiries + [Expiry(op, s.now + RETENTION_MS)], s.now)
  {
  }

  lemma RetainMaps(s: Out, op: OpId, at: nat)
    requires Idle(s, op) && op in s.committed.m
    requires MapsOk(s.heap, s.byOperation.m, s.pendingData.m, s.responses.m, s.committed.m)
    ensures MapsOk(s.heap, s.byOperation.m, s.pendingData.m, s.responses.m, s.committed.m[op := Some(at)])
  {
  }

  lemma RetainReserved(s: Out, op: OpId, at: nat)
    requires op in s.committed.m && ReservedOk(s.reserved.m, s.heap, s.committed.m, s.nextId, s.sequence)
    ensures ReservedOk(s.reserved.m, s.heap, s.committed.m[op := Some(at)], s.nextId, s.sequence)
  {
  }

  lemma RetainFence(s: Out, r: nat, since: nat, op: OpId)
    requires since <= s.now
    requires SendFenced(r, since, s.heap, s.byOperation.m, s.pendingData.m, s.responses.m, s.committed.m)
    ensures SendFenced(r, since, s.heap, s.byOperation.m, s.pendingData.m, s.responses.m,
                       s.committed.m[op := Some(s.now + RETENTION_MS)])
  {
  }

  lemma RetainFences(s: Out, op: OpId)
    requires SendingShape(s.sending, s.queue, s.heap, s.now)
    requires SendingFenced(s.sending, s.heap, s.byOperation.m, s.pendingData.m, s.responses.m, s.committed.m)
    ensures SendingFenced(s.sending, s.heap, s.byOperation.m, s.pendingData.m, s.responses.m,
                          s.committed.m[op := Some(s.now + RETENTION_MS)])
  {
    hide SendFenced;
    if s.sending.Some? {
      RetainFence(s, s.sending.value.ref, s.sending.value.since, op);
      if s.sending.value.report.Some? {
        RetainFence(s, s.sending.value.report.value, s.sending.value.since, op);
      }
    }
  }

  lemma RetainKeeps(s: Out, op: OpId)
    requires Linked(s) && Idle(s, op)
    ensures var n := RetainCompleted(s, op);
            && Linked(n) && n.committed.m.Keys == s.committed.m.Keys
            && n == s.(committed := n.committed, expiries := n.expiries, wakeAt := n.wakeAt)
  {
    hide HeapOk, ProgressOk, ReservedOk, MapsOk, QueueOk, SendingShape, SendingFenced, LockHeld, NoneForgotten, TimersOk, FlagsOk, ExpiriesOk, WakeOk;
    if op in s.committed.m {
      RetainExpiries(s, op);
      RetainMaps(s, op, s.now + RETENTION_MS);
      RetainReserved(s, op, s.now + RETENTION_MS);
      RetainFences(s, op);
      RetainWake(s, op);
    }
  }

  lemma RetainWake(s: Out, op: OpId)
    requires Linked(s)
    ensures var n := RetainCompleted(s, op);
            && n == s.(committed := n.committed, expiries := n.expiries, wakeAt := n.wakeAt)
            && WakeOk(n.blocked, n.expiries, n.wakeAt, n.stopped)
  {
    hide HeapOk, ProgressOk, ReservedOk, MapsOk, QueueOk, SendingShape, SendingFenced, LockHeld, NoneForgotten, TimersOk, FlagsOk, ExpiriesOk;
  }

  // ----- completion -----------------------------------------------------------------------------

  /** Every map entry of `r`'s identity is about `r`. */
  ghost predicate Sole(s: Out, r: nat) {
    var k := Get(s, r).key;
    && (k in s.byOperation.m ==> s.byOperation.m[k] == r)
    && (k in s.pendingData.m ==> s.pendingData.m[k] == r)
    && (k in s.responses.m ==> s.responses.m[k] == r)
  }

  /** `n` is `s` after `r` left the queue, the lock, its timers and the maps named by `kept`. */
  ghost predicate Gone(s: Out, n: Out, r: nat) {
    var k := Get(s, r).key;
    && n == s.(queue := n.queue, progress := n.progress, lock := n.lock, byOperation := n.byOperation,
               pendingData := n.pendingData, responses := n.responses)
    && NoDup(n.queue) && (forall x :: x in n.queue <==> x in s.queue && x != r)
    && r < |s.heap| == |s.progress| == |n.progress| && n.progress == s.progress[r := s.progress[r].(retry := NoRetry, deadline := n.progress[r].deadline)]
    && n.lock == (if s.lock == Some(Get(s, r).msgId) then None else s.lock)
    && n.byOperation == s.byOperation.Drop(k)
    && (n.pendingData == s.pendingData || n.pendingData == s.pendingData.Drop(k))
    && (n.responses == s.responses || n.responses == s.responses.Drop(k))
    && (if n.progress[r].deadline then s.progress[r].deadline && r in n.pendingData.m.Values + n.responses.m.Values
        else k !in n.pendingData.m && k !in n.responses.m)
  }

  lemma GoneMaps(s: Out, n: Out, r: nat)
    requires Gone(s, n, r) && Sole(s, r)
    requires MapsOk(s.heap, s.byOperation.m, s.pendingData.m, s.responses.m, s.committed.m)
    ensures MapsOk(n.heap, n.byOperation.m, n.pendingData.m, n.responses.m, n.committed.m)
  {
  }

  lemma GoneShrinks(s: Out, n: Out, r: nat)
    requires Gone(s, n, r)
    ensures Shrinks(s, n)
  {
  }

  lemma GoneQueue(s: Out, n: Out, r: nat)
    requires Gone(s, n, r) && Sole(s, r) && QueueOk(s.queue, s.heap, s.byOperation.m)
    ensures QueueOk(n.queue, n.heap, n.byOperation.m)
  {
  }

  lemma GoneFence(s: Out, n: Out, r: nat)
    requires Gone(s, n, r)
    requires SendingFenced(s.sending, s.heap, s.byOperation.m, s.pendingData.m, s.responses.m, s.committed.m)
    ensures SendingFenced(n.sending, n.heap, n.byOperation.m, n.pendingData.m, n.responses.m, n.committed.m)
  {
  }

  lemma GoneLock(s: Out, n: Out, r: nat)
    requires Gone(s, n, r) && Sole(s, r)
    requires HeapOk(s.heap, s.nextId, s.sequence) && LockHeld(s.lock, s.heap, s.byOperation.m)
    requires MapsOk(s.heap, s.byOperation.m, s.pendingData.m, s.responses.m, s.committed.m)
    ensures LockHeld(n.lock, n.heap, n.byOperation.m)
  {
    if n.lock.Some? {
      var k :| k in s.byOperation.m && s.byOperation.m[k] < |s.heap| && s.heap[s.byOperation.m[k]].IsObject()
               && s.heap[s.byOperation.m[k]].msgId == s.lock.value;
      assert k in n.byOperation.m;
    }
  }

  lemma GoneTimers(s: Out, n: Out, r: nat)
    requires Gone(s, n, r) && Sole(s, r)
    requires MapsOk(s.heap, s.byOperation.m, s.pendingData.m, s.responses.m, s.committed.m)
    requires ProgressOk(s.heap, s.progress, s.nextOrder) && TimersOk(s.progress, s.queue, s.sending, s.byOperation.m)
    ensures ProgressOk(n.heap, n.progress, n.nextOrder) && TimersOk(n.progress, n.queue, n.sending, n.byOperation.m)
  {
    forall x | 0 <= x < |n.progress| && n.progress[x].retry != NoRetry
      ensures x in n.byOperation.m.Values
    {
      assert x != r && s.heap[x].key in n.byOperation.m && n.byOperation.m[s.heap[x].key] == x;
    }
  }

  lemma GoneOwned(s: Out, n: Out, r: nat)
    requires Gone(s, n, r) && Sole(s, r)
    requires forall x :: 0 <= x < |s.progress| && s.progress[x].deadline ==> x in Awaiting(s)
    ensures forall x :: 0 <= x < |n.progress| && n.progress[x].deadline ==> x in Awaiting(n)
  {
    forall x | 0 <= x < |n.progress| && n.progress[x].deadline && x != r
      ensures x in Awaiting(n)
    {
      assert x in Awaiting(s);
      if x in s.byOperation.m.Values {
        var k :| k in s.byOperation.m && s.byOperation.m[k] == x;
        assert k in n.byOperation.m && n.byOperation.m[k] == x;
      } else if x in s.pendingData.m.Values {
        var k :| k in s.pendingData.m && s.pendingData.m[k] == x;
        assert k in n.pendingData.m && n.pendingData.m[k] == x;
      } else {
        var k :| k in s.responses.m && s.responses.m[k] == x;
        assert k in n.responses.m && n.responses.m[k] == x;
      }
    }
  }

  lemma GoneMoving(s: Out, n: Out, r: nat)
    requires Gone(s, n, r) && Sole(s, r)
    requires MapsOk(s.heap, s.byOperation.m, s.pendingData.m, s.responses.m, s.committed.m)
    requires NoneForgotten(s.progress, s.queue, s.sending, s.byOperation.m, s.pendingData.m, s.responses.m)
    ensures NoneForgotten(n.progress, n.queue, n.sending, n.byOperation.m, n.pendingData.m, n.responses.m)
  {
    hide AwaitedBy, MapsOk, Sole;
    GoneOwned(s, n, r);
    GoneElsewhere(s, n, r);
    forall k | k in n.byOperation.m
      ensures n.byOperation.m[k] < |n.progress| && n.progress[n.byOperation.m[k]].deadline
      ensures Moving(n.byOperation.m[k], n.progress, n.queue, n.sending)
    {
      assert n.byOperation.m[k] != r;
      assert Moving(s.byOperation.m[k], s.progress, s.queue, s.sending);
    }
  }

  lemma GoneElsewhere(s: Out, n: Out, r: nat)
    requires Gone(s, n, r) && Sole(s, r)
    requires MapsOk(s.heap, s.byOperation.m, s.pendingData.m, s.responses.m, s.committed.m)
    ensures forall k :: k in n.byOperation.m ==>
              k in s.byOperation.m && n.byOperation.m[k] == s.byOperation.m[k] && n.byOperation.m[k] != r
    ensures forall k :: k in n.pendingData.m ==>
              k in s.pendingData.m && n.pendingData.m[k] == s.pendingData.m[k] && (n.pendingData.m[k] == r ==> n.progress[r].deadline)
    ensures forall k :: k in n.responses.m ==>
              k in s.responses.m && n.responses.m[k] == s.responses.m[k] && (n.responses.m[k] == r ==> n.progress[r].deadline)
  {
    hide AgreeOk;
  }

  lemma GoneKeeps(s: Out, n: Out, r: nat)
    requires Linked(s) && Gone(s, n, r) && Sole(s, r)
    ensures Linked(n) && Shrinks(s, n)
  {
    GoneMaps(s, n, r);
    GoneShrinks(s, n, r);
    GoneQueue(s, n, r);
    GoneFence(s, n, r);
    GoneLock(s, n, r);
    GoneTimers(s, n, r);
    GoneMoving(s, n, r);
    hide HeapOk, ProgressOk, ReservedOk, MapsOk, QueueOk, SendingFenced, LockHeld, NoneForgotten, TimersOk, ExpiriesOk, WakeOk, OccupiedBy, AwaitedBy;
  }

  lemma GoneCalm(s: Out, n: Out, r: nat)
    requires Gone(s, n, r) && HasEligible(n) && s.lock == n.lock
    ensures HasEligible(s)
  {
    var x :| x in n.queue && MayGo(n.heap, n.lock, x);
    assert x in s.queue && MayGo(s.heap, s.lock, x);
  }

  lemma LeaveGone(s: Out, r: nat, status: Status)
    requires r < |s.heap| == |s.progress| && NoDup(s.queue) && Sole(s, r)
    requires MapsOk(s.heap, s.byOperation.m, s.pendingData.m, s.responses.m, s.committed.m)
    requires status.ConfirmedStatus? ==> Get(s, r).key !in s.responses.m
    ensures Gone(s, Leave(s, r, status), r) && Idle(Leave(s, r, status), Get(s, r).key)
  {
    WithoutNoDup(s.queue, r);
  }

  lemma LinkedFacts(s: Out)
    requires Linked(s)
    ensures |s.heap| == |s.progress| && NoDup(s.queue)
    ensures MapsOk(s.heap, s.byOperation.m, s.pendingData.m, s.responses.m, s.committed.m)
  {
    hide HeapOk, ReservedOk, SendingShape, SendingFenced, LockHeld, NoneForgotten, TimersOk, ExpiriesOk, WakeOk, FlagsOk;
  }

  /** `r` left and its outcome is on record. */
  function Recorded(s: Out, r: nat, status: Status): Out {
    var key := Get(s, r).key;
    var done := RetainCompleted(Leave(s, r, status), key);
    done.(results := done.results.Put(key, status))
  }

  /** What a completion changes. */
  ghost predicate Done(s: Out, n: Out, r: nat) {
    var k := Get(s, r).key;
    && n.heap == s.heap && n.stopped == s.stopped && n.sending == s.sending && n.cfg == s.cfg && n.paused == s.paused
    && n.now == s.now && n.reserved == s.reserved && n.blocked == s.blocked
    && n.byOperation == s.byOperation.Drop(k)
    && (n.pendingData == s.pendingData || n.pendingData == s.pendingData.Drop(k))
    && (n.responses == s.responses || n.responses == s.responses.Drop(k))
    && Idle(n, k) && (forall x :: x in n.queue <==> x in s.queue && x != r)
  }

  lemma RecordedKeeps(s: Out, r: nat, status: Status)
    requires Linked(s) && WithinLimits(s) && r < |s.heap| && Sole(s, r)
    requires status.ConfirmedStatus? ==> Get(s, r).key !in s.responses.m
    ensures var n := Recorded(s, r, status);
            Linked(n) && WithinLimits(n) && Done(s, n, r) && n.requested == s.requested
    ensures HasEligible(Recorded(s, r, status)) && s.lock != Some(Get(s, r).msgId) ==> HasEligible(s)
  {
    hide Linked, WithinLimits, Leave, RetainCompleted, Shrinks, HasEligible;
    var k := Get(s, r).key;
    LinkedFacts(s);
    LeaveGone(s, r, status);
    var gone := Leave(s, r, status);
    GoneKeeps(s, gone, r);
    ShrinkKeepsLimits(s, gone);
    RetainKeeps(gone, k);
    var done := RetainCompleted(gone, k);
    var n := Recorded(s, r, status);
    ResultsLinked(done, n.results);
    RetainLimits(gone, n);
    if HasEligible(n) && s.lock != Some(Get(s, r).msgId) {
      EligibleSame(gone, n);
      GoneCalm(s, gone, r);
    }
  }

  lemma CompleteLinked(s: Out, r: nat, status: Status)
    requires Linked(s) && WithinLimits(s) && r < |s.heap| && Sole(s, r)
    requires status.ConfirmedStatus? ==> Get(s, r).key !in s.responses.m
    ensures Linked(Complete(s, r, status)) && WithinLimits(Complete(s, r, status))
    ensures Awake(s) ==> Awake(Complete(s, r, status))
    ensures Done(s, Complete(s, r, status), r)
    ensures s.paused && !s.requested ==> !Complete(s, r, status).requested
  {
    hide Linked, WithinLimits, Awake, Leave, RetainCompleted, HasEligible;
    var n := Recorded(s, r, status);
    RecordedKeeps(s, r, status);
    RequestLinked(n);
    LimitsSame(n, RequestPump(n));
    if Awake(s) {
      CompleteAwake(s, n, s.lock == Some(Get(s, r).msgId));
    }
  }

  lemma CompleteAwake(s: Out, n: Out, released: bool)
    requires Awake(s) && n.paused == s.paused && n.stopped == s.stopped && n.requested == s.requested && n.sending == s.sending
    requires !released && HasEligible(n) ==> HasEligible(s)
    ensures Awake(if released && HasEligible(n) then RequestPump(n) else n)
  {
    hide AnyMayGo;
  }

  lemma EligibleSame(s: Out, n: Out)
    requires n.queue == s.queue && n.heap == s.heap && n.lock == s.lock
    ensures HasEligible(n) == HasEligible(s)
  {
  }

  lemma RetainLimits(s: Out, n: Out)
    requires WithinLimits(s) && n.committed.m.Keys == s.committed.m.Keys
    requires n == s.(committed := n.committed, expiries := n.expiries, wakeAt := n.wakeAt, results := n.results)
    ensures WithinLimits(n)
  {
    hide OccupiedBy, AwaitedBy;
    assert |n.committed.m| == |n.committed.m.Keys| && |s.committed.m| == |s.committed.m.Keys|;
  }

  lemma ResultsLinked(s: Out, results: Table<OpId, Status>)
    requires Linked(s)
    ensures Linked(s.(results := results))
  {
    hide HeapOk, ProgressOk, ReservedOk, MapsOk, QueueOk, SendingShape, SendingFenced, LockHeld, NoneForgotten, TimersOk, ExpiriesOk, WakeOk, FlagsOk;
  }

  lemma RequestLinked(s: Out)
    requires Linked(s)
    ensures Linked(RequestPump(s))
    ensures RequestPump(s) == s.(requested := RequestPump(s).requested)
  {
    hide HeapOk, ProgressOk, ReservedOk, MapsOk, QueueOk, SendingShape, SendingFenced, LockHeld, NoneForgotten, TimersOk, ExpiriesOk, WakeOk;
  }

  // ----- outcomes of tracked operations -----------------------------------------------------------

  lemma TrackedSole(s: Out, r: nat)
    requires Linked(s) && r in Awaiting(s)
    ensures r < |s.heap| == |s.progress| && Sole(s, r) && Get(s, r).Confirmable() && Held(s.committed.m, Get(s, r).key)
    ensures r in s.byOperation.m.Values && !Get(s, r).message.DataRequest? && !Get(s, r).message.ResourceOperation? ==>
              Get(s, r).key !in s.responses.m && Get(s, r).key !in s.pendingData.m
    ensures r in s.byOperation.m.Values && Get(s, r).message.DataRequest? ==>
              Get(s, r).key in s.pendingData.m && Get(s, r).key !in s.responses.m
    ensures r in s.byOperation.m.Values && Get(s, r).message.ResourceOperation? ==>
              Get(s, r).key in s.responses.m && Get(s, r).key !in s.pendingData.m
  {
    hide HeapOk, ReservedOk, QueueOk, SendingShape, SendingFenced, LockHeld, NoneForgotten, TimersOk, ExpiriesOk, WakeOk, FlagsOk;
  }

  lemma StaysStopped(s: Out, n: Out, r: nat)
    requires StoppedOk(s.stopped, s.queue, s.byOperation.m, s.pendingData.m, s.responses.m) && Done(s, n, r)
    ensures StoppedOk(n.stopped, n.queue, n.byOperation.m, n.pendingData.m, n.responses.m)
  {
    assert n.queue == [] || n.queue[0] in n.queue;
  }

  /** Any terminal outcome of an operation under way keeps the invariant. */
  lemma CompleteKeeps(s: Out, r: nat, status: Status)
    requires Inv(s) && r in Awaiting(s)
    requires status.ConfirmedStatus? ==> Get(s, r).key !in s.responses.m
    ensures Inv(Complete(s, r, status))
  {
    hide Linked, WithinLimits, Awake, Complete, Done, StoppedOk;
    TrackedSole(s, r);
    CompleteLinked(s, r, status);
    StaysStopped(s, Complete(s, r, status), r);
  }

  lemma CancelKeeps(s: Out, op: OpId)
    requires Inv(s)
    ensures Inv(Cancel(s, op))
  {
    hide Linked, StoppedOk, WithinLimits, Awake, Complete;
    if Cancellable(s, op).Some? {
      CompleteKeeps(s, Cancellable(s, op).value, Failed);
    }
  }

  /** A deadline timer only ever runs for an operation that is still under way. */
  lemma DeadlineOwned(s: Out, r: nat)
    requires Linked(s) && At(s, r).deadline
    ensures r in Awaiting(s)
  {
    hide HeapOk, ReservedOk, MapsOk, QueueOk, SendingShape, SendingFenced, LockHeld, TimersOk, ExpiriesOk, WakeOk, FlagsOk, AwaitedBy;
  }

  lemma DeadlineFiresKeeps(s: Out, r: nat)
    requires Inv(s)
    ensures Inv(DeadlineFires(s, r))
    ensures At(s, r).deadline ==> DeadlineFires(s, r) == Complete(s, r, Failed)
  {
    hide Linked, StoppedOk, WithinLimits, Awake, Complete;
    if At(s, r).deadline {
      DeadlineOwned(s, r);
      CompleteKeeps(s, r, Failed);
      TrackedSole(s, r);
      if !Tracked(s, r) {
        DeadlineWaits(s, r);
      }
    }
  }

  lemma DeadlineWaits(s: Out, r: nat)
    requires Linked(s) && r in Awaiting(s) && !Tracked(s, r)
    ensures var o := Get(s, r);
            || (o.message.DataRequest? && o.message.id in s.pendingData.m && s.pendingData.m[o.message.id] == r)
            || (o.key in s.responses.m && s.responses.m[o.key] == r)
  {
    hide HeapOk, ReservedOk, QueueOk, SendingShape, SendingFenced, LockHeld, NoneForgotten, TimersOk, ExpiriesOk, WakeOk, FlagsOk;
  }

  /** Only object transfers hold the object lock. */
  lemma LockElsewhere(s: Out, r: nat)
    requires Linked(s) && r < |s.heap| && !Get(s, r).IsObject()
    ensures s.lock != Some(Get(s, r).msgId)
  {
    hide ReservedOk, MapsOk, QueueOk, SendingShape, SendingFenced, NoneForgotten, TimersOk, ExpiriesOk, WakeOk, FlagsOk;
  }

  lemma ConfirmedGone(s: Out, r: nat)
    requires r < |s.heap| == |s.progress| && NoDup(s.queue) && Sole(s, r) && s.lock != Some(Get(s, r).msgId)
    requires Get(s, r).key in s.pendingData.m || Get(s, r).key in s.responses.m
    requires s.progress[r].deadline
    ensures var n := ConfirmAwaitingResponse(s, r); Gone(s, n.(results := s.results), r)
  {
    WithoutNoDup(s.queue, r);
  }

  lemma AnsweredGone(s: Out, r: nat)
    requires r < |s.heap| == |s.progress| && NoDup(s.queue) && Sole(s, r) && s.lock != Some(Get(s, r).msgId)
    ensures var n := LeaveAnswered(s, r, Get(s, r).key); Gone(s, n, r) && Idle(n, Get(s, r).key)
  {
    WithoutNoDup(s.queue, r);
  }

  lemma WaitingTimed(s: Out, r: nat)
    requires Linked(s) && r in s.byOperation.m.Values
    ensures r < |s.progress| && s.progress[r].deadline
  {
    hide HeapOk, ReservedOk, MapsOk, QueueOk, SendingShape, SendingFenced, LockHeld, TimersOk, ExpiriesOk, WakeOk, FlagsOk;
  }

  lemma CalmAwake(s: Out, n: Out)
    requires Awake(s) && n.paused == s.paused && n.stopped == s.stopped && n.requested == s.requested && n.sending == s.sending
    requires HasEligible(n) ==> HasEligible(s)
    ensures Awake(n)
  {
    hide AnyMayGo;
  }

  lemma ConfirmKeeps(s: Out, r: nat)
    requires Inv(s) && !s.stopped && r in s.byOperation.m.Values
    requires Get(s, r).message.DataRequest? || Get(s, r).message.ResourceOperation?
    ensures Inv(ConfirmAwaitingResponse(s, r)) && r in Awaiting(ConfirmAwaitingResponse(s, r))
  {
    hide Linked, WithinLimits, Awake, HasEligible, Shrinks, Without;
    assert r in Awaiting(s);
    TrackedSole(s, r);
    LinkedFacts(s);
    LockElsewhere(s, r);
    WaitingTimed(s, r);
    ConfirmedGone(s, r);
    var n := ConfirmAwaitingResponse(s, r);
    var gone := n.(results := s.results);
    assert n == gone.(results := n.results);
    GoneKeeps(s, gone, r);
    ShrinkKeepsLimits(s, gone);
    if HasEligible(gone) {
      GoneCalm(s, gone, r);
    }
    CalmAwake(s, gone);
    ResultsLinked(gone, n.results);
    LimitsSame(gone, n);
    AwakeSame(gone, n);
  }

  lemma AnsweredKeeps(s: Out, r: nat)
    requires Inv(s) && !s.stopped && r in Awaiting(s)
    requires Get(s, r).message.DataRequest? || Get(s, r).message.ResourceOperation?
    ensures Inv(CompleteWithResponse(s, r, Get(s, r).key)) && Idle(CompleteWithResponse(s, r, Get(s, r).key), Get(s, r).key)
  {
    hide Linked, WithinLimits, Awake, HasEligible, Shrinks, LeaveAnswered, RetainCompleted;
    var k := Get(s, r).key;
    TrackedSole(s, r);
    LinkedFacts(s);
    LockElsewhere(s, r);
    AnsweredGone(s, r);
    var gone := LeaveAnswered(s, r, k);
    GoneKeeps(s, gone, r);
    ShrinkKeepsLimits(s, gone);
    if HasEligible(gone) {
      GoneCalm(s, gone, r);
    }
    CalmAwake(s, gone);
    RetainKeeps(gone, k);
    var done := RetainCompleted(gone, k);
    var n := CompleteWithResponse(s, r, k);
    assert n == done.(results := n.results);
    ResultsLinked(done, n.results);
    RetainLimits(gone, n);
    AwakeSame(gone, n);
  }

  // ----- control answers --------------------------------------------------------------------------

  /** Message identities are unique, so an answer concerns at most one operation. */
  lemma AnswerUnique(s: Out, q: nat, r: nat, from: Node, op: OpId, msgId: nat)
    requires Linked(s) && AnswerFound(s, q, from, op, msgId) && AnswerFound(s, r, from, op, msgId)
    ensures q == r
  {
    hide ReservedOk, QueueOk, SendingShape, SendingFenced, LockHeld, NoneForgotten, TimersOk, ExpiriesOk, WakeOk, FlagsOk;
  }

  lemma ApplyAnswerKeeps(s: Out, r: nat, c: ControlKind)
    requires Inv(s) && !s.stopped && r in s.byOperation.m.Values
    ensures Inv(ApplyAnswer(s, r, c))
  {
    hide Linked, StoppedOk, WithinLimits, Awake, Complete, RepairChunks, ConfirmAwaitingResponse, NeedsConfirmation, Sole, Held;
    assert r in Awaiting(s);
    TrackedSole(s, r);
    match c
    case MissingChunks(_, _, chunks) => RepairKeeps(s, r, chunks);
    case Confirmed(_, _) =>
      if Get(s, r).message.DataRequest? || Get(s, r).message.ResourceOperation? {
        ConfirmKeeps(s, r);
      } else {
        CompleteKeeps(s, r, ConfirmedStatus);
      }
    case Rejected(_, _) => CompleteKeeps(s, r, RejectedStatus);
    case SourceActive(_, _, _) =>
  }
}
