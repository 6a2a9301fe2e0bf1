/** Submitting, reserving and settling keep the invariant of the sending half and its limits. */
module LinkSubmission {
  import opened Wrappers
  import opened LinkTypes
  import opened LinkOutbound
  import opened LinkOutboundInvariants
  import opened LinkOperations

  // ----- committing a prepared message ------------------------------------------------------------

  /** `o` can join: its identities are new, or are the ones reserved for it. */
  ghost predicate Fresh(o: Outbound, heap: seq<Outbound>, reserved: map<OpId, Reservation>, committed: map<OpId, Option<nat>>,
                        nextId: nat)
  {
    && o.frames > 0 && o.msgId < nextId && o.key !in committed && (o.message.DataRequest? ==> o.message.id == o.key)
    && (forall r :: 0 <= r < |heap| ==> heap[r].msgId != o.msgId && heap[r].sequence != o.sequence)
    && (forall k :: k in reserved && k != o.key ==> reserved[k].msgId != o.msgId && reserved[k].sequence != o.sequence)
  }

  function Replaced(s: Out, o: Outbound): nat { if Replaceable(s, o.message).Some? then 1 else 0 }

  lemma {:induction false} CoalescableIdle(s: Out, q: seq<nat>, resource: string)
    ensures Coalescable(s, q, resource).Some? ==>
              var r := Coalescable(s, q, resource).value;
              r in q && Get(s, r).message.State? && Get(s, r).message.resource == resource && !At(s, r).started
    ensures Coalescable(s, q, resource).None? ==>
              forall r :: r in q && !At(s, r).started && Get(s, r).message.State? ==> Get(s, r).message.resource != resource
  {
    if q != [] {
      CoalescableIdle(s, q[..|q| - 1], resource);
      assert q == q[..|q| - 1] + [q[|q| - 1]];
    }
  }

  lemma ReplaceableIdle(s: Out, m: Message)
    ensures Replaceable(s, m).Some? ==>
              Replaceable(s, m).value in s.queue && Get(s, Replaceable(s, m).value).message.State?
  {
    if m.State? {
      CoalescableIdle(s, s.queue, m.resource);
    }
  }

  lemma CommitHeap(s: Out, o: Outbound, n: Out)
    requires HeapOk(s.heap, s.nextId, s.sequence) && Fresh(o, s.heap, s.reserved.m, s.committed.m, s.nextId)
    requires n.heap == s.heap + [o] && n.nextId == s.nextId && n.sequence == Max(s.sequence, o.sequence)
    ensures HeapOk(n.heap, n.nextId, n.sequence)
  {
  }

  lemma CommitProgress(s: Out, o: Outbound, order: nat, n: Out)
    requires ProgressOk(s.heap, s.progress, s.nextOrder) && order < s.nextOrder && n.nextOrder == s.nextOrder
    requires n.heap == s.heap + [o]
    requires n.progress == s.progress + [Progress(AllChunks(o.frames), false, order, NoRetry, o.Confirmable())]
    ensures ProgressOk(n.heap, n.progress, n.nextOrder)
  {
  }

  lemma CommitReserved(s: Out, o: Outbound, n: Out)
    requires ReservedOk(s.reserved.m, s.heap, s.committed.m, s.nextId, s.sequence)
    requires Fresh(o, s.heap, s.reserved.m, s.committed.m, s.nextId)
    requires n.heap == s.heap + [o] && n.nextId == s.nextId && n.sequence == Max(s.sequence, o.sequence)
    requires n.reserved == s.reserved.Drop(o.key)
    requires n.committed == s.committed || n.committed == s.committed.Put(o.key, None)
    ensures ReservedOk(n.reserved.m, n.heap, n.committed.m, n.nextId, n.sequence)
  {
    SubsetCard(n.reserved.m.Keys, s.reserved.m.Keys);
    assert |n.reserved.m| == |n.reserved.m.Keys| && |s.reserved.m| == |s.reserved.m.Keys|;
  }

  /** What a commit does to the maps, the queue and the heap. */
  ghost predicate Joined(s: Out, o: Outbound, n: Out) {
    var r := |s.heap|;
    && n.heap == s.heap + [o] && o.key !in s.committed.m && (o.message.DataRequest? ==> o.message.id == o.key)
    && n.committed == PutIf(o.Confirmable(), s.committed, o.key, None)
    && n.byOperation == PutIf(o.Confirmable(), s.byOperation, o.key, r)
    && n.pendingData == PutIf(o.message.DataRequest?, s.pendingData, o.key, r)
    && n.responses == PutIf(o.message.ResourceOperation?, s.responses, o.key, r)
    && n.sending == s.sending
  }

  lemma JoinedHeld(s: Out, o: Outbound, n: Out)
    requires Joined(s, o, n)
    ensures forall k :: Held(s.committed.m, k) ==> Held(n.committed.m, k) && k != o.key
    ensures o.Confirmable() ==> Held(n.committed.m, o.key)
  {
  }

  ghost predicate OwnKeys(heap: seq<Outbound>, m: map<OpId, nat>, committed: map<OpId, Option<nat>>) {
    forall k :: k in m ==> m[k] < |heap| && heap[m[k]].key == k && Held(committed, k)
  }

  /** An entry of a grown map is the new message under its own key, or an old entry. */
  lemma JoinedOwns(heap: seq<Outbound>, m: Table<OpId, nat>, committed: map<OpId, Option<nat>>, o: Outbound, here: bool,
                   later: map<OpId, Option<nat>>)
    requires OwnKeys(heap, m.m, committed) && o.key !in m.m && (here ==> Held(later, o.key))
    requires forall k :: Held(committed, k) ==> Held(later, k)
    ensures var n := PutIf(here, m, o.key, |heap|);
            && OwnKeys(heap + [o], n.m, later)
            && (forall k :: k in n.m <==> k in m.m || (here && k == o.key))
            && (forall k :: k in n.m ==> n.m[k] == if k == o.key then |heap| else m.m[k])
            && (forall k :: k in n.m ==> (heap + [o])[n.m[k]] == if k == o.key then o else heap[m.m[k]])
  {
    hide Held;
  }

  lemma CommitOperations(s: Out, o: Outbound, n: Out)
    requires Joined(s, o, n)
    requires OwnersOk(s.heap, s.byOperation.m, s.pendingData.m, s.responses.m, s.committed.m)
    ensures forall k :: k in n.byOperation.m ==>
              n.byOperation.m[k] < |n.heap| && n.heap[n.byOperation.m[k]].key == k
              && n.heap[n.byOperation.m[k]].Confirmable() && Held(n.committed.m, k)
  {
    hide Held, NeedsConfirmation;
    JoinedHeld(s, o, n);
    JoinedOwns(s.heap, s.byOperation, s.committed.m, o, o.Confirmable(), n.committed.m);
  }

  lemma CommitRequests(s: Out, o: Outbound, n: Out)
    requires Joined(s, o, n)
    requires OwnersOk(s.heap, s.byOperation.m, s.pendingData.m, s.responses.m, s.committed.m)
    ensures forall k :: k in n.pendingData.m ==>
              n.pendingData.m[k] < |n.heap| && n.heap[n.pendingData.m[k]].key == k
              && n.heap[n.pendingData.m[k]].message.DataRequest? && n.heap[n.pendingData.m[k]].message.id == k
              && Held(n.committed.m, k)
  {
    hide Held;
    JoinedHeld(s, o, n);
    assert o.message.DataRequest? ==> o.Confirmable();
    JoinedOwns(s.heap, s.pendingData, s.committed.m, o, o.message.DataRequest?, n.committed.m);
  }

  lemma CommitResponses(s: Out, o: Outbound, n: Out)
    requires Joined(s, o, n)
    requires OwnersOk(s.heap, s.byOperation.m, s.pendingData.m, s.responses.m, s.committed.m)
    ensures forall k :: k in n.responses.m ==>
              n.responses.m[k] < |n.heap| && n.heap[n.responses.m[k]].key == k
              && n.heap[n.responses.m[k]].message.ResourceOperation? && Held(n.committed.m, k)
  {
    hide Held;
    JoinedHeld(s, o, n);
    assert o.message.ResourceOperation? ==> o.Confirmable();
    JoinedOwns(s.heap, s.responses, s.committed.m, o, o.message.ResourceOperation?, n.committed.m);
  }

  lemma CommitOwnersOk(s: Out, o: Outbound, n: Out)
    requires Joined(s, o, n)
    requires OwnersOk(s.heap, s.byOperation.m, s.pendingData.m, s.responses.m, s.committed.m)
    ensures OwnersOk(n.heap, n.byOperation.m, n.pendingData.m, n.responses.m, n.committed.m)
  {
    hide Held, Joined;
    CommitOperations(s, o, n);
    CommitRequests(s, o, n);
    CommitResponses(s, o, n);
  }

  lemma CommitAgree(s: Out, o: Outbound, n: Out)
    requires Joined(s, o, n) && OwnersOk(s.heap, s.byOperation.m, s.pendingData.m, s.responses.m, s.committed.m)
    requires AgreeOk(s.heap, s.byOperation.m, s.pendingData.m, s.responses.m)
    ensures AgreeOk(n.heap, n.byOperation.m, n.pendingData.m, n.responses.m)
  {
    JoinedHeld(s, o, n);
    hide Held;
  }

  lemma CommitMaps(s: Out, o: Outbound, n: Out)
    requires Joined(s, o, n)
    requires MapsOk(s.heap, s.byOperation.m, s.pendingData.m, s.responses.m, s.committed.m)
    ensures MapsOk(n.heap, n.byOperation.m, n.pendingData.m, n.responses.m, n.committed.m)
  {
    hide Joined, OwnersOk, AgreeOk;
    CommitOwnersOk(s, o, n);
    CommitAgree(s, o, n);
  }

  lemma CommitFences(s: Out, o: Outbound, n: Out)
    requires Joined(s, o, n)
    requires SendingFenced(s.sending, s.heap, s.byOperation.m, s.pendingData.m, s.responses.m, s.committed.m)
    ensures SendingFenced(n.sending, n.heap, n.byOperation.m, n.pendingData.m, n.responses.m, n.committed.m)
  {
  }

  lemma CommitLock(s: Out, o: Outbound, n: Out)
    requires Joined(s, o, n) && n.lock == s.lock
    requires MapsOk(s.heap, s.byOperation.m, s.pendingData.m, s.responses.m, s.committed.m)
    requires LockHeld(s.lock, s.heap, s.byOperation.m)
    ensures LockHeld(n.lock, n.heap, n.byOperation.m)
  {
    if s.lock.Some? {
      var k :| k in s.byOperation.m && s.byOperation.m[k] < |s.heap| && s.heap[s.byOperation.m[k]].IsObject()
               && s.heap[s.byOperation.m[k]].msgId == s.lock.value;
      assert Held(s.committed.m, k) && k in n.byOperation.m && n.byOperation.m[k] == s.byOperation.m[k];
    }
  }

  lemma CommitQueue(s: Out, o: Outbound, n: Out, previous: Option<nat>)
    requires Joined(s, o, n) && n.queue == RemoveFrom(s.queue, previous) + [|s.heap|]
    requires MapsOk(s.heap, s.byOperation.m, s.pendingData.m, s.responses.m, s.committed.m)
    requires QueueOk(s.queue, s.heap, s.byOperation.m) && SendingShape(s.sending, s.queue, s.heap, s.now) && n.now == s.now
    ensures QueueOk(n.queue, n.heap, n.byOperation.m) && SendingShape(n.sending, n.queue, n.heap, n.now)
  {
    var rest := RemoveFrom(s.queue, previous);
    if previous.Some? {
      WithoutNoDup(s.queue, previous.value);
    }
    assert forall x :: x in n.queue <==> x in rest || x == |s.heap|;
    assert forall i :: 0 <= i < |rest| ==> rest[i] in rest && n.queue[i] == rest[i];
    forall r | r in n.queue && n.heap[r].Confirmable()
      ensures n.heap[r].key in n.byOperation.m && n.byOperation.m[n.heap[r].key] == r
    {
      if r < |s.heap| {
        assert r in s.queue && Held(s.committed.m, s.heap[r].key);
      }
    }
  }

  lemma CommitOwners(s: Out, o: Outbound, n: Out)
    requires Joined(s, o, n)
    requires MapsOk(s.heap, s.byOperation.m, s.pendingData.m, s.responses.m, s.committed.m)
    ensures s.byOperation.m.Values <= n.byOperation.m.Values && Awaiting(s) <= Awaiting(n)
    ensures n.byOperation.m.Values <= s.byOperation.m.Values + {|s.heap|} && Awaiting(n) <= Awaiting(s) + {|s.heap|}
    ensures !o.Confirmable() ==> Awaiting(n) == Awaiting(s) && n.byOperation.m.Values == s.byOperation.m.Values
  {
    assert !Held(s.committed.m, o.key);
    forall k | k in s.byOperation.m ensures k in n.byOperation.m && n.byOperation.m[k] == s.byOperation.m[k] {}
    forall k | k in s.pendingData.m ensures k in n.pendingData.m && n.pendingData.m[k] == s.pendingData.m[k] {}
    forall k | k in s.responses.m ensures k in n.responses.m && n.responses.m[k] == s.responses.m[k] {}
  }

  lemma CommitMoving(s: Out, o: Outbound, order: nat, n: Out, previous: Option<nat>)
    requires Joined(s, o, n) && n.queue == RemoveFrom(s.queue, previous) + [|s.heap|]
    requires previous.Some? ==> previous.value !in s.byOperation.m.Values
    requires MapsOk(s.heap, s.byOperation.m, s.pendingData.m, s.responses.m, s.committed.m)
    requires ProgressOk(s.heap, s.progress, s.nextOrder)
    requires n.progress == s.progress + [Progress(AllChunks(o.frames), false, order, NoRetry, o.Confirmable())]
    requires NoneForgotten(s.progress, s.queue, s.sending, s.byOperation.m, s.pendingData.m, s.responses.m)
    ensures NoneForgotten(n.progress, n.queue, n.sending, n.byOperation.m, n.pendingData.m, n.responses.m)
  {
    CommitOwners(s, o, n);
    CommitDeadlines(s, o, order, n);
    forall k | k in n.byOperation.m
      ensures n.byOperation.m[k] < |n.progress| && n.progress[n.byOperation.m[k]].deadline
      ensures Moving(n.byOperation.m[k], n.progress, n.queue, n.sending)
    {
      if n.byOperation.m[k] < |s.heap| {
        assert Moving(s.byOperation.m[k], s.progress, s.queue, s.sending);
      } else {
        assert n.byOperation.m[k] in n.queue;
      }
    }
  }

  lemma CommitDeadlines(s: Out, o: Outbound, order: nat, n: Out)
    requires Joined(s, o, n) && |s.progress| == |s.heap|
    requires n.progress == s.progress + [Progress(AllChunks(o.frames), false, order, NoRetry, o.Confirmable())]
    requires MapsOk(s.heap, s.byOperation.m, s.pendingData.m, s.responses.m, s.committed.m)
    requires forall x :: 0 <= x < |s.progress| && s.progress[x].deadline ==> x in Awaiting(s)
    ensures forall x :: 0 <= x < |n.progress| && n.progress[x].deadline ==> x in Awaiting(n)
  {
    CommitOwners(s, o, n);
    forall x | 0 <= x < |n.progress| && n.progress[x].deadline
      ensures x in Awaiting(n)
    {
      if x < |s.heap| {
        assert x in Awaiting(s);
      } else {
        assert n.byOperation.m[o.key] == x;
      }
    }
  }

  lemma CommitTimers(s: Out, o: Outbound, order: nat, n: Out, previous: Option<nat>)
    requires Joined(s, o, n) && n.queue == RemoveFrom(s.queue, previous) + [|s.heap|] && o.frames > 0
    requires MapsOk(s.heap, s.byOperation.m, s.pendingData.m, s.responses.m, s.committed.m)
    requires ProgressOk(s.heap, s.progress, s.nextOrder) && SendingShape(s.sending, s.queue, s.heap, s.now)
    requires n.progress == s.progress + [Progress(AllChunks(o.frames), false, order, NoRetry, o.Confirmable())]
    requires TimersOk(s.progress, s.queue, s.sending, s.byOperation.m)
    ensures TimersOk(n.progress, n.queue, n.sending, n.byOperation.m)
  {
    CommitOwners(s, o, n);
    hide MapsOk, NeedsConfirmation;
  }

  lemma CommitShape(s: Out, o: Outbound, order: nat, replacesFailed: bool)
    requires o.key !in s.committed.m && (o.message.DataRequest? ==> o.message.id == o.key)
    ensures var n := Commit(s, o, order, replacesFailed);
            && Joined(s, o, n) && n.lock == s.lock && n.now == s.now && n.nextId == s.nextId && n.nextOrder == s.nextOrder
            && n.sequence == Max(s.sequence, o.sequence) && n.reserved == s.reserved.Drop(o.key) && n.cfg == s.cfg
            && n.queue == RemoveFrom(s.queue, Replaceable(s, o.message)) + [|s.heap|]
            && n.progress == s.progress + [Progress(AllChunks(o.frames), false, order, NoRetry, o.Confirmable())]
            && n.requested == s.requested && n.paused == s.paused && n.stopped == s.stopped && n.expiries == s.expiries
            && n.blocked == s.blocked && n.wakeAt == s.wakeAt
  {
    hide Replaceable, RemoveFrom, PutIf, ResultsAfter;
  }

  lemma CommitExpiries(s: Out, o: Outbound, n: Out)
    requires Joined(s, o, n) && n.expiries == s.expiries && n.now == s.now && ExpiriesOk(s.committed.m, s.expiries, s.now)
    ensures ExpiriesOk(n.committed.m, n.expiries, n.now)
  {
  }

  lemma BestEffortUntracked(s: Out, m: Message)
    requires Linked(s)
    ensures Replaceable(s, m).Some? ==>
              && Replaceable(s, m).value in s.queue && Replaceable(s, m).value !in s.byOperation.m.Values
              && Replaceable(s, m).value !in Active(s)
  {
    ReplaceableIdle(s, m);
    hide HeapOk, ReservedOk, SendingFenced, LockHeld, NoneForgotten, TimersOk, ExpiriesOk, WakeOk, FlagsOk, Replaceable;
  }

  lemma CommitLinked(s: Out, o: Outbound, order: nat, replacesFailed: bool)
    requires Linked(s) && Fresh(o, s.heap, s.reserved.m, s.committed.m, s.nextId) && order < s.nextOrder
    ensures Linked(Commit(s, o, order, replacesFailed))
  {
    var n := Commit(s, o, order, replacesFailed);
    var previous := Replaceable(s, o.message);
    CommitShape(s, o, order, replacesFailed);
    BestEffortUntracked(s, o.message);
    hide Replaceable, Commit, RemoveFrom, Joined, Fresh;
    hide HeapOk, ProgressOk, ReservedOk, MapsOk, QueueOk, SendingShape, SendingFenced, LockHeld, NoneForgotten, TimersOk, ExpiriesOk;
    CommitHeap(s, o, n);
    CommitProgress(s, o, order, n);
    FreshReserved(s, o, n);
    CommitMaps(s, o, n);
    CommitFences(s, o, n);
    CommitLock(s, o, n);
    CommitQueue(s, o, n, previous);
    CommitMoving(s, o, order, n, previous);
    assert o.frames > 0 by { FreshFrames(s, o); }
    CommitTimers(s, o, order, n, previous);
    CommitExpiries(s, o, n);
  }

  lemma FreshFrames(s: Out, o: Outbound)
    requires Fresh(o, s.heap, s.reserved.m, s.committed.m, s.nextId)
    ensures o.frames > 0
  {
  }

  lemma FreshReserved(s: Out, o: Outbound, n: Out)
    requires ReservedOk(s.reserved.m, s.heap, s.committed.m, s.nextId, s.sequence) && Joined(s, o, n)
    requires Fresh(o, s.heap, s.reserved.m, s.committed.m, s.nextId)
    requires n.nextId == s.nextId && n.sequence == Max(s.sequence, o.sequence) && n.reserved == s.reserved.Drop(o.key)
    ensures ReservedOk(n.reserved.m, n.heap, n.committed.m, n.nextId, n.sequence)
  {
    CommitReserved(s, o, n);
  }

  lemma JoinedTracked(s: Out, o: Outbound, n: Out)
    requires Joined(s, o, n) && o.Confirmable()
    ensures |s.heap| in n.byOperation.m.Values
  {
    assert n.byOperation.m[o.key] == |s.heap|;
  }

  lemma OneMore(a: set<nat>, b: set<nat>, x: nat)
    requires a <= b <= a + {x} && x in b && x !in a
    ensures |b| == |a| + 1
  {
    assert b == a + {x};
  }

  lemma OneLess(a: set<nat>, b: set<nat>, x: nat)
    requires b == a - {x} && x in a
    ensures |b| == |a| - 1
  {
    assert a == b + {x};
  }

  lemma CommitAwaiting(s: Out, o: Outbound, n: Out)
    requires Joined(s, o, n) && |s.heap| !in Awaiting(s)
    requires MapsOk(s.heap, s.byOperation.m, s.pendingData.m, s.responses.m, s.committed.m)
    ensures |Awaiting(n)| == |Awaiting(s)| + (if o.Confirmable() then 1 else 0)
  {
    CommitOwners(s, o, n);
    if o.Confirmable() {
      JoinedTracked(s, o, n);
      assert |s.heap| in Awaiting(n);
      hide MapsOk, Joined, AwaitedBy, NeedsConfirmation;
      OneMore(Awaiting(s), Awaiting(n), |s.heap|);
    }
  }

  lemma OccupiedMembers(s: Out, n: Out, r: nat, previous: Option<nat>)
    requires n.queue == RemoveFrom(s.queue, previous) + [r] && n.sending == s.sending
    requires s.byOperation.m.Values <= n.byOperation.m.Values <= s.byOperation.m.Values + {r}
    requires previous.Some? ==> previous.value !in s.byOperation.m.Values && previous.value !in Active(s)
    ensures forall x :: x in Occupied(n) <==> x == r || (x in Occupied(s) && Some(x) != previous)
  {
    assert forall x :: x in n.queue <==> x in RemoveFrom(s.queue, previous) || x == r;
  }

  lemma QueuedOccupied(s: Out, r: nat)
    requires r in s.queue
    ensures r in Occupied(s)
  {
  }

  lemma OccupiedAfter(s: Out, n: Out, r: nat, previous: Option<nat>)
    requires n.queue == RemoveFrom(s.queue, previous) + [r] && n.sending == s.sending
    requires s.byOperation.m.Values <= n.byOperation.m.Values <= s.byOperation.m.Values + {r}
    requires r !in Occupied(s)
    requires previous.Some? ==> previous.value in s.queue && previous.value !in s.byOperation.m.Values && previous.value !in Active(s)
    ensures |Occupied(n)| == |Occupied(s)| + 1 - (if previous.Some? then 1 else 0)
  {
    hide OccupiedBy, RemoveFrom;
    OccupiedMembers(s, n, r, previous);
    if previous.Some? { QueuedOccupied(s, previous.value); }
    if previous.Some? {
      var rest := Occupied(s) - {previous.value};
      OneLess(Occupied(s), rest, previous.value);
      OneMore(rest, Occupied(n), r);
    } else {
      OneMore(Occupied(s), Occupied(n), r);
    }
  }

  /** A commit adds exactly one message to the queue and takes the replaced one out. */
  lemma CommitOccupies(s: Out, o: Outbound, order: nat, replacesFailed: bool)
    requires Linked(s) && Fresh(o, s.heap, s.reserved.m, s.committed.m, s.nextId)
    ensures var n := Commit(s, o, order, replacesFailed);
            && |Occupied(n)| + Replaced(s, o) == |Occupied(s)| + 1
            && |Awaiting(n)| == |Awaiting(s)| + (if o.Confirmable() then 1 else 0)
            && |n.committed.m| == |s.committed.m| + (if o.Confirmable() then 1 else 0)
  {
    var n := Commit(s, o, order, replacesFailed);
    CommitShape(s, o, order, replacesFailed);
    BestEffortUntracked(s, o.message);
    CommitRange(s);
    CommitMapsFact(s);
    hide Linked, Commit, Replaceable, Fresh, Joined, NeedsConfirmation, OccupiedBy, AwaitedBy, MapsOk;
    CommitOwners(s, o, n);
    CommitCommitted(s, o, n);
    CommitAwaiting(s, o, n);
    assert n.sending == s.sending by { JoinedSending(s, o, n); }
    OccupiedAfter(s, n, |s.heap|, Replaceable(s, o.message));
  }

  lemma JoinedSending(s: Out, o: Outbound, n: Out)
    requires Joined(s, o, n)
    ensures n.sending == s.sending
  {
  }

  lemma CommitRange(s: Out)
    requires Linked(s)
    ensures |s.heap| !in Occupied(s) && |s.heap| !in Awaiting(s)
  {
    hide HeapOk, ReservedOk, SendingFenced, LockHeld, NoneForgotten, TimersOk, ExpiriesOk, WakeOk, FlagsOk;
  }

  lemma CommitMapsFact(s: Out)
    requires Linked(s)
    ensures MapsOk(s.heap, s.byOperation.m, s.pendingData.m, s.responses.m, s.committed.m)
  {
  }

  lemma CommitCommitted(s: Out, o: Outbound, n: Out)
    requires Joined(s, o, n)
    ensures |n.committed.m| == |s.committed.m| + (if o.Confirmable() then 1 else 0)
  {
    if o.Confirmable() {
      assert n.committed.m.Keys == s.committed.m.Keys + {o.key};
      assert |n.committed.m| == |n.committed.m.Keys| && |s.committed.m| == |s.committed.m.Keys|;
    }
  }

  // ----- admission --------------------------------------------------------------------------------

  lemma CountersKeep(s: Out, nextOrder: nat, nextId: nat, sequence: nat)
    requires Inv(s) && s.nextOrder <= nextOrder && s.nextId <= nextId && s.sequence <= sequence
    ensures Inv(s.(nextOrder := nextOrder, nextId := nextId, sequence := sequence))
  {
    hide Consistent, WithinLimits, Awake;
    var n := s.(nextOrder := nextOrder, nextId := nextId, sequence := sequence);
    OrderKeeps(s, nextOrder, nextId, sequence);
    LimitsSame(s, n);
    AwakeSame(s, n);
  }

  /** The sequence number and message identity a submission may use. */
  ghost predicate MayUse(s: Out, m: Message, op: OpId, sequence: nat, held: Option<Reservation>) {
    match held
    case None => sequence > s.sequence
    case Some(h) => op in s.reserved.m && s.reserved.m[op] == h && h.sequence == sequence && h.message == m
  }

  /** What admission establishes before a message is committed. */
  ghost predicate Admitted(n: Out, o: Outbound, order: nat, useReservation: bool, capacity: Capacity, pendingInbound: nat) {
    && !n.stopped && order < n.nextOrder
    && Fresh(o, n.heap, n.reserved.m, n.committed.m, n.nextId)
    && (o.Confirmable() ==>
          && o.dest.Some?
          && |n.committed.m| + capacity.additionalConfirmed <= COMMITTED_OPERATION_ID_LIMIT
          && |Awaiting(n)| + capacity.additionalConfirmed <= n.cfg.confirmedLimit)
    && (if useReservation then |Occupied(n)| < n.cfg.queueLimit + n.cfg.confirmedLimit
        else |Occupied(n)| + capacity.additionalOutbound - Replaced(n, o) + pendingInbound + capacity.pendingDelta
             <= n.cfg.queueLimit)
  }

  lemma FreshDrawn(s: Out, o: Outbound)
    requires Linked(s) && o.frames > 0 && o.key !in s.committed.m && (o.message.DataRequest? ==> o.message.id == o.key)
    requires o.msgId == s.nextId && o.sequence > s.sequence
    ensures Fresh(o, s.heap, s.reserved.m, s.committed.m, s.nextId + 1)
  {
    hide MapsOk, QueueOk, SendingShape, SendingFenced, LockHeld, NoneForgotten, TimersOk, ExpiriesOk, WakeOk, FlagsOk;
  }

  lemma FreshReservation(s: Out, o: Outbound)
    requires Linked(s) && o.frames > 0 && (o.message.DataRequest? ==> o.message.id == o.key)
    requires o.key in s.reserved.m && s.reserved.m[o.key].msgId == o.msgId && s.reserved.m[o.key].sequence == o.sequence
    ensures Fresh(o, s.heap, s.reserved.m, s.committed.m, s.nextId)
  {
    hide MapsOk, QueueOk, SendingShape, SendingFenced, LockHeld, NoneForgotten, TimersOk, ExpiriesOk, WakeOk, FlagsOk;
  }

  lemma SameReplaced(s: Out, n: Out, m: Message)
    requires n.queue == s.queue && n.heap == s.heap && n.progress == s.progress
    ensures Replaceable(n, m) == Replaceable(s, m)
  {
    if m.State? {
      SameCoalescable(s, n, s.queue, m.resource);
    }
  }

  lemma {:induction false} SameCoalescable(s: Out, n: Out, q: seq<nat>, resource: string)
    requires n.heap == s.heap && n.progress == s.progress
    ensures Coalescable(n, q, resource) == Coalescable(s, q, resource)
  {
    if q != [] {
      SameCoalescable(s, n, q[..|q| - 1], resource);
    }
  }

  /** What preparing may change. */
  ghost predicate Prepares(s: Out, n: Out) {
    && n == s.(expiries := n.expiries, committed := n.committed, blocked := n.blocked, wakeAt := n.wakeAt,
               nextId := n.nextId, nextOrder := n.nextOrder)
    && n.nextId >= s.nextId && n.nextOrder >= s.nextOrder
    && (forall k :: k in n.committed.m ==> k in s.committed.m && n.committed.m[k] == s.committed.m[k])
  }

  lemma AdmitInv(s: Out, m: Message, dest: Option<Node>, op: OpId, useReservation: bool, capacity: Capacity,
                 sequence: nat, held: Option<Reservation>, pendingInbound: nat, frames: nat)
    requires Inv(s) && !s.stopped
    ensures var n := Admit(s, m, dest, op, useReservation, capacity, sequence, held, pendingInbound, frames).0;
            Inv(n) && Prepares(s, n)
  {
    hide Consistent, WithinLimits, Awake, Admit, ScheduleWake, OccupiedBy, AwaitedBy;
    var n := Admit(s, m, dest, op, useReservation, capacity, sequence, held, pendingInbound, frames).0;
    AdmitShape(s, m, dest, op, useReservation, capacity, sequence, held, pendingInbound, frames);
    BlockKeeps(s);
    WakeShape(s);
    CountersKeep(s, n.nextOrder, n.nextId, s.sequence);
  }

  lemma AdmitShape(s: Out, m: Message, dest: Option<Node>, op: OpId, useReservation: bool, capacity: Capacity,
                   sequence: nat, held: Option<Reservation>, pendingInbound: nat, frames: nat)
    ensures var n := Admit(s, m, dest, op, useReservation, capacity, sequence, held, pendingInbound, frames).0;
            || n == ScheduleWake(s.(blocked := true))
            || (n == s.(nextOrder := n.nextOrder, nextId := n.nextId, sequence := s.sequence)
                && n.nextOrder >= s.nextOrder && n.nextId >= s.nextId)
  {
    hide QueueFull, ScheduleWake, Awaiting, NeedsConfirmation;
  }

  lemma AdmitReady(s: Out, m: Message, dest: Option<Node>, op: OpId, useReservation: bool, capacity: Capacity,
                   sequence: nat, held: Option<Reservation>, pendingInbound: nat, frames: nat)
    requires Linked(s) && !s.stopped && MayUse(s, m, op, sequence, held)
    requires (NeedsConfirmation(m) ==> dest.Some?) && (m.DataRequest? ==> m.id == op)
    ensures var (n, p) := Admit(s, m, dest, op, useReservation, capacity, sequence, held, pendingInbound, frames);
            && (p.Ready? ==>
                  && Admitted(n, p.outbound, p.order, useReservation, capacity, pendingInbound)
                  && p.outbound == Outbound(m, op, p.outbound.msgId, sequence, dest, frames)
                  && (p.replacesFailed ==> op in s.results.m && s.results.m[op] == Failed)
                  && (held.None? ==> op !in n.reserved.m && p.outbound.msgId == s.nextId))
            && (p.Existing? ==> op in s.results.m && s.results.m[op] == p.status)
  {
    var (n, p) := Admit(s, m, dest, op, useReservation, capacity, sequence, held, pendingInbound, frames);
    hide Linked, Fresh, OccupiedBy, AwaitedBy, Replaceable, ScheduleWake, NeedsConfirmation;
    if p.Ready? {
      SameReplaced(s, n, m);
      if held.None? {
        FreshDrawn(s, p.outbound);
      } else {
        FreshReservation(s, p.outbound);
      }
    }
  }

  lemma PrepareKeeps(s: Out, m: Message, dest: Option<Node>, op: OpId, useReservation: bool, capacity: Capacity,
                     sequence: nat, held: Option<Reservation>, pendingInbound: nat, frames: nat)
    requires Inv(s) && MayUse(s, m, op, sequence, held)
    ensures var (n, p) := Prepare(s, m, dest, op, useReservation, capacity, sequence, held, pendingInbound, frames);
            && Inv(n) && Prepares(s, n)
            && (p.Ready? ==>
                  && Admitted(n, p.outbound, p.order, useReservation, capacity, pendingInbound)
                  && p.outbound == Outbound(m, op, p.outbound.msgId, sequence, dest, frames)
                  && (p.replacesFailed ==> op in s.results.m && s.results.m[op] == Failed)
                  && (held.None? ==> op !in n.reserved.m && p.outbound.msgId == s.nextId))
            && (p.Existing? ==> op in s.results.m && s.results.m[op] == p.status)
  {
    hide Linked, StoppedOk, WithinLimits, Awake, Prune, Admit, Admitted, NeedsConfirmation;
    PruneKeeps(s);
    var pruned := Prune(s);
    if !s.stopped {
      AdmitInv(pruned, m, dest, op, useReservation, capacity, sequence, held, pendingInbound, frames);
      if (NeedsConfirmation(m) ==> dest.Some?) && (m.DataRequest? ==> m.id == op) {
        AdmitReady(pruned, m, dest, op, useReservation, capacity, sequence, held, pendingInbound, frames);
      }
    }
  }

  lemma WakeShape(s: Out)
    ensures var n := ScheduleWake(s.(blocked := true)); n == s.(blocked := true, wakeAt := n.wakeAt)
  {
  }

  // ----- submitting -------------------------------------------------------------------------------

  lemma CommitStops(s: Out, o: Outbound, order: nat, replacesFailed: bool)
    requires !s.stopped
    ensures var n := Commit(s, o, order, replacesFailed);
            !n.stopped && StoppedOk(n.stopped, n.queue, n.byOperation.m, n.pendingData.m, n.responses.m)
  {
  }

  lemma RecordKeeps(s: Out, op: OpId, status: Status)
    ensures Consistent(s) ==> Consistent(Record(s, op, status))
    ensures WithinLimits(s) ==> WithinLimits(Record(s, op, status))
    ensures Awake(s) ==> Awake(Record(s, op, status))
  {
    hide Consistent, WithinLimits, Awake;
    var n := Record(s, op, status);
    if Consistent(s) {
      ResultsKeep(s, n.results);
    }
    if WithinLimits(s) {
      LimitsSame(s, n);
    }
    if Awake(s) {
      AwakeSame(s, n);
    }
  }

  lemma RequestAll(s: Out)
    requires Consistent(s) && WithinLimits(s)
    ensures Inv(RequestPump(s))
  {
    hide Consistent, WithinLimits, Awake;
    RequestKeeps(s);
    ShrinkKeepsLimits(s, RequestPump(s));
  }

  lemma CommitInv(s: Out, o: Outbound, order: nat, replacesFailed: bool, useReservation: bool, pendingInbound: nat)
    requires Inv(s) && Admitted(s, o, order, useReservation, DefaultCapacity(o.message), pendingInbound)
    ensures var n := Commit(s, o, order, replacesFailed); Consistent(n) && WithinLimits(n)
  {
    hide Linked, Commit, StoppedOk, Fresh, NeedsConfirmation, Awake;
    CommitLinked(s, o, order, replacesFailed);
    CommitOccupies(s, o, order, replacesFailed);
    CommitStops(s, o, order, replacesFailed);
    CommitConfig(s, o, order, replacesFailed);
  }

  lemma CommitConfig(s: Out, o: Outbound, order: nat, replacesFailed: bool)
    ensures Commit(s, o, order, replacesFailed).cfg == s.cfg
  {
  }

  /** Every submission keeps the invariant; the message is queued exactly when the caller is told so. */
  lemma SubmitPreparedKeeps(s: Out, p: Prepared, op: OpId, useReservation: bool, pendingInbound: nat)
    requires Inv(s)
    requires p.Ready? ==> Admitted(s, p.outbound, p.order, useReservation, DefaultCapacity(p.outbound.message), pendingInbound)
    ensures Inv(SubmitPrepared(s, op, p).0)
  {
    hide Consistent, WithinLimits, Awake, Commit, Admitted;
    if p.Ready? {
      var n := Commit(s, p.outbound, p.order, p.replacesFailed);
      CommitInv(s, p.outbound, p.order, p.replacesFailed, useReservation, pendingInbound);
      RecordKeeps(n, op, Queued);
      RequestAll(Record(n, op, Queued));
    } else {
      RecordKeeps(s, op, Failed);
    }
  }

  lemma SubmitKeeps(s: Out, m: Message, dest: Option<Node>, op: OpId, useReservation: bool, pendingInbound: nat, frames: nat)
    requires Inv(s)
    ensures Inv(Submit(s, m, dest, op, useReservation, pendingInbound, frames).0)
  {
    hide Inv, Prepare, SubmitPrepared, Admitted;
    PrepareKeeps(s, m, dest, op, useReservation, DefaultCapacity(m), s.sequence + 1, None, pendingInbound, frames);
    var (n, p) := Prepare(s, m, dest, op, useReservation, DefaultCapacity(m), s.sequence + 1, None, pendingInbound, frames);
    SubmitPreparedKeeps(n, p, op, useReservation, pendingInbound);
  }

  lemma NextIdKeeps(s: Out)
    requires Inv(s)
    ensures Inv(s.(nextId := s.nextId + 1))
  {
    hide Inv;
    CountersKeep(s, s.nextOrder, s.nextId + 1, s.sequence);
    assert s.(nextId := s.nextId + 1) == s.(nextOrder := s.nextOrder, nextId := s.nextId + 1, sequence := s.sequence);
  }

  lemma SendControlKeeps(s: Out, c: ControlKind, dest: Node, useReservation: bool, pendingInbound: nat, frames: nat)
    requires Inv(s)
    ensures Inv(SendControl(s, c, dest, useReservation, pendingInbound, frames).0)
  {
    hide Inv, Submit;
    NextIdKeeps(s);
    SubmitKeeps(s.(nextId := s.nextId + 1), Control(c), Some(dest), Drawn(s.nextId), useReservation, pendingInbound, frames);
  }

  lemma DispatchKeeps(s: Out, op: OpId, pendingInbound: nat, frames: nat)
    requires Inv(s)
    ensures Inv(DispatchReserved(s, op, pendingInbound, frames).0)
  {
    hide Inv, Prepare, SubmitPrepared, Admitted;
    if op in s.reserved.m {
      var held := s.reserved.m[op];
      var capacity := DefaultCapacity(held.message);
      PrepareKeeps(s, held.message, Some(held.dest), op, false, capacity, held.sequence, Some(held), pendingInbound, frames);
      var (n, p) := Prepare(s, held.message, Some(held.dest), op, false, capacity, held.sequence, Some(held), pendingInbound, frames);
      SubmitPreparedKeeps(n, p, op, false, pendingInbound);
    }
  }

  lemma ReservedCount(s: Table<OpId, Reservation>, op: OpId, held: Reservation)
    ensures |s.Put(op, held).m| <= |s.m| + 1
  {
    var n := s.Put(op, held).m;
    assert n.Keys == s.m.Keys + {op} && |n| == |n.Keys| && |s.m| == |s.m.Keys|;
  }

  lemma ReservedKeeps(s: Out, op: OpId, held: Reservation)
    requires ReservedOk(s.reserved.m, s.heap, s.committed.m, s.nextId, s.sequence) && HeapOk(s.heap, s.nextId, s.sequence)
    requires op !in s.reserved.m && op !in s.committed.m && |s.reserved.m| < TASK_RESERVATION_LIMIT
    requires held.message.TaskDelivery? && held.sequence == s.sequence + 1 && held.msgId == s.nextId
    ensures ReservedOk(s.reserved.Put(op, held).m, s.heap, s.committed.m, s.nextId + 1, s.sequence + 1)
  {
    ReservedCount(s.reserved, op, held);
  }

  lemma ReservationsKeep(s: Out, reserved: Table<OpId, Reservation>)
    requires Inv(s) && ReservedOk(reserved.m, s.heap, s.committed.m, s.nextId, s.sequence)
    ensures Inv(s.(reserved := reserved))
  {
    var n := s.(reserved := reserved);
    hide HeapOk, ProgressOk, ReservedOk, MapsOk, QueueOk, SendingShape, SendingFenced, LockHeld, NoneForgotten, TimersOk, FlagsOk;
    hide ExpiriesOk, WakeOk, WithinLimits, Awake, StoppedOk;
    LimitsSame(s, n);
    AwakeSame(s, n);
  }

  lemma DropReserved(s: Out, op: OpId)
    requires ReservedOk(s.reserved.m, s.heap, s.committed.m, s.nextId, s.sequence)
    ensures ReservedOk(s.reserved.Drop(op).m, s.heap, s.committed.m, s.nextId, s.sequence)
  {
    var n := s.reserved.Drop(op);
    SubsetCard(n.m.Keys, s.reserved.m.Keys);
    assert |n.m| == |n.m.Keys| && |s.reserved.m| == |s.reserved.m.Keys|;
  }

  lemma DropKeeps(s: Out, op: OpId)
    requires Inv(s)
    ensures Inv(CancelReservation(s, op))
  {
    DropReserved(s, op);
    hide Inv;
    ReservationsKeep(s, s.reserved.Drop(op));
  }

  lemma ReserveKeeps(s: Out, m: Message, dest: Node, op: OpId, frames: nat)
    requires Inv(s)
    ensures Inv(Reserve(s, m, dest, op, frames).0)
  {
    hide Inv, Prune;
    if !s.stopped && m.TaskDelivery? {
      NextIdKeeps(s);
      PruneKeeps(s.(nextId := s.nextId + 1));
      var p := Prune(s.(nextId := s.nextId + 1));
      if Reserve(s, m, dest, op, frames).1 {
        ReserveJoins(p, s, op, Reservation(m, dest, p.sequence + 1, s.nextId));
      }
    }
  }

  lemma ReserveJoins(p: Out, s: Out, op: OpId, held: Reservation)
    requires Inv(p) && Inv(s) && Pruned(s.(nextId := s.nextId + 1), p)
    requires op !in p.reserved.m && op !in p.committed.m && |p.reserved.m| < TASK_RESERVATION_LIMIT
    requires held.message.TaskDelivery? && held.sequence == p.sequence + 1 && held.msgId == s.nextId
    ensures Inv(p.(sequence := p.sequence + 1, reserved := p.reserved.Put(op, held)))
  {
    hide Inv, ReservedOk;
    ReserveBefore(p, s);
    ReservedKeeps(p.(nextId := s.nextId), op, held);
    CountersKeep(p, p.nextOrder, p.nextId, p.sequence + 1);
    var counted := p.(nextOrder := p.nextOrder, nextId := p.nextId, sequence := p.sequence + 1);
    ReservationsKeep(counted, p.reserved.Put(op, held));
    assert counted.(reserved := p.reserved.Put(op, held)) == p.(sequence := p.sequence + 1, reserved := p.reserved.Put(op, held));
  }

  lemma ReserveBefore(p: Out, s: Out)
    requires Inv(s) && Pruned(s.(nextId := s.nextId + 1), p)
    ensures ReservedOk(p.reserved.m, p.heap, p.committed.m, s.nextId, p.sequence) && HeapOk(p.heap, s.nextId, p.sequence)
  {
    hide ProgressOk, MapsOk, QueueOk, SendingShape, SendingFenced, LockHeld, NoneForgotten, TimersOk, FlagsOk, ExpiriesOk, WakeOk;
    hide OccupiedBy, AwaitedBy, AnyMayGo, StoppedOk;
  }

  // ----- the atomic Task settlement -----------------------------------------------------------------

  /** A prepared message stays admissible while another one is prepared. */
  lemma StaysFresh(s: Out, n: Out, o: Outbound)
    requires Fresh(o, s.heap, s.reserved.m, s.committed.m, s.nextId) && Prepares(s, n)
    ensures Fresh(o, n.heap, n.reserved.m, n.committed.m, n.nextId)
  {
  }

  lemma FreshBeside(s: Out, n: Out, first: Outbound, second: Outbound)
    requires Fresh(second, s.heap, s.reserved.m, s.committed.m, s.nextId)
    requires Joined(s, first, n) && n.nextId == s.nextId && n.reserved == s.reserved.Drop(first.key)
    requires !first.Confirmable() && first.msgId != second.msgId && first.sequence != second.sequence
    ensures Fresh(second, n.heap, n.reserved.m, n.committed.m, n.nextId)
  {
  }

  /** Two messages admitted together still fit when both are committed. */
  lemma BothCommit(s: Out, first: Outbound, i: nat, rf: bool, second: Outbound, j: nat, rs: bool, pendingInbound: nat)
    requires Inv(s) && !s.stopped && pendingInbound > 0
    requires Fresh(first, s.heap, s.reserved.m, s.committed.m, s.nextId) && i < s.nextOrder && first.message.Control?
    requires Admitted(s, second, j, false, REPORT_CAPACITY, pendingInbound) && second.message.TaskReport?
    requires first.msgId != second.msgId && first.sequence != second.sequence
    ensures var n := Commit(Commit(s, first, i, rf), second, j, rs);
            && Consistent(n) && WithinLimits(n)
            && |Occupied(n)| + pendingInbound - 1 <= n.cfg.queueLimit
  {
    hide Linked, Commit, StoppedOk, Awake, Fresh, OccupiedBy, AwaitedBy;
    var a := Commit(s, first, i, rf);
    CommitLinked(s, first, i, rf);
    CommitOccupies(s, first, i, rf);
    CommitStops(s, first, i, rf);
    FreshKey(s, first);
    CommitShape(s, first, i, rf);
    FreshBeside(s, a, first, second);
    CommitLinked(a, second, j, rs);
    CommitOccupies(a, second, j, rs);
    CommitStops(a, second, j, rs);
    CommitConfig(a, second, j, rs);
  }

  lemma FreshKey(s: Out, o: Outbound)
    requires Fresh(o, s.heap, s.reserved.m, s.committed.m, s.nextId)
    ensures o.key !in s.committed.m && (o.message.DataRequest? ==> o.message.id == o.key)
  {
  }

  /** Receipt and report are both queued or neither is, within the limits that count the settled delivery. */
  lemma SettleTogether(s: Out, receipt: ControlKind, report: Message, dest: Node, op: OpId, pendingInbound: nat,
                       receiptFrames: nat, reportFrames: nat)
    requires Inv(s) && report.TaskReport? && pendingInbound > 0
    ensures var (n, ok) := SendReceiptAndReport(s, receipt, report, dest, op, pendingInbound, receiptFrames, reportFrames);
            && Inv(n)
            && (ok ==> |n.heap| == |s.heap| + 2 && |Occupied(n)| + pendingInbound - 1 <= n.cfg.queueLimit)
            && (!ok ==> n.heap == s.heap && n.queue == s.queue && n.byOperation == s.byOperation && n.results == s.results)
  {
    hide Inv, Prepare, Commit, Fresh, OccupiedBy, AwaitedBy, RequestPump;
    NextIdKeeps(s);
    var key := Drawn(s.nextId);
    var named := s.(nextId := s.nextId + 1);
    PrepareKeeps(named, Control(receipt), Some(dest), key, false, RECEIPT_CAPACITY, s.sequence + 1, None, pendingInbound, receiptFrames);
    var (a, first) := Prepare(named, Control(receipt), Some(dest), key, false, RECEIPT_CAPACITY, s.sequence + 1, None, pendingInbound, receiptFrames);
    if first.Ready? {
      PrepareKeeps(a, report, Some(dest), op, false, REPORT_CAPACITY, s.sequence + 2, None, pendingInbound, reportFrames);
      var (b, second) := Prepare(a, report, Some(dest), op, false, REPORT_CAPACITY, s.sequence + 2, None, pendingInbound, reportFrames);
      if second.Ready? {
        StaysFresh(a, b, first.outbound);
        DrawnEarlier(a, first.outbound);
        BothCommit(b, first.outbound, first.order, first.replacesFailed, second.outbound, second.order, second.replacesFailed, pendingInbound);
        var both := Commit(Commit(b, first.outbound, first.order, first.replacesFailed), second.outbound, second.order, second.replacesFailed);
        CommitGrows(b, first.outbound, first.order, first.replacesFailed);
        CommitGrows(Commit(b, first.outbound, first.order, first.replacesFailed), second.outbound, second.order, second.replacesFailed);
        SettledRecord(both, key, op);
      }
    }
  }

  lemma DrawnEarlier(s: Out, o: Outbound)
    requires Fresh(o, s.heap, s.reserved.m, s.committed.m, s.nextId)
    ensures o.msgId < s.nextId
  {
  }

  lemma CommitGrows(s: Out, o: Outbound, order: nat, replacesFailed: bool)
    ensures Commit(s, o, order, replacesFailed).heap == s.heap + [o]
  {
  }

  lemma SettledRecord(s: Out, key: OpId, op: OpId)
    requires Consistent(s) && WithinLimits(s)
    ensures var n := RequestPump(Record(Record(s, key, Queued), op, Queued));
            Inv(n) && n.heap == s.heap && Occupied(n) == Occupied(s) && n.cfg == s.cfg
  {
    hide Consistent, WithinLimits, Awake, OccupiedBy;
    RecordKeeps(s, key, Queued);
    RecordKeeps(Record(s, key, Queued), op, Queued);
    RequestAll(Record(Record(s, key, Queued), op, Queued));
  }
}
