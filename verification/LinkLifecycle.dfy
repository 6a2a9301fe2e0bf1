/** Pausing, resuming, stopping and the passing of time. */
module LinkLifecycle {
  import opened Wrappers
  import opened LinkTypes
  import opened LinkOutbound
  import opened LinkOutboundInvariants
  import opened LinkOperations
  import opened LinkSubmission

  lemma PauseKeeps(s: Out)
    requires Inv(s)
    ensures Inv(Pause(s))
  {
    hide Consistent, WithinLimits;
    if !s.stopped {
      var held := s.(requested := false, paused := true, waiters := Pause(s).waiters);
      FlagsKeep(s, true, Pause(s).waiters);
      assert Pause(s) == held;
      LimitsSame(s, held);
    }
  }

  lemma ResumeKeeps(s: Out)
    requires Inv(s)
    ensures Inv(Resume(s))
  {
    hide Consistent, WithinLimits, AnyMayGo;
    if !s.stopped {
      var open := s.(paused := false);
      ResumeLinked(s);
      LimitsSame(s, open);
      RequestAll(open);
    }
  }

  lemma ResumeLinked(s: Out)
    requires Consistent(s)
    ensures Consistent(s.(paused := false))
  {
    hide HeapOk, ProgressOk, ReservedOk, MapsOk, QueueOk, SendingShape, SendingFenced, LockHeld, NoneForgotten, TimersOk, ExpiriesOk, WakeOk;
  }

  /** Time passes, but never past the retention of the identity the radio is working on. */
  ghost predicate MayTick(s: Out, now: nat) {
    s.now <= now && (s.sending.Some? ==> now < s.sending.value.since + RETENTION_MS)
  }

  lemma TickKeeps(s: Out, now: nat)
    requires Inv(s) && MayTick(s, now)
    ensures Inv(s.(now := now))
  {
    hide HeapOk, ProgressOk, ReservedOk, MapsOk, QueueOk, SendingFenced, LockHeld, NoneForgotten, TimersOk, FlagsOk, WakeOk, StoppedOk;
    hide WithinLimits, Awake;
    LimitsSame(s, s.(now := now));
    AwakeSame(s, s.(now := now));
  }

  // ----- stopping ---------------------------------------------------------------------------------

  /** `r` may be failed: it is a best-effort message, or its identity belongs to nobody else. */
  ghost predicate MayFail(s: Out, r: nat) { r < |s.heap| && (Get(s, r).Confirmable() ==> Sole(s, r)) }

  ghost predicate Within(m: map<OpId, nat>, n: map<OpId, nat>, gone: seq<nat>) {
    forall k :: k in n ==> k in m && n[k] == m[k] && n[k] !in gone
  }

  ghost predicate Failing(s: Out, n: Out, refs: seq<nat>) {
    && n.heap == s.heap && n.sending == s.sending && n.cfg == s.cfg && n.stopped == s.stopped && n.paused == s.paused
    && n.now == s.now && n.reserved == s.reserved && n.blocked == s.blocked
    && Within(s.byOperation.m, n.byOperation.m, refs) && Within(s.pendingData.m, n.pendingData.m, refs)
    && Within(s.responses.m, n.responses.m, refs) && (forall x :: x in n.queue ==> x in s.queue && x !in refs)
  }

  lemma DequeueLinked(s: Out, r: nat)
    requires Linked(s) && r !in s.byOperation.m.Values
    ensures Linked(Dequeue(s, r))
  {
    hide HeapOk, ProgressOk, ReservedOk, MapsOk, SendingFenced, LockHeld, FlagsOk, ExpiriesOk, WakeOk, AwaitedBy;
    WithoutNoDup(s.queue, r);
  }

  lemma ReleaseLinked(s: Out, r: nat)
    requires Linked(s)
    ensures Linked(ReleaseLock(s, r))
  {
    hide HeapOk, ProgressOk, ReservedOk, MapsOk, QueueOk, SendingShape, SendingFenced, NoneForgotten, TimersOk, ExpiriesOk, WakeOk, FlagsOk;
  }

  lemma BestEffortOwned(s: Out, r: nat)
    requires Linked(s) && r < |s.heap| && !Get(s, r).Confirmable()
    ensures r !in Awaiting(s)
  {
    hide HeapOk, ReservedOk, QueueOk, SendingShape, SendingFenced, LockHeld, NoneForgotten, TimersOk, ExpiriesOk, WakeOk, FlagsOk;
  }

  lemma FailBestEffortLinked(s: Out, r: nat)
    requires Linked(s) && WithinLimits(s) && r < |s.heap| && !Get(s, r).Confirmable()
    ensures var n := FailBestEffort(s, r);
            && Linked(n) && WithinLimits(n) && Failing(s, n, [r]) && n.requested == s.requested
  {
    hide Linked, WithinLimits, Dequeue, NeedsConfirmation;
    BestEffortOwned(s, r);
    DequeueLinked(s, r);
    DequeueShape(s, r);
    var out := Dequeue(s, r);
    ReleaseLinked(out, r);
    var n := FailBestEffort(s, r);
    ResultsLinked(ReleaseLock(out, r), n.results);
    FewerQueued(s, n);
  }

  lemma FewerQueued(s: Out, n: Out)
    requires WithinLimits(s) && (forall x :: x in n.queue ==> x in s.queue)
    requires n.byOperation == s.byOperation && n.pendingData == s.pendingData && n.responses == s.responses
    requires n.committed == s.committed && n.sending == s.sending && n.cfg == s.cfg
    ensures WithinLimits(n)
  {
    assert Shrinks(s, n);
    ShrinkKeepsLimits(s, n);
  }

  lemma DoneFails(s: Out, n: Out, r: nat)
    requires Done(s, n, r) && Sole(s, r) && r < |s.heap| && MapsOk(s.heap, s.byOperation.m, s.pendingData.m, s.responses.m, s.committed.m)
    ensures Failing(s, n, [r])
  {
  }

  lemma FailOneKeeps(s: Out, r: nat)
    requires Linked(s) && WithinLimits(s) && MayFail(s, r) && s.paused && !s.requested
    ensures var n := if Get(s, r).Confirmable() then Complete(s, r, Failed) else FailBestEffort(s, r);
            Linked(n) && WithinLimits(n) && Failing(s, n, [r]) && !n.requested
  {
    hide Linked, WithinLimits, Failing, Complete, FailBestEffort, NeedsConfirmation, Done, Sole, Awake;
    if Get(s, r).Confirmable() {
      CompleteLinked(s, r, Failed);
      LinkedFacts(s);
      DoneFails(s, Complete(s, r, Failed), r);
    } else {
      FailBestEffortLinked(s, r);
    }
  }

  lemma FailingStep(s: Out, n: Out, done: Out, refs: seq<nat>, r: nat)
    requires Failing(s, n, refs) && Failing(n, done, [r])
    ensures Failing(s, done, refs + [r])
  {
  }

  lemma StillMayFail(s: Out, n: Out, refs: seq<nat>, r: nat)
    requires Failing(s, n, refs) && MayFail(s, r)
    ensures MayFail(n, r) && Get(n, r) == Get(s, r) && n.paused == s.paused
  {
  }

  lemma {:induction false} FailAllKeeps(s: Out, refs: seq<nat>)
    requires Linked(s) && WithinLimits(s) && s.paused && !s.requested && forall r :: r in refs ==> MayFail(s, r)
    ensures var n := FailAll(s, refs); Linked(n) && WithinLimits(n) && Failing(s, n, refs) && !n.requested
    decreases |refs|
  {
    if refs == [] {
      hide Linked, WithinLimits;
    } else {
      hide Linked, WithinLimits, MayFail, Complete, FailBestEffort, Failing, Get, NeedsConfirmation;
      var earlier := FailAll(s, refs[..|refs| - 1]);
      var r := refs[|refs| - 1];
      FailAllKeeps(s, refs[..|refs| - 1]);
      StillMayFail(s, earlier, refs[..|refs| - 1], r);
      FailOneKeeps(earlier, r);
      FailingStep(s, earlier, FailAll(s, refs), refs[..|refs| - 1], r);
      assert refs == refs[..|refs| - 1] + [r];
    }
  }

  /** `refs` lists what `stop` fails: queued, tracked and active messages. */
  ghost predicate Concerns(s: Out, refs: seq<nat>) {
    forall r :: r in refs <==> r in Occupied(s) || r in Awaiting(s)
  }

  function Closing(s: Out): Out {
    s.(stopped := true, paused := true, requested := false, reserved := Table(map[]), wakeAt := None, blocked := false)
  }

  lemma ClosingKeeps(s: Out)
    requires Linked(s) && WithinLimits(s)
    ensures Linked(Closing(s)) && WithinLimits(Closing(s))
  {
    hide HeapOk, ProgressOk, MapsOk, QueueOk, SendingShape, SendingFenced, LockHeld, NoneForgotten, TimersOk, ExpiriesOk, OccupiedBy, AwaitedBy;
  }

  lemma OccupiedMayFail(s: Out, r: nat)
    requires Linked(s) && (r in Occupied(s) || r in Awaiting(s))
    ensures MayFail(s, r)
  {
    hide HeapOk, ReservedOk, LockHeld, NoneForgotten, TimersOk, ExpiriesOk, WakeOk, FlagsOk;
  }

  lemma SomeMember(q: seq<nat>)
    ensures q == [] || exists x :: x in q
  {
    if q != [] {
      assert q[0] in q;
    }
  }

  lemma NothingLeft(s: Out, n: Out, refs: seq<nat>)
    requires Concerns(s, refs) && Failing(s, n, refs)
    ensures n.queue == [] && n.byOperation.m == map[] && n.pendingData.m == map[] && n.responses.m == map[]
  {
    forall k | k in s.byOperation.m ensures k !in n.byOperation.m {
      assert s.byOperation.m[k] in Awaiting(s) && s.byOperation.m[k] in refs;
    }
    forall k | k in s.pendingData.m ensures k !in n.pendingData.m {
      assert s.pendingData.m[k] in Awaiting(s) && s.pendingData.m[k] in refs;
    }
    forall k | k in s.responses.m ensures k !in n.responses.m {
      assert s.responses.m[k] in Awaiting(s) && s.responses.m[k] in refs;
    }
    forall x | x in s.queue ensures x !in n.queue {
      assert x in Occupied(s) && x in refs;
    }
    SomeMember(n.queue);
  }

  /** Stopping fails everything under way and leaves nothing behind. */
  lemma StopKeeps(s: Out, refs: seq<nat>)
    requires Inv(s) && Concerns(s, refs)
    ensures Inv(Stop(s, refs)) && Stop(s, refs).stopped
    ensures !s.stopped ==> Stop(s, refs).sending == s.sending && Stop(s, refs).reserved.m == map[]
  {
    hide Linked, WithinLimits, MayFail, FailAll, OccupiedBy, AwaitedBy, AnyMayGo;
    if !s.stopped {
      var closing := Closing(s);
      ClosingKeeps(s);
      forall r | r in refs ensures MayFail(closing, r) {
        OccupiedMayFail(closing, r);
      }
      FailAllKeeps(closing, refs);
      var failed := FailAll(closing, refs);
      NothingLeft(closing, failed, refs);
      var n := Stop(s, refs);
      assert n == failed.(waiters := n.waiters);
      WaitersLinked(failed, n.waiters);
    }
  }

  lemma WaitersLinked(s: Out, waiters: nat)
    requires Linked(s) && WithinLimits(s)
    ensures Linked(s.(waiters := waiters)) && WithinLimits(s.(waiters := waiters))
  {
    hide HeapOk, ProgressOk, ReservedOk, MapsOk, QueueOk, SendingShape, SendingFenced, LockHeld, NoneForgotten, TimersOk, ExpiriesOk, WakeOk, FlagsOk;
    hide OccupiedBy, AwaitedBy;
  }
}
