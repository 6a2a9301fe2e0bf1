/** What feed events, writes, point reads, deletes and hydration make of the resource cache (cache.ts). */
module CacheOutcomes {
  import opened Wrappers
  import opened CacheState

  /** The cache shows that resource, at that version, and all other entries as before. */
  ghost predicate Takes(c: Cache, n: Cache, k: Key, r: Resource, version: nat, detail: bool) {
    && Visible(n) == Visible(c)[k := r]
    && k in n.entries.m && n.entries.m[k] == Live(c.stamps, version, r, k.kind == Object && detail)
    && OthersStand(c, n, k) && n.pendingDeletes == c.pendingDeletes - {k} && n.notified == c.notified - {k}
  }

  ghost predicate OthersStand(c: Cache, n: Cache, k: Key) {
    forall x :: x != k ==> (x in n.entries.m <==> x in c.entries.m) && (x in c.entries.m ==> n.entries.m[x] == c.entries.m[x])
  }

  /** The identity was deleted at that version, and all other entries are as before. */
  ghost predicate Loses(c: Cache, n: Cache, k: Key, version: nat) {
    && Visible(n) == Visible(c) - {k}
    && k in n.entries.m && n.entries.m[k].Gone? && n.entries.m[k].version == version
    && OthersStand(c, n, k)
  }

  function Held(c: Cache, k: Key): nat { if k in c.entries.m then c.entries.m[k].version else 0 }

  /** The full content of an object, known in outline at this very version. */
  predicate Details(c: Cache, k: Key, detail: bool) {
    k.kind == Object && detail && k in c.entries.m && c.entries.m[k].Live? && !c.entries.m[k].detail
  }

  /** The version given with the resource, or else that of a resource that carries one. */
  function ReadVersion(k: Key, r: Resource, version: Option<nat>): nat {
    match version
    case Some(v) => v
    case None => if k.kind == Task || r.instance == None then 0 else r.version
  }

  lemma AcceptExactly(c: Cache, k: Key, r: Resource, version: Option<nat>, detail: bool, replaceSame: bool)
    ensures var (n, ok) := Accept(c, k, r, version, detail, replaceSame, None);
            var v := ReadVersion(k, r, version);
            && (ok <==> r.id == k.id
                        && (k in c.entries.m ==>
                              || c.entries.m[k].version < v
                              || (c.entries.m[k].version == v && (replaceSame || Details(c, k, detail)))))
            && (if ok then Takes(c, n, k, r, v, detail) && n.operations == c.operations else n == c)
            && n.localDeletes == c.localDeletes && n.localInstances == c.localInstances && n.generations == c.generations
  {
  }

  // ----- feed and writes ------------------------------------------------------------------------------

  /** Local deletes under way learn that the resource was created again, or what they had not known they delete. */
  ghost predicate Informs(c: Cache, n: Cache, e: Upsert) {
    && n.operations.m.Keys == c.operations.m.Keys
    && forall o :: o in c.operations.m ==>
         n.operations.m[o] ==
         if c.operations.m[o].key != e.key || e.key.kind == Task then c.operations.m[o]
         else if e.event == Create then c.operations.m[o].(recreated := true)
         else if c.operations.m[o].observed == None && e.key in n.entries.m
         then c.operations.m[o].(learned := Some(n.entries.m[e.key])) else c.operations.m[o]
  }

  /** An update is about another instance than the one deleted here. */
  predicate AnotherInstance(c: Cache, e: Upsert) {
    && e.event == Update && e.key in c.localInstances.m && e.resource.instance.Some?
    && c.localInstances.m[e.key] != e.resource.instance.value
  }

  predicate EndsMarker(c: Cache, e: Upsert) { e.event == Create || AnotherInstance(c, e) }

  /**
    A feed upsert is shown exactly if it belongs to the identity, is of a higher version than what is held, and is no
    update of something whose deletion is still to be reported; otherwise nothing changes.
    */
  lemma FeedUpsertExactly(c: Cache, e: Upsert)
    ensures var (n, ok) := ApplyFeedUpsert(c, e);
            && (ok <==> e.resource.id == e.key.id && e.version > Held(c, e.key) && !(e.event == Update && e.key in c.pendingDeletes))
            && (if ok then Takes(c, n, e.key, e.resource, e.version, false) && Informs(c, n, e) else n == c)
            && (ok && e.key.kind != Task ==>
                  n.localDeletes == if EndsMarker(c, e) then c.localDeletes - {e.key} else c.localDeletes)
  {
    hide Accept, Takes;
    AcceptExactly(c, e.key, e.resource, Some(e.version), false, false);
    if ApplyFeedUpsert(c, e).1 {
      var n := Accept(c, e.key, e.resource, Some(e.version), false, false, None).0;
      SameView(c, n, ApplyFeedUpsert(c, e).0, e.key, e.resource, e.version, false);
    }
  }

  lemma SameView(c: Cache, a: Cache, b: Cache, k: Key, r: Resource, version: nat, detail: bool)
    requires a.entries == b.entries && a.pendingDeletes == b.pendingDeletes && a.notified == b.notified
    ensures Takes(c, a, k, r, version, detail) == Takes(c, b, k, r, version, detail)
  {
  }

  /**
    A write is shown exactly if it belongs to the identity, no local delete of the same instance suppresses it, and it is
    of a higher version than what is held or adds the content of an object; otherwise nothing changes.
    */
  lemma WriteExactly(c: Cache, e: Upsert, detail: bool)
    ensures var (n, ok) := ApplyWrite(c, e, detail);
            && (ok <==> && e.resource.id == e.key.id
                        && !(e.event == Update && e.key in c.localDeletes && !AnotherInstance(c, e))
                        && (e.key in c.entries.m ==>
                              || e.version > c.entries.m[e.key].version
                              || (e.version == c.entries.m[e.key].version && Details(c, e.key, detail))))
            && (if ok then Takes(c, n, e.key, e.resource, e.version, detail) && Informs(c, n, e) else n == c)
            && (ok ==> n.localDeletes == if EndsMarker(c, e) then c.localDeletes - {e.key} else c.localDeletes)
  {
    hide Accept, Takes;
    AcceptExactly(c, e.key, e.resource, Some(e.version), detail, false);
    if ApplyWrite(c, e, detail).1 {
      var n := Accept(c, e.key, e.resource, Some(e.version), detail, false, None).0;
      SameView(c, n, ApplyWrite(c, e, detail).0, e.key, e.resource, e.version, detail);
    }
  }

  /** A feed deletion of a higher version removes the resource for good; any other changes nothing. */
  lemma FeedDeleteExactly(c: Cache, k: Key, version: nat)
    ensures var n := ApplyFeedDelete(c, k, version);
            if version > Held(c, k) then
              && Loses(c, n, k, version) && n.pendingDeletes == c.pendingDeletes - {k} && n.notified == c.notified - {k}
              && (forall o :: o in c.operations.m && c.operations.m[o].key == k ==> o in n.operations.m && n.operations.m[o].remote)
            else n == c
  {
  }

  // ----- point reads ----------------------------------------------------------------------------------

  /** A delete of this very instance, or of something not yet known, is under way. */
  predicate BeingDeleted(c: Cache, k: Key, r: Resource) {
    exists o :: o in c.operations.m && c.operations.m[o].key == k
                && match c.operations.m[o].observed
                   case None => true
                   case Some(Live(_, _, value, _)) => r.instance.Some? && value.instance == r.instance
                   case Some(Gone(_, _)) => false
  }

  predicate Current(c: Cache, o: Read) {
    o.epoch == c.epoch && o.generation == if o.key in c.generations.m then c.generations.m[o.key] else 0
  }

  /**
    The answer to a point read is shown exactly if no deletion has begun since the read did, no local delete of it is
    under way, and it is newer than what is held, or replaces the same version; otherwise nothing visible changes.
    */
  lemma PointReadExactly(c: Cache, o: Read, r: Resource, version: Option<nat>, detail: bool, replaceSame: bool)
    ensures var (n, ok) := ApplyPointRead(c, o, r, version, detail, replaceSame);
            var v := ReadVersion(o.key, r, version);
            && (ok <==> && Current(c, o) && r.id == o.key.id && !BeingDeleted(c, o.key, r)
                        && (o.key in c.entries.m ==>
                              || v > c.entries.m[o.key].version
                              || (v == c.entries.m[o.key].version && (replaceSame || Details(c, o.key, detail)))))
            && (if ok then Takes(c, n, o.key, r, v, detail) && n.operations == c.operations
                else n.entries == c.entries && Visible(n) == Visible(c) && n.pendingDeletes == c.pendingDeletes)
            && (Current(c, o) && r.id == o.key.id && BeingDeleted(c, o.key, r) ==> MustReconcile(c, n, o.key))
  {
    hide Supersedes, Store, Blocked, MarkReconcile, Takes;
    BlockedIs(c, o.key, r);
    if o.epoch == c.epoch {
      var settled := SettleRead(c, o, Succeeded);
      var v := ReadVersion(o.key, r, version);
      AcceptExactly(settled, o.key, r, version, detail, replaceSame);
      TakesFrom(c, settled, ApplyPointRead(c, o, r, version, detail, replaceSame).0, o.key, r, v, detail);
      ReconcileIs(c, o.key);
    }
  }

  lemma TakesFrom(c: Cache, s: Cache, n: Cache, k: Key, r: Resource, version: nat, detail: bool)
    requires s.entries == c.entries && s.stamps == c.stamps && s.pendingDeletes == c.pendingDeletes && s.notified == c.notified
    ensures Takes(s, n, k, r, version, detail) == Takes(c, n, k, r, version, detail)
  {
  }

  /** Deletes of something unknown that kept an answer out have to look again when they end. */
  ghost predicate MustReconcile(c: Cache, n: Cache, k: Key) {
    forall o :: o in c.operations.m ==>
      && o in n.operations.m
      && n.operations.m[o] == if c.operations.m[o].key == k && c.operations.m[o].observed == None
                              then c.operations.m[o].(reconcile := true) else c.operations.m[o]
  }

  lemma ReconcileIs(c: Cache, k: Key)
    ensures MustReconcile(c, c.(operations := Table(MarkReconcile(c.operations.m, k))), k)
  {
  }

  lemma BlockedIs(c: Cache, k: Key, r: Resource)
    ensures Blocked(c.operations.m, k, r) <==> BeingDeleted(c, k, r)
  {
    forall o | o in c.operations.m
      ensures Blocks(c.operations.m[o], k, r) <==>
              c.operations.m[o].key == k
              && match c.operations.m[o].observed
                 case None => true
                 case Some(Live(_, _, value, _)) => r.instance.Some? && value.instance == r.instance
                 case Some(Gone(_, _)) => false
    {
    }
  }

  /** The entry the read saw is still the one held, and no deletion. */
  predicate StillThere(c: Cache, o: Read) {
    if o.key in c.entries.m then c.entries.m[o.key].Live? && o.observed == Some(c.entries.m[o.key].stamp) else o.observed == None
  }

  /** A later read of the identity was begun. */
  predicate Overtaken(c: Cache, o: Read) { o.key in c.readStates.m && o.sequence < c.readStates.m[o.key].sequence }

  /** No later read of the identity is under way or has found it. */
  predicate LastWord(c: Cache, o: Read) { Overtaken(c, o) ==> c.readStates.m[o.key].status == Failed }

  /** A "not found" answer removes what its read saw, if that is still there and no later read says otherwise. */
  lemma PointNotFoundExactly(c: Cache, o: Read)
    ensures var (n, ok) := ApplyPointNotFound(c, o);
            && (ok <==> o.epoch == c.epoch && LastWord(c, o) && StillThere(c, o))
            && (if ok then Loses(c, n, o.key, Held(c, o.key)) && o.key in n.pendingDeletes
                else n.entries == c.entries && n.pendingDeletes == c.pendingDeletes)
            && (o.epoch == c.epoch && Overtaken(c, o) && c.readStates.m[o.key].status == Pending ==>
                  o.key in n.deferred.m && n.deferred.m[o.key] == o)
  {
    hide NotFoundNow;
    NotFoundExactly(c, o);
    NotFoundExactly(SettleRead(c, o, NotFound), o);
  }

  lemma NotFoundExactly(c: Cache, o: Read)
    ensures var (n, ok) := NotFoundNow(c, o);
            && (ok <==> StillThere(c, o))
            && (if ok then Loses(c, n, o.key, Held(c, o.key)) && o.key in n.pendingDeletes else n == c)
  {
    hide MarkRemote;
  }

  /** When the last read of an identity fails, the "not found" answer that had to wait for it takes effect. */
  lemma FailedReadExactly(c: Cache, o: Read)
    ensures var (n, ok) := CompletePointRead(c, o);
            && (ok <==> && o.epoch == c.epoch && o.key in c.readStates.m && c.readStates.m[o.key] == ReadState(o.sequence, Pending)
                        && o.key in c.deferred.m && StillThere(c, c.deferred.m[o.key]))
            && (if ok then var k := c.deferred.m[o.key].key; Loses(c, n, k, Held(c, k)) && k in n.pendingDeletes
                else n.entries == c.entries && n.pendingDeletes == c.pendingDeletes)
  {
    hide NotFoundNow;
    if o.key in c.deferred.m {
      var failed := c.(readStates := c.readStates.Put(o.key, ReadState(o.sequence, Failed)));
      NotFoundExactly(failed.(deferred := c.deferred.Drop(o.key)), c.deferred.m[o.key]);
    }
  }

  /** A read that begins now is current, is the last of its identity, and has seen what is held. */
  lemma BeginReadExactly(c: Cache, k: Key)
    ensures var (n, o) := BeginPointRead(c, k);
            && o.key == k && n.entries == c.entries && n.operations == c.operations && n.generations == c.generations
            && Current(n, o) && !Overtaken(n, o) && (StillThere(n, o) <==> k !in c.entries.m || c.entries.m[k].Live?)
            && k in n.readStates.m && n.readStates.m[k] == ReadState(o.sequence, Pending)
            && (k in c.readStates.m ==> o.sequence > c.readStates.m[k].sequence)
  {
  }

  // ----- local deletes --------------------------------------------------------------------------------

  predicate IsInstance(e: Option<Entry>, current: Entry) {
    && e.Some? && e.value.Live? && current.Live? && current.value.instance.Some?
    && e.value.value.instance == current.value.instance
  }

  /** What the cache holds now is what the delete was about: the entry it saw or learned of, or a deletion of it. */
  predicate About(c: Cache, o: Operation) {
    if o.key in c.entries.m then
      var e := c.entries.m[o.key];
      || e.Gone? || (o.observed.Some? && o.observed.value.stamp == e.stamp) || IsInstance(o.observed, e) || IsInstance(o.learned, e)
    else o.observed == None
  }

  predicate SawDeletion(o: Operation) { o.observed.Some? && o.observed.value.Gone? }

  /** A local delete that begins now is about what is held, and outdates the reads under way. */
  lemma BeginDeleteExactly(c: Cache, k: Key)
    ensures var (n, op) := BeginLocalDelete(c, k);
            && op in n.operations.m && n.entries == c.entries && n.epoch == c.epoch
            && n.generations.m == c.generations.m[k := (if k in c.generations.m then c.generations.m[k] else 0) + 1]
            && var o := n.operations.m[op];
               && o.key == k && !o.remote && !o.recreated && !o.reconcile && About(n, o)
               && (SawDeletion(o) <==> k in c.entries.m && c.entries.m[k].Gone?)
               && (o.observed == None <==> k !in c.entries.m)
  {
  }

  /**
    A local delete that ends removes what it was about, unless Core's feed has deleted or created the resource again in
    the meantime, or it had seen a deletion and was not found; else nothing visible changes.
    */
  lemma LocalDeleteExactly(c: Cache, op: nat, deleted: bool)
    requires op in c.operations.m
    ensures var (n, told) := FinishLocalDelete(c, op, deleted);
            var o := c.operations.m[op];
            && op !in n.operations.m && n.notified == (if told then c.notified + {o.key} else c.notified)
            && (if !o.remote && !o.recreated && (if SawDeletion(o) then deleted else About(c, o)) then
                  && Loses(c, n, o.key, Held(c, o.key)) && o.key in n.pendingDeletes && o.key in n.localDeletes
                  && (told <==> deleted || o.key in Visible(c) || (o.observed.Some? && o.observed.value.Live?))
                  && (o.key in Visible(c) && Visible(c)[o.key].instance.Some? ==>
                        o.key in n.localInstances.m && n.localInstances.m[o.key] == Visible(c)[o.key].instance.value)
                else !told && n.entries == c.entries && n.pendingDeletes == c.pendingDeletes && n.localDeletes == c.localDeletes)
  {
    hide MarkLocalDelete, Loses, Bump;
    var o := c.operations.m[op];
    var ended := Bump(c.(operations := c.operations.Drop(op)), o.key);
    BumpOnly(c.(operations := c.operations.Drop(op)), o.key);
    MarkLocalExactly(ended, o.key);
    LosesFrom(c, ended, MarkLocalDelete(ended, o.key), FinishLocalDelete(c, op, deleted).0, o.key);
  }

  lemma BumpOnly(c: Cache, k: Key)
    ensures Bump(c, k) == c.(generations := Bump(c, k).generations)
  {
  }

  lemma MarkLocalExactly(c: Cache, k: Key)
    ensures var n := MarkLocalDelete(c, k);
            && Loses(c, n, k, Held(c, k)) && n.pendingDeletes == c.pendingDeletes + {k} && n.localDeletes == c.localDeletes + {k}
            && n.notified == c.notified
            && (forall o :: o in n.operations.m <==> o in c.operations.m)
            && (k in Visible(c) && Visible(c)[k].instance.Some? ==>
                  k in n.localInstances.m && n.localInstances.m[k] == Visible(c)[k].instance.value)
  {
  }

  lemma LosesFrom(c: Cache, s: Cache, m: Cache, n: Cache, k: Key)
    requires s.entries == c.entries
    ensures n.entries == m.entries ==> Loses(s, m, k, Held(s, k)) == Loses(c, n, k, Held(c, k))
  {
  }

  // ----- hydration ------------------------------------------------------------------------------------

  predicate Listed(rs: seq<(Key, Resource)>, k: Key, i: nat) { i < |rs| && rs[i].0 == k && rs[i].1.id == k.id }

  /** The first among those listed for the identity whose version none exceeds. */
  ghost predicate Newest(rs: seq<(Key, Resource)>, k: Key, i: nat) {
    && Listed(rs, k, i)
    && forall j: nat :: j < |rs| && j != i && Listed(rs, k, j) ==>
         if j < i then ReadVersion(k, rs[j].1, None) < ReadVersion(k, rs[i].1, None)
         else ReadVersion(k, rs[j].1, None) <= ReadVersion(k, rs[i].1, None)
  }

  ghost predicate NoneListed(rs: seq<(Key, Resource)>, k: Key) { forall i: nat :: !Listed(rs, k, i) }

  /** What the cache holds of the identity is what was listed there. */
  ghost predicate HoldsListed(n: Cache, k: Key, rs: seq<(Key, Resource)>, i: nat) {
    && i < |rs| && k in n.entries.m && n.entries.m[k].Live? && n.entries.m[k].value == rs[i].1
    && n.entries.m[k].version == ReadVersion(k, rs[i].1, None) && (k.kind == Object ==> n.entries.m[k].detail)
  }

  /** After a hydration the cache shows the newest resource listed for each identity, and nothing else. */
  lemma HydrateExactly(c: Cache, rs: seq<(Key, Resource)>, k: Key)
    ensures var n := Hydrate(c, rs);
            && (forall i: nat :: Newest(rs, k, i) ==> HoldsListed(n, k, rs, i))
            && (NoneListed(rs, k) <==> k !in n.entries.m)
            && n.epoch == c.epoch + 1
  {
    hide AcceptAll, HoldsListed;
    HydratesNewest(Cleared(c), rs, k);
    var n := Hydrate(c, rs);
    if k in n.entries.m {
      var i: nat :| Newest(rs, k, i) && HoldsListed(n, k, rs, i);
      forall j: nat | Newest(rs, k, j) ensures i == j {
        assert Listed(rs, k, i) && Listed(rs, k, j);
      }
    }
  }

  lemma {:induction false} HydratesNewest(c: Cache, rs: seq<(Key, Resource)>, k: Key)
    requires c.entries.m == map[]
    ensures var n := AcceptAll(c, rs);
            && n.epoch == c.epoch
            && (k in n.entries.m ==> exists i: nat :: Newest(rs, k, i) && HoldsListed(n, k, rs, i))
            && (k !in n.entries.m ==> NoneListed(rs, k))
    decreases |rs|
  {
    if rs != [] {
      hide Accept, Newest, HoldsListed, Takes;
      var front := rs[..|rs| - 1];
      HydratesNewest(c, front, k);
      var a := AcceptAll(c, front);
      var (x, r) := rs[|rs| - 1];
      var (n, ok) := Accept(a, x, r, None, x.kind.Object?, false, None);
      AcceptExactly(a, x, r, None, x.kind.Object?, false);
      AcceptEpoch(a, x, r, None, x.kind.Object?, false);
      if k in a.entries.m {
        var i: nat :| Newest(front, k, i) && HoldsListed(a, k, front, i);
        HydrateStep(a, n, ok, rs, k, i);
      } else {
        HydrateFirst(a, n, ok, rs, k);
      }
    }
  }

  lemma AcceptEpoch(c: Cache, k: Key, r: Resource, version: Option<nat>, detail: bool, replaceSame: bool)
    ensures Accept(c, k, r, version, detail, replaceSame, None).0.epoch == c.epoch
  {
  }

  /** One more resource, of an identity of which one is held: the newer of the two. */
  lemma HydrateStep(a: Cache, n: Cache, ok: bool, rs: seq<(Key, Resource)>, k: Key, i: nat)
    requires rs != [] && Newest(rs[..|rs| - 1], k, i) && HoldsListed(a, k, rs[..|rs| - 1], i)
    requires var (x, r) := rs[|rs| - 1];
             var v := ReadVersion(x, r, None);
             && (ok <==> r.id == x.id && (x in a.entries.m ==>
                   a.entries.m[x].version < v || (a.entries.m[x].version == v && Details(a, x, x.kind.Object?))))
             && if ok then Takes(a, n, x, r, v, x.kind.Object?) else n == a
    ensures exists j: nat :: Newest(rs, k, j) && HoldsListed(n, k, rs, j)
  {
    hide Visible;
    var last := |rs| - 1;
    var j := if ok && rs[last].0 == k then last else i;
    assert forall q: nat :: q < last ==> (Listed(rs, k, q) <==> Listed(rs[..last], k, q));
    assert HoldsListed(n, k, rs, j);
    assert Newest(rs, k, j);
  }

  lemma HydrateFirst(a: Cache, n: Cache, ok: bool, rs: seq<(Key, Resource)>, k: Key)
    requires rs != [] && k !in a.entries.m && NoneListed(rs[..|rs| - 1], k)
    requires var (x, r) := rs[|rs| - 1];
             var v := ReadVersion(x, r, None);
             && (ok <==> r.id == x.id && (x in a.entries.m ==>
                   a.entries.m[x].version < v || (a.entries.m[x].version == v && Details(a, x, x.kind.Object?))))
             && if ok then Takes(a, n, x, r, v, x.kind.Object?) else n == a
    ensures k in n.entries.m ==> exists i: nat :: Newest(rs, k, i) && HoldsListed(n, k, rs, i)
    ensures k !in n.entries.m ==> NoneListed(rs, k)
  {
    hide Visible;
    var last := |rs| - 1;
    assert forall q: nat :: q < last ==> (Listed(rs, k, q) <==> Listed(rs[..last], k, q));
    if k in n.entries.m {
      assert Newest(rs, k, last) && HoldsListed(n, k, rs, last);
    }
  }
}
