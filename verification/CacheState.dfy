/** The SDK's resource cache as a value: versions, generations, local deletes and point reads (cache.ts). */
module CacheState {
  import opened Wrappers

  datatype Kind = Entity | Task | Object

  datatype Key = Key(kind: Kind, id: string)

  /** `instance` is metadata.created_at, which Core changes when an identity is reused; Tasks may carry no metadata. */
  datatype Resource = Resource(id: string, instance: Option<string>, version: nat, body: string)

  function EmbeddedVersion(kind: Kind, r: Resource): nat {
    if kind.Task? || r.instance.None? then 0 else r.version
  }

  // Entries are compared by reference in the source, so each carries the number of its creation.
  datatype Entry = Live(stamp: nat, version: nat, value: Resource, detail: bool) | Gone(stamp: nat, version: nat)

  datatype Read = Read(key: Key, generation: nat, epoch: nat, sequence: nat, observed: Option<nat>)

  datatype Status = Pending | Succeeded | Failed | NotFound

  datatype ReadState = ReadState(sequence: nat, status: Status)

  datatype Operation = Operation(key: Key, observed: Option<Entry>, learned: Option<Entry>, recreated: bool,
                                 reconcile: bool, remote: bool)

  datatype EventKind = Create | Update

  datatype Upsert = Upsert(event: EventKind, key: Key, version: nat, resource: Resource)

  datatype Cache = Cache(
    entries: Table<Key, Entry>,
    pendingDeletes: set<Key>,
    localDeletes: set<Key>,
    localInstances: Table<Key, string>,
    notified: set<Key>,
    operations: Table<nat, Operation>,
    generations: Table<Key, nat>,
    readStates: Table<Key, ReadState>,
    deferred: Table<Key, Read>,
    epoch: nat,
    stamps: nat,
    nextOperation: nat)

  const EMPTY := Cache(Table(map[]), {}, {}, Table(map[]), {}, Table(map[]), Table(map[]), Table(map[]), Table(map[]), 0, 0, 0)

  function Lookup(c: Cache, k: Key): Option<Entry> { if k in c.entries.m then Some(c.entries.m[k]) else None }

  function Stamp(e: Option<Entry>): Option<nat> { if e.Some? then Some(e.value.stamp) else None }

  function Version(c: Cache, k: Key): nat { if k in c.entries.m then c.entries.m[k].version else 0 }

  function Generation(c: Cache, k: Key): nat { if k in c.generations.m then c.generations.m[k] else 0 }

  /** What a reader of the cache can see. */
  function Visible(c: Cache): map<Key, Resource> {
    map k | k in c.entries.m && c.entries.m[k].Live? :: c.entries.m[k].value
  }

  function Instance(e: Option<Entry>): Option<string> {
    if e.Some? && e.value.Live? then e.value.value.instance else None
  }

  /** `sameResourceInstance` */
  predicate SameInstance(observed: Option<Entry>, current: Option<Entry>) {
    && observed.Some? && observed.value.Live? && current.Some? && current.value.Live?
    && current.value.value.instance.Some? && observed.value.value.instance == current.value.value.instance
  }

  // ----- deleting -------------------------------------------------------------------------------------

  function Bump(c: Cache, k: Key): Cache { c.(generations := c.generations.Put(k, Generation(c, k) + 1)) }

  function MarkRemote(operations: map<nat, Operation>, k: Key): map<nat, Operation> {
    map o | o in operations :: if operations[o].key == k then operations[o].(remote := true) else operations[o]
  }

  function MarkRemoteDelete(c: Cache, k: Key, version: nat, notify: bool): Cache {
    var bumped := Bump(c, k);
    bumped.(operations := if notify then Table(MarkRemote(c.operations.m, k)) else c.operations,
            entries := c.entries.Put(k, Gone(c.stamps, version)),
            stamps := c.stamps + 1)
  }

  function MarkLocalDelete(c: Cache, k: Key): Cache {
    var instance := Instance(Lookup(c, k));
    var marked := c.(localInstances := if instance.Some? then c.localInstances.Put(k, instance.value) else c.localInstances.Drop(k));
    MarkRemoteDelete(marked, k, Version(c, k), true).(pendingDeletes := c.pendingDeletes + {k}, localDeletes := c.localDeletes + {k})
  }

  // ----- accepting ------------------------------------------------------------------------------------

  /** A local delete under way forbids the point read from bringing back what it deletes. */
  predicate Blocks(o: Operation, k: Key, r: Resource) {
    o.key == k && (o.observed.None? || (o.observed.value.Live? && r.instance.Some? && o.observed.value.value.instance == r.instance))
  }

  predicate Blocked(operations: map<nat, Operation>, k: Key, r: Resource) {
    exists o :: o in operations && Blocks(operations[o], k, r)
  }

  function MarkReconcile(operations: map<nat, Operation>, k: Key): map<nat, Operation> {
    map o | o in operations ::
      if operations[o].key == k && operations[o].observed.None? then operations[o].(reconcile := true) else operations[o]
  }

  predicate Supersedes(existing: Option<Entry>, kind: Kind, version: nat, detail: bool, replaceSame: bool) {
    existing.None?
    || existing.value.version < version
    || (existing.value.version == version
        && (replaceSame || (kind.Object? && detail && existing.value.Live? && !existing.value.detail)))
  }

  function Store(c: Cache, k: Key, r: Resource, version: nat, detail: bool): Cache {
    c.(entries := c.entries.Put(k, Live(c.stamps, version, r, k.kind.Object? && detail)),
       stamps := c.stamps + 1, pendingDeletes := c.pendingDeletes - {k}, notified := c.notified - {k})
  }

  /** `acceptResource`; a resource whose identity is not the key's is an error there and refused here. */
  function Accept(c: Cache, k: Key, r: Resource, version: Option<nat>, detail: bool, replaceSame: bool, generation: Option<nat>)
    : (Cache, bool)
  {
    var v := if version.Some? then version.value else EmbeddedVersion(k.kind, r);
    if r.id != k.id then (c, false)
    else if generation.Some? && Generation(c, k) != generation.value then (c, false)
    else if generation.Some? && Blocked(c.operations.m, k, r) then
      (c.(operations := Table(MarkReconcile(c.operations.m, k))), false)
    else if !Supersedes(Lookup(c, k), k.kind, v, detail, replaceSame) then (c, false)
    else (Store(c, k, r, v, detail), true)
  }

  // ----- point reads ----------------------------------------------------------------------------------

  function BeginPointRead(c: Cache, k: Key): (Cache, Read) {
    var sequence := (if k in c.readStates.m then c.readStates.m[k].sequence else 0) + 1;
    (c.(readStates := c.readStates.Put(k, ReadState(sequence, Pending))),
     Read(k, Generation(c, k), c.epoch, sequence, Stamp(Lookup(c, k))))
  }

  function SettleRead(c: Cache, o: Read, status: Status): Cache {
    if o.key !in c.readStates.m || c.readStates.m[o.key].sequence != o.sequence then c
    else c.(readStates := c.readStates.Put(o.key, c.readStates.m[o.key].(status := status)), deferred := c.deferred.Drop(o.key))
  }

  function ApplyPointRead(c: Cache, o: Read, r: Resource, version: Option<nat>, detail: bool, replaceSame: bool): (Cache, bool) {
    if o.epoch != c.epoch then (c, false)
    else Accept(SettleRead(c, o, Succeeded), o.key, r, version, detail, replaceSame, Some(o.generation))
  }

  function NotFoundNow(c: Cache, o: Read): (Cache, bool) {
    var current := Lookup(c, o.key);
    if Stamp(current) != o.observed || (current.Some? && current.value.Gone?) then (c, false)
    else
      var deleted := MarkRemoteDelete(Bump(c, o.key), o.key, Version(c, o.key), false);
      (deleted.(pendingDeletes := c.pendingDeletes + {o.key}), true)
  }

  /** A "not found" answer waits for a later read of the same identity that is still under way. */
  function ApplyPointNotFound(c: Cache, o: Read): (Cache, bool) {
    if o.epoch != c.epoch then (c, false)
    else if o.key in c.readStates.m && o.sequence < c.readStates.m[o.key].sequence then
      match c.readStates.m[o.key].status
      case Pending => (c.(deferred := c.deferred.Put(o.key, o)), false)
      case Failed => NotFoundNow(c, o)
      case _ => (c, false)
    else NotFoundNow(SettleRead(c, o, NotFound), o)
  }

  function CompletePointRead(c: Cache, o: Read): (Cache, bool) {
    if o.epoch != c.epoch || o.key !in c.readStates.m || c.readStates.m[o.key] != ReadState(o.sequence, Pending) then (c, false)
    else
      var failed := c.(readStates := c.readStates.Put(o.key, ReadState(o.sequence, Failed)));
      if o.key !in c.deferred.m then (failed, false)
      else NotFoundNow(failed.(deferred := c.deferred.Drop(o.key)), c.deferred.m[o.key])
  }

  // ----- writes and feed events -----------------------------------------------------------------------

  /** The update is about another instance than the one deleted locally. */
  predicate Replacement(c: Cache, e: Upsert) {
    e.event.Update? && e.key in c.localInstances.m && e.resource.instance.Some?
    && e.resource.instance.value != c.localInstances.m[e.key]
  }

  function ClearMarker(c: Cache, k: Key): Cache {
    c.(localDeletes := c.localDeletes - {k}, localInstances := c.localInstances.Drop(k))
  }

  function Note(operations: map<nat, Operation>, k: Key, event: EventKind, current: Option<Entry>): map<nat, Operation> {
    map o | o in operations ::
      if operations[o].key != k then operations[o]
      else if event.Create? then operations[o].(recreated := true)
      else if operations[o].observed.None? && current.Some? then operations[o].(learned := current)
      else operations[o]
  }

  function NoteUpsert(c: Cache, e: Upsert): Cache {
    if e.key.kind.Task? then c else c.(operations := Table(Note(c.operations.m, e.key, e.event, Lookup(c, e.key))))
  }

  function ApplyWrite(c: Cache, e: Upsert, detail: bool): (Cache, bool) {
    if e.event.Update? && e.key in c.localDeletes && !Replacement(c, e) then (c, false)
    else
      var (n, ok) := Accept(c, e.key, e.resource, Some(e.version), detail, false, None);
      if !ok then (n, false)
      else
        var cleared := if e.event.Create? || Replacement(n, e) then ClearMarker(n, e.key) else n;
        (NoteUpsert(cleared, e), true)
  }

  function ApplyFeedUpsert(c: Cache, e: Upsert): (Cache, bool) {
    if e.version <= Version(c, e.key) || (e.event.Update? && e.key in c.pendingDeletes) then (c, false)
    else
      var (n, ok) := Accept(c, e.key, e.resource, Some(e.version), false, false, None);
      if !ok || e.key.kind.Task? then (n, ok)
      else
        var cleared := if e.event.Create? || Replacement(n, e) then ClearMarker(n, e.key) else n;
        (NoteUpsert(cleared, e), true)
  }

  function ApplyFeedDelete(c: Cache, k: Key, version: nat): Cache {
    if version <= Version(c, k) then c
    else MarkRemoteDelete(c.(pendingDeletes := c.pendingDeletes - {k}), k, version, true).(notified := c.notified - {k})
  }

  // ----- local deletes --------------------------------------------------------------------------------

  function BeginLocalDelete(c: Cache, k: Key): (Cache, nat) {
    var bumped := Bump(c, k);
    (bumped.(operations := c.operations.Put(c.nextOperation, Operation(k, Lookup(c, k), None, false, false, false)),
             nextOperation := c.nextOperation + 1), c.nextOperation)
  }

  /** `finishLocalDelete`: whether the delete may still remove what the cache holds now. */
  predicate StillOurs(o: Operation, current: Option<Entry>, deletesCurrent: bool) {
    && !o.remote && !o.recreated
    && (deletesCurrent || Stamp(current) == Stamp(o.observed) || (current.Some? && current.value.Gone?)
        || SameInstance(o.observed, current) || SameInstance(o.learned, current))
  }

  function FinishLocalDelete(c: Cache, op: nat, deleted: bool): (Cache, bool) {
    if op !in c.operations.m then (c, false)
    else
      var o := c.operations.m[op];
      var current := Lookup(c, o.key);
      var ended := Bump(c.(operations := c.operations.Drop(op)), o.key);
      var wasGone := o.observed.Some? && o.observed.value.Gone?;
      if wasGone && !deleted then (ended, false)
      else if !StillOurs(o, current, wasGone && deleted) then (ended, false)
      else
        var marked := MarkLocalDelete(ended, o.key);
        var removed := if current.Some? && current.value.Live? then current else o.observed;
        if (removed.None? || removed.value.Gone?) && !deleted then (marked, false)
        else (marked.(notified := marked.notified + {o.key}), true)
  }

  function CancelLocalDelete(c: Cache, op: nat): Cache { c.(operations := c.operations.Drop(op)) }

  // ----- hydration ------------------------------------------------------------------------------------

  function Cleared(c: Cache): Cache {
    EMPTY.(epoch := c.epoch + 1, stamps := c.stamps, nextOperation := c.nextOperation)
  }

  function AcceptAll(c: Cache, resources: seq<(Key, Resource)>): Cache {
    if resources == [] then c
    else
      var (k, r) := resources[|resources| - 1];
      Accept(AcceptAll(c, resources[..|resources| - 1]), k, r, None, k.kind.Object?, false, None).0
  }

  function Hydrate(c: Cache, resources: seq<(Key, Resource)>): Cache { AcceptAll(Cleared(c), resources) }
}

/** No version falls, no deleted resource comes back through an old read. */
module CacheRuns {
  import opened Wrappers
  import opened CacheState

  datatype Step =
    | BeginRead(key: Key)
    | PointRead(read: Read, resource: Resource, version: Option<nat>, detail: bool, replaceSame: bool)
    | PointNotFound(read: Read)
    | PointFailed(read: Read)
    | Write(event: Upsert, detail: bool)
    | FeedUpsert(event: Upsert)
    | FeedDelete(key: Key, deletedVersion: nat)
    | StartDelete(key: Key)
    | EndDelete(op: nat, deleted: bool)
    | CancelDelete(op: nat)
    | Replace(resources: seq<(Key, Resource)>)

  function Next(c: Cache, step: Step): Cache {
    match step
    case BeginRead(k) => BeginPointRead(c, k).0
    case PointRead(o, r, v, d, s) => ApplyPointRead(c, o, r, v, d, s).0
    case PointNotFound(o) => ApplyPointNotFound(c, o).0
    case PointFailed(o) => CompletePointRead(c, o).0
    case Write(e, d) => ApplyWrite(c, e, d).0
    case FeedUpsert(e) => ApplyFeedUpsert(c, e).0
    case FeedDelete(k, v) => ApplyFeedDelete(c, k, v)
    case StartDelete(k) => BeginLocalDelete(c, k).0
    case EndDelete(op, d) => FinishLocalDelete(c, op, d).0
    case CancelDelete(op) => CancelLocalDelete(c, op)
    case Replace(rs) => Hydrate(c, rs)
  }

  function Run(c: Cache, steps: seq<Step>): Cache {
    if steps == [] then c else Next(Run(c, steps[..|steps| - 1]), steps[|steps| - 1])
  }

  /** Versions of entries and generations of identities only grow. */
  ghost predicate Grows(c: Cache, n: Cache) {
    && n.epoch == c.epoch
    && (forall k :: k in c.entries.m ==> k in n.entries.m && n.entries.m[k].version >= c.entries.m[k].version)
    && (forall k :: Generation(n, k) >= Generation(c, k))
  }

  /** Whatever disappears from view took its generation with it. */
  ghost predicate HidesByBump(c: Cache, n: Cache) {
    forall k :: k in Visible(c) && k !in Visible(n) ==> Generation(n, k) > Generation(c, k)
  }

  ghost predicate Forward(c: Cache, n: Cache) { Grows(c, n) && HidesByBump(c, n) }

  lemma MarkForward(c: Cache, k: Key, version: nat, notify: bool)
    requires version >= Version(c, k)
    ensures Forward(c, MarkRemoteDelete(c, k, version, notify))
    ensures Generation(MarkRemoteDelete(c, k, version, notify), k) == Generation(c, k) + 1
  {
    hide MarkRemote;
  }

  lemma BumpForward(c: Cache, k: Key)
    ensures Forward(c, Bump(c, k)) && Bump(c, k) == c.(generations := Bump(c, k).generations)
    ensures Generation(Bump(c, k), k) == Generation(c, k) + 1
  {
  }

  lemma AcceptForward(c: Cache, k: Key, r: Resource, version: Option<nat>, detail: bool, replaceSame: bool, generation: Option<nat>)
    ensures var n := Accept(c, k, r, version, detail, replaceSame, generation).0;
            Forward(c, n) && n.generations == c.generations
  {
    hide Blocked, MarkReconcile;
  }

  lemma SameForward(c: Cache, n: Cache)
    requires n.entries == c.entries && n.generations == c.generations && n.epoch == c.epoch
    ensures Forward(c, n)
  {
  }

  lemma ForwardTrans(a: Cache, b: Cache, c: Cache)
    requires Forward(a, b) && Forward(b, c)
    ensures Forward(a, c)
  {
    forall k | k in Visible(a) && k !in Visible(c)
      ensures Generation(c, k) > Generation(a, k)
    {
      assert Generation(b, k) >= Generation(a, k) && Generation(c, k) >= Generation(b, k);
      if k in Visible(b) {
        assert Generation(c, k) > Generation(b, k);
      }
    }
  }

  lemma NotFoundForward(c: Cache, o: Read)
    ensures Forward(c, NotFoundNow(c, o).0)
  {
    hide Forward, MarkRemoteDelete, Bump;
    BumpForward(c, o.key);
    var b := Bump(c, o.key);
    MarkForward(b, o.key, Version(c, o.key), false);
    var d := MarkRemoteDelete(b, o.key, Version(c, o.key), false);
    ForwardTrans(c, b, d);
    var n := d.(pendingDeletes := c.pendingDeletes + {o.key});
    SameForward(d, n);
    ForwardTrans(c, d, n);
    SameForward(c, c);
  }

  lemma UpsertForward(c: Cache, e: Upsert, n: Cache, cleared: Cache)
    requires Forward(c, n) && (cleared == n || cleared == ClearMarker(n, e.key))
    ensures Forward(c, NoteUpsert(cleared, e))
  {
    hide Forward, Note;
    SameForward(n, NoteUpsert(cleared, e));
    ForwardTrans(c, n, NoteUpsert(cleared, e));
  }

  lemma FinishForward(c: Cache, op: nat, deleted: bool)
    ensures Forward(c, FinishLocalDelete(c, op, deleted).0)
  {
    hide Forward, MarkRemoteDelete, Bump, StillOurs;
    SameForward(c, c);
    if op in c.operations.m {
      var k := c.operations.m[op].key;
      var d := c.(operations := c.operations.Drop(op));
      SameForward(c, d);
      BumpForward(d, k);
      var ended := Bump(d, k);
      ForwardTrans(c, d, ended);
      var marked := MarkLocalDelete(ended, k);
      var instance := Instance(Lookup(ended, k));
      var m := ended.(localInstances := if instance.Some? then ended.localInstances.Put(k, instance.value) else ended.localInstances.Drop(k));
      SameForward(ended, m);
      MarkForward(m, k, Version(ended, k), true);
      var r := MarkRemoteDelete(m, k, Version(ended, k), true);
      SameForward(r, marked);
      SameForward(marked, marked.(notified := marked.notified + {k}));
      ForwardTrans(ended, m, r);
      ForwardTrans(ended, r, marked);
      ForwardTrans(c, ended, marked);
      ForwardTrans(c, marked, marked.(notified := marked.notified + {k}));
    }
  }

  /** Every step but a hydration keeps versions and generations growing, and hides nothing without a new generation. */
  lemma StepForward(c: Cache, step: Step)
    requires !step.Replace?
    ensures Forward(c, Next(c, step))
  {
    hide Forward, Accept, NotFoundNow, MarkRemoteDelete, Bump, FinishLocalDelete;
    SameForward(c, c);
    match step
    case BeginRead(k) => SameForward(c, BeginPointRead(c, k).0);
    case PointRead(o, r, v, d, s) =>
      var settled := SettleRead(c, o, Succeeded);
      SameForward(c, settled);
      AcceptForward(settled, o.key, r, v, d, s, Some(o.generation));
      ForwardTrans(c, settled, Accept(settled, o.key, r, v, d, s, Some(o.generation)).0);
    case PointNotFound(o) =>
      NotFoundForward(c, o);
      SameForward(c, c.(deferred := c.deferred.Put(o.key, o)));
      var settled := SettleRead(c, o, NotFound);
      SameForward(c, settled);
      NotFoundForward(settled, o);
      ForwardTrans(c, settled, NotFoundNow(settled, o).0);
    case PointFailed(o) =>
      if o.key in c.readStates.m {
        var failed := c.(readStates := c.readStates.Put(o.key, ReadState(o.sequence, Failed)));
        SameForward(c, failed);
        if o.key in c.deferred.m {
          var n := failed.(deferred := c.deferred.Drop(o.key));
          SameForward(c, n);
          NotFoundForward(n, c.deferred.m[o.key]);
          ForwardTrans(c, n, NotFoundNow(n, c.deferred.m[o.key]).0);
        }
      }
    case Write(e, d) =>
      AcceptForward(c, e.key, e.resource, Some(e.version), d, false, None);
      var n := Accept(c, e.key, e.resource, Some(e.version), d, false, None).0;
      UpsertForward(c, e, n, n);
      UpsertForward(c, e, n, ClearMarker(n, e.key));
    case FeedUpsert(e) =>
      AcceptForward(c, e.key, e.resource, Some(e.version), false, false, None);
      var n := Accept(c, e.key, e.resource, Some(e.version), false, false, None).0;
      UpsertForward(c, e, n, n);
      UpsertForward(c, e, n, ClearMarker(n, e.key));
    case FeedDelete(k, v) =>
      if v > Version(c, k) {
        var p := c.(pendingDeletes := c.pendingDeletes - {k});
        SameForward(c, p);
        MarkForward(p, k, v, true);
        var d := MarkRemoteDelete(p, k, v, true);
        ForwardTrans(c, p, d);
        SameForward(d, d.(notified := c.notified - {k}));
        ForwardTrans(c, d, d.(notified := c.notified - {k}));
      }
    case StartDelete(k) =>
      BumpForward(c, k);
      SameForward(Bump(c, k), BeginLocalDelete(c, k).0);
      ForwardTrans(c, Bump(c, k), BeginLocalDelete(c, k).0);
    case EndDelete(op, d) => FinishForward(c, op, d);
    case CancelDelete(op) => SameForward(c, CancelLocalDelete(c, op));
  }

  lemma {:induction false} AcceptAllEpoch(c: Cache, resources: seq<(Key, Resource)>)
    ensures AcceptAll(c, resources).epoch == c.epoch
    decreases |resources|
  {
    if resources != [] {
      hide Accept;
      AcceptAllEpoch(c, resources[..|resources| - 1]);
      var (k, r) := resources[|resources| - 1];
      AcceptForward(AcceptAll(c, resources[..|resources| - 1]), k, r, None, k.kind.Object?, false, None);
    }
  }

  /** Versions never decrease between hydrations. */
  lemma {:induction false} VersionsNeverFall(c: Cache, steps: seq<Step>, k: Key)
    requires forall s :: s in steps ==> !s.Replace?
    requires k in c.entries.m
    ensures k in Run(c, steps).entries.m && Run(c, steps).entries.m[k].version >= c.entries.m[k].version
    decreases |steps|
  {
    if steps != [] {
      VersionsNeverFall(c, steps[..|steps| - 1], k);
      hide Next;
      StepForward(Run(c, steps[..|steps| - 1]), steps[|steps| - 1]);
    }
  }

  /** Where a read begun at some moment stands now: the generation and hydration it saw are these or older. */
  ghost predicate Begun(c: Cache, o: Read) {
    o.epoch < c.epoch || (o.epoch == c.epoch && o.generation <= Generation(c, o.key))
  }

  /** The read is too old to be believed. */
  ghost predicate Outdated(c: Cache, o: Read) {
    o.epoch < c.epoch || (o.epoch == c.epoch && o.generation < Generation(c, o.key))
  }

  lemma StepAges(c: Cache, step: Step, o: Read)
    ensures Begun(c, o) ==> Begun(Next(c, step), o)
    ensures Outdated(c, o) ==> Outdated(Next(c, step), o)
    ensures Begun(c, o) && o.key in Visible(c) && o.key !in Visible(Next(c, step)) ==> Outdated(Next(c, step), o)
  {
    hide Next, Visible;
    if step.Replace? {
      assert Next(c, step).epoch > c.epoch by { HydrateEpoch(c, step); }
    } else {
      StepForward(c, step);
    }
  }

  lemma HydrateEpoch(c: Cache, step: Step)
    requires step.Replace?
    ensures Next(c, step).epoch == c.epoch + 1
  {
    AcceptAllEpoch(Cleared(c), step.resources);
  }

  lemma {:induction false} RunAges(c: Cache, steps: seq<Step>, o: Read)
    ensures Begun(c, o) ==> Begun(Run(c, steps), o)
    ensures Outdated(c, o) ==> Outdated(Run(c, steps), o)
    decreases |steps|
  {
    if steps != [] {
      RunAges(c, steps[..|steps| - 1], o);
      hide Next;
      StepAges(Run(c, steps[..|steps| - 1]), steps[|steps| - 1], o);
    }
  }

  /** An outdated read changes nothing a reader can see. */
  lemma OutdatedRefused(c: Cache, o: Read, r: Resource, version: Option<nat>, detail: bool, replaceSame: bool)
    requires Outdated(c, o)
    ensures var (n, ok) := ApplyPointRead(c, o, r, version, detail, replaceSame);
            !ok && n.entries == c.entries && Visible(n) == Visible(c)
  {
  }

  /**
    The step deletes the identity, whether or not the cache holds it: a newer feed deletion, a "not found" answer that
    takes effect now, the start or the end of a local delete, or a hydration, which replaces everything.
    */
  predicate Deletes(c: Cache, step: Step, k: Key) {
    match step
    case FeedDelete(key, version) => key == k && version > Version(c, k)
    case PointNotFound(o) => o.key == k && ApplyPointNotFound(c, o).1
    case PointFailed(o) => o.key in c.deferred.m && c.deferred.m[o.key].key == k && CompletePointRead(c, o).1
    case StartDelete(key) => key == k
    case EndDelete(op, _) => op in c.operations.m && c.operations.m[op].key == k
    case Replace(_) => true
    case _ => false
  }

  lemma NotFoundBumps(c: Cache, o: Read)
    requires NotFoundNow(c, o).1
    ensures Generation(NotFoundNow(c, o).0, o.key) > Generation(c, o.key) && NotFoundNow(c, o).0.epoch == c.epoch
  {
    hide MarkRemoteDelete, Bump;
    BumpForward(c, o.key);
    MarkForward(Bump(c, o.key), o.key, Version(c, o.key), false);
  }

  lemma FinishBumps(c: Cache, op: nat, deleted: bool)
    requires op in c.operations.m
    ensures var n := FinishLocalDelete(c, op, deleted).0;
            Generation(n, c.operations.m[op].key) > Generation(c, c.operations.m[op].key) && n.epoch == c.epoch
  {
    hide MarkRemoteDelete, Bump, StillOurs;
    var k := c.operations.m[op].key;
    var ended := Bump(c.(operations := c.operations.Drop(op)), k);
    BumpForward(c.(operations := c.operations.Drop(op)), k);
    var instance := Instance(Lookup(ended, k));
    var m := ended.(localInstances := if instance.Some? then ended.localInstances.Put(k, instance.value) else ended.localInstances.Drop(k));
    MarkForward(m, k, Version(ended, k), true);
  }

  /** Every deletion outdates the reads of that identity begun before it. */
  lemma DeletesOutdate(c: Cache, step: Step, o: Read)
    requires Begun(c, o) && Deletes(c, step, o.key)
    ensures Outdated(Next(c, step), o)
  {
    hide MarkRemoteDelete, Bump, NotFoundNow, FinishLocalDelete, Hydrate;
    match step
    case FeedDelete(k, v) => MarkForward(c.(pendingDeletes := c.pendingDeletes - {k}), k, v, true);
    case PointNotFound(p) =>
      if NotFoundNow(c, p).1 { NotFoundBumps(c, p); }
      if NotFoundNow(SettleRead(c, p, NotFound), p).1 { NotFoundBumps(SettleRead(c, p, NotFound), p); }
    case PointFailed(p) =>
      var failed := c.(readStates := c.readStates.Put(p.key, ReadState(p.sequence, Failed)));
      NotFoundBumps(failed.(deferred := c.deferred.Drop(p.key)), c.deferred.m[p.key]);
    case StartDelete(k) => BumpForward(c, k);
    case EndDelete(op, d) => FinishBumps(c, op, d);
    case Replace(_) => HydrateEpoch(c, step);
  }

  /**
    No resurrection: once an identity has been deleted, or has disappeared from view in any other way, a point read
    begun before that changes nothing a reader can see, whatever happens in between and whether or not the cache ever
    held the identity.
    */
  lemma NoResurrection(c: Cache, k: Key, before: seq<Step>, delete: Step, after: seq<Step>, r: Resource,
                       version: Option<nat>, detail: bool, replaceSame: bool)
    requires var now := Run(BeginPointRead(c, k).0, before);
             Deletes(now, delete, k) || (k in Visible(now) && k !in Visible(Next(now, delete)))
    ensures var (begun, o) := BeginPointRead(c, k);
            var later := Run(Next(Run(begun, before), delete), after);
            var (n, ok) := ApplyPointRead(later, o, r, version, detail, replaceSame);
            !ok && n.entries == later.entries && Visible(n) == Visible(later)
  {
    hide Next, Visible, ApplyPointRead, Deletes;
    var (begun, o) := BeginPointRead(c, k);
    var now := Run(begun, before);
    RunAges(begun, before, o);
    StepAges(now, delete, o);
    if Deletes(now, delete, k) { DeletesOutdate(now, delete, o); }
    RunAges(Next(now, delete), after, o);
    OutdatedRefused(Run(Next(now, delete), after), o, r, version, detail, replaceSame);
  }

  /** A read begun before a local delete starts is refused from then on, even before the delete is confirmed. */
  lemma LocalDeleteOutdates(c: Cache, o: Read, after: seq<Step>)
    requires Begun(c, o)
    ensures Outdated(Run(Next(c, StartDelete(o.key)), after), o)
  {
    RunAges(Next(c, StartDelete(o.key)), after, o);
  }
}
