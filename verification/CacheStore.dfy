/** The resource cache as an object, with its lazily rebuilt snapshot (cache.ts). */
module CacheStore {
  import opened Wrappers
  import opened CacheState
  import opened CacheRuns

  /** One resource type's part of the snapshot, rebuilt when it is next asked for. */
  class SnapshotRecord {
    var entries: map<string, Resource>
    var value: map<string, Resource>
    var dirty: bool

    ghost predicate Valid()
      reads this
    {
      !dirty ==> value == entries
    }

    constructor ()
      ensures Valid() && entries == map[] && !dirty
    {
      entries, value, dirty := map[], map[], false;
    }

    method Put(id: string, r: Resource)
      requires Valid()
      modifies this
      ensures Valid() && entries == old(entries)[id := r]
    {
      entries := entries[id := r];
      dirty := true;
    }

    method Remove(id: string) returns (found: bool)
      requires Valid()
      modifies this
      ensures Valid() && entries == old(entries) - {id} && found == (id in old(entries))
      ensures !found ==> value == old(value) && dirty == old(dirty)
    {
      if id !in entries {
        assert entries - {id} == entries;
        return false;
      }
      entries := entries - {id};
      dirty := true;
      return true;
    }

    method Clear()
      requires Valid()
      modifies this
      ensures Valid() && entries == map[]
    {
      entries := map[];
      dirty := true;
    }

    method Rebuilt() returns (current: map<string, Resource>)
      requires Valid()
      modifies `value, `dirty
      ensures Valid() && current == entries && !dirty
    {
      if dirty {
        value := entries;
        dirty := false;
      }
      return value;
    }
  }

  datatype Snapshot = Snapshot(entities: map<string, Resource>, tasks: map<string, Resource>, objects: map<string, Resource>)

  /** The record holds exactly the entries of its type that are not deleted. */
  ghost predicate Agrees(kind: Kind, record: map<string, Resource>, entries: map<Key, Entry>) {
    && (forall id :: id in record <==> Key(kind, id) in entries && entries[Key(kind, id)].Live?)
    && (forall id :: id in record ==> record[id] == entries[Key(kind, id)].value)
  }

  lemma HiddenAgrees(kind: Kind, record: map<string, Resource>, entries: map<Key, Entry>, k: Key, e: Entry)
    requires Agrees(kind, record, entries) && e.Gone?
    ensures Agrees(kind, if k.kind == kind then record - {k.id} else record, entries[k := e])
  {
  }

  lemma ShownAgrees(kind: Kind, record: map<string, Resource>, entries: map<Key, Entry>, k: Key, e: Entry)
    requires Agrees(kind, record, entries) && e.Live?
    ensures Agrees(kind, if k.kind == kind then record[k.id := e.value] else record, entries[k := e])
  {
  }

  class ResourceCache {
    var entries: map<Key, Entry>
    var pendingDeletes: set<Key>
    var localDeletes: set<Key>
    var localInstances: map<Key, string>
    var notified: set<Key>
    var operations: map<nat, Operation>
    var generations: map<Key, nat>
    var readStates: map<Key, ReadState>
    var deferred: map<Key, Read>
    var epoch: nat
    var stamps: nat
    var nextOperation: nat
    const entityRecord: SnapshotRecord
    const taskRecord: SnapshotRecord
    const objectRecord: SnapshotRecord
    var snapshotValue: Snapshot
    var snapshotDirty: bool

    function Record(kind: Kind): SnapshotRecord {
      match kind
      case Entity => entityRecord
      case Task => taskRecord
      case Object => objectRecord
    }

    ghost function View(): Cache
      reads this
    {
      Cache(Table(entries), pendingDeletes, localDeletes, Table(localInstances), notified, Table(operations),
            Table(generations), Table(readStates), Table(deferred), epoch, stamps, nextOperation)
    }

    ghost predicate Shaped()
      reads this, entityRecord, taskRecord, objectRecord
    {
      entityRecord.Valid() && taskRecord.Valid() && objectRecord.Valid()
      && entityRecord != taskRecord && entityRecord != objectRecord && taskRecord != objectRecord
    }

    /** The three records hold exactly the entries that are not deleted, and a clean snapshot is the current one. */
    ghost predicate Valid()
      reads this, entityRecord, taskRecord, objectRecord
    {
      && Shaped()
      && Agrees(Entity, entityRecord.entries, entries) && Agrees(Task, taskRecord.entries, entries)
      && Agrees(Object, objectRecord.entries, entries)
      && (!snapshotDirty ==>
            snapshotValue == Snapshot(entityRecord.entries, taskRecord.entries, objectRecord.entries))
    }

    constructor ()
      ensures Valid() && View() == EMPTY
      ensures fresh(entityRecord) && fresh(taskRecord) && fresh(objectRecord)
    {
      entries, pendingDeletes, localDeletes, localInstances, notified := map[], {}, {}, map[], {};
      operations, generations, readStates, deferred := map[], map[], map[], map[];
      epoch, stamps, nextOperation := 0, 0, 0;
      entityRecord := new SnapshotRecord();
      taskRecord := new SnapshotRecord();
      objectRecord := new SnapshotRecord();
      snapshotValue := Snapshot(map[], map[], map[]);
      snapshotDirty := false;
    }

    /** `snapshot`: always the entries that are not deleted, whether rebuilt now or kept from before. */
    method TakeSnapshot() returns (s: Snapshot)
      requires Valid()
      modifies this, entityRecord, taskRecord, objectRecord
      ensures Valid() && View() == old(View()) && !snapshotDirty
      ensures forall k: Key, m: map<string, Resource> ::
                m == (match k.kind case Entity => s.entities case Task => s.tasks case Object => s.objects) ==>
                  (k.id in m <==> k in Visible(View())) && (k.id in m ==> m[k.id] == Visible(View())[k])
    {
      if snapshotDirty {
        var e := entityRecord.Rebuilt();
        var t := taskRecord.Rebuilt();
        var o := objectRecord.Rebuilt();
        snapshotValue := Snapshot(e, t, o);
        snapshotDirty := false;
      }
      return snapshotValue;
    }

    method BumpGeneration(k: Key)
      requires Valid()
      modifies `generations
      ensures Valid() && View() == Bump(old(View()), k)
    {
      generations := generations[k := (if k in generations then generations[k] else 0) + 1];
    }

    method Hide(k: Key, e: Entry)
      requires Valid() && e.Gone?
      modifies `entries, `snapshotDirty, entityRecord, taskRecord, objectRecord
      ensures Valid() && entries == old(entries)[k := e]
    {
      HiddenAgrees(Entity, entityRecord.entries, entries, k, e);
      HiddenAgrees(Task, taskRecord.entries, entries, k, e);
      HiddenAgrees(Object, objectRecord.entries, entries, k, e);
      hide Agrees;
      entries := entries[k := e];
      var removed := Record(k.kind).Remove(k.id);
      if removed { snapshotDirty := true; }
    }

    method Show(k: Key, e: Entry)
      requires Valid() && e.Live?
      modifies `entries, `snapshotDirty, entityRecord, taskRecord, objectRecord
      ensures Valid() && entries == old(entries)[k := e]
    {
      ShownAgrees(Entity, entityRecord.entries, entries, k, e);
      ShownAgrees(Task, taskRecord.entries, entries, k, e);
      ShownAgrees(Object, objectRecord.entries, entries, k, e);
      hide Agrees;
      entries := entries[k := e];
      Record(k.kind).Put(k.id, e.value);
      snapshotDirty := true;
    }

    method MarkDeleted(k: Key, version: nat, notify: bool)
      requires Valid()
      modifies this, entityRecord, taskRecord, objectRecord
      ensures Valid() && View() == MarkRemoteDelete(old(View()), k, version, notify)
    {
      hide MarkRemote, Agrees;
      BumpGeneration(k);
      if notify { operations := MarkedRemote(operations, k); }
      Hide(k, Gone(stamps, version));
      stamps := stamps + 1;
    }

    method IsBlocked(k: Key, r: Resource) returns (blocked: bool)
      ensures blocked <==> Blocked(operations, k, r)
    {
      blocked := false;
      var todo := operations.Keys;
      while todo != {} && !blocked
        invariant todo <= operations.Keys
        invariant blocked ==> Blocked(operations, k, r)
        invariant !blocked ==> forall o :: o in operations && o !in todo ==> !Blocks(operations[o], k, r)
        decreases |todo|
      {
        var o :| o in todo;
        todo := todo - {o};
        blocked := Blocks(operations[o], k, r);
      }
    }

    /** The two checks a point read must pass: its generation is current, and no local delete forbids it. */
    method PassesRead(k: Key, r: Resource, generation: nat) returns (passes: bool)
      requires Valid()
      modifies `operations
      ensures Valid()
      ensures passes <==> Generation(old(View()), k) == generation && !Blocked(old(operations), k, r)
      ensures operations == if Generation(old(View()), k) == generation && Blocked(old(operations), k, r)
                            then MarkReconcile(old(operations), k) else old(operations)
    {
      hide Blocked, MarkReconcile, Agrees;
      if (if k in generations then generations[k] else 0) != generation { return false; }
      var blocked := IsBlocked(k, r);
      if blocked { operations := MarkedReconcile(operations, k); }
      return !blocked;
    }

    method StoreResource(k: Key, r: Resource, version: nat, detail: bool)
      requires Valid()
      modifies this, entityRecord, taskRecord, objectRecord
      ensures Valid() && View() == Store(old(View()), k, r, version, detail)
    {
      hide Agrees;
      Show(k, Live(stamps, version, r, k.kind.Object? && detail));
      stamps := stamps + 1;
      pendingDeletes := pendingDeletes - {k};
      notified := notified - {k};
    }

    /** `acceptResource` */
    method AcceptResource(k: Key, r: Resource, version: Option<nat>, detail: bool, replaceSame: bool, generation: Option<nat>)
      returns (accepted: bool)
      requires Valid()
      modifies this, entityRecord, taskRecord, objectRecord
      ensures Valid() && (View(), accepted) == Accept(old(View()), k, r, version, detail, replaceSame, generation)
    {
      hide Blocked, MarkReconcile, Store, Supersedes, Agrees;
      if r.id != k.id { return false; }
      if generation.Some? {
        var passes := PassesRead(k, r, generation.value);
        if !passes { return false; }
      }
      var v := if version.Some? then version.value else EmbeddedVersion(k.kind, r);
      accepted := Supersedes(if k in entries then Some(entries[k]) else None, k.kind, v, detail, replaceSame);
      if accepted { StoreResource(k, r, v, detail); }
    }

    // ----- point reads --------------------------------------------------------------------------------

    method BeginRead(k: Key) returns (o: Read)
      requires Valid()
      modifies `readStates
      ensures Valid() && (View(), o) == BeginPointRead(old(View()), k)
    {
      var sequence := (if k in readStates then readStates[k].sequence else 0) + 1;
      readStates := readStates[k := ReadState(sequence, Pending)];
      o := Read(k, if k in generations then generations[k] else 0, epoch, sequence,
                if k in entries then Some(entries[k].stamp) else None);
    }

    method Settle(o: Read, status: Status)
      requires Valid()
      modifies `readStates, `deferred
      ensures Valid() && View() == SettleRead(old(View()), o, status)
    {
      if o.key !in readStates || readStates[o.key].sequence != o.sequence { return; }
      readStates := readStates[o.key := readStates[o.key].(status := status)];
      deferred := deferred - {o.key};
    }

    method ApplyRead(o: Read, r: Resource, version: Option<nat>, detail: bool, replaceSame: bool) returns (accepted: bool)
      requires Valid()
      modifies this, entityRecord, taskRecord, objectRecord
      ensures Valid() && (View(), accepted) == ApplyPointRead(old(View()), o, r, version, detail, replaceSame)
    {
      hide Accept, Agrees;
      if o.epoch != epoch { return false; }
      Settle(o, Succeeded);
      accepted := AcceptResource(o.key, r, version, detail, replaceSame, Some(o.generation));
    }

    method NotFoundAtOnce(o: Read) returns (deleted: bool)
      requires Valid()
      modifies this, entityRecord, taskRecord, objectRecord
      ensures Valid() && (View(), deleted) == NotFoundNow(old(View()), o)
    {
      hide MarkRemoteDelete, Bump, Agrees;
      var stamp := if o.key in entries then Some(entries[o.key].stamp) else None;
      if stamp != o.observed || (o.key in entries && entries[o.key].Gone?) { return false; }
      var version := if o.key in entries then entries[o.key].version else 0;
      BumpKeeps(View(), o.key, version);
      BumpGeneration(o.key);
      MarkDeleted(o.key, version, false);
      pendingDeletes := pendingDeletes + {o.key};
      return true;
    }

    method ReadNotFound(o: Read) returns (deleted: bool)
      requires Valid()
      modifies this, entityRecord, taskRecord, objectRecord
      ensures Valid() && (View(), deleted) == ApplyPointNotFound(old(View()), o)
    {
      hide NotFoundNow, Agrees;
      if o.epoch != epoch { return false; }
      if o.key in readStates && o.sequence < readStates[o.key].sequence {
        if readStates[o.key].status.Pending? { deferred := deferred[o.key := o]; }
        if !readStates[o.key].status.Failed? { return false; }
        deleted := NotFoundAtOnce(o);
        return;
      }
      Settle(o, NotFound);
      deleted := NotFoundAtOnce(o);
    }

    method ReadFailed(o: Read) returns (deleted: bool)
      requires Valid()
      modifies this, entityRecord, taskRecord, objectRecord
      ensures Valid() && (View(), deleted) == CompletePointRead(old(View()), o)
    {
      hide NotFoundNow, Agrees;
      if o.epoch != epoch || o.key !in readStates || readStates[o.key] != ReadState(o.sequence, Pending) { return false; }
      readStates := readStates[o.key := ReadState(o.sequence, Failed)];
      if o.key !in deferred { return false; }
      var waiting := deferred[o.key];
      deferred := deferred - {o.key};
      deleted := NotFoundAtOnce(waiting);
    }

    // ----- writes and feed events ---------------------------------------------------------------------

    method IsReplacement(e: Upsert) returns (replacing: bool)
      ensures replacing <==> Replacement(View(), e)
    {
      replacing := e.event.Update? && e.key in localInstances && e.resource.instance.Some?
                  && e.resource.instance.value != localInstances[e.key];
    }

    method NoteAccepted(e: Upsert)
      requires Valid()
      modifies this
      ensures Valid()
      ensures var c := old(View());
              View() == NoteUpsert(if e.event.Create? || Replacement(c, e) then ClearMarker(c, e.key) else c, e)
    {
      hide Note, Agrees;
      var replacing := IsReplacement(e);
      if e.event.Create? || replacing {
        localDeletes := localDeletes - {e.key};
        localInstances := localInstances - {e.key};
      }
      if !e.key.kind.Task? {
        operations := Noted(operations, e.key, e.event, if e.key in entries then Some(entries[e.key]) else None);
      }
    }

    method WriteApplied(e: Upsert, detail: bool) returns (changed: bool)
      requires Valid()
      modifies this, entityRecord, taskRecord, objectRecord
      ensures Valid() && (View(), changed) == ApplyWrite(old(View()), e, detail)
    {
      hide Accept, NoteUpsert, ClearMarker, Agrees;
      var replacing := IsReplacement(e);
      if e.event.Update? && e.key in localDeletes && !replacing { return false; }
      changed := AcceptResource(e.key, e.resource, Some(e.version), detail, false, None);
      if changed { NoteAccepted(e); }
    }

    method FeedUpsertReceived(e: Upsert) returns (changed: bool)
      requires Valid()
      modifies this, entityRecord, taskRecord, objectRecord
      ensures Valid() && (View(), changed) == ApplyFeedUpsert(old(View()), e)
    {
      hide Accept, NoteUpsert, ClearMarker, Agrees;
      if e.version <= (if e.key in entries then entries[e.key].version else 0) { return false; }
      if e.event.Update? && e.key in pendingDeletes { return false; }
      changed := AcceptResource(e.key, e.resource, Some(e.version), false, false, None);
      if changed && !e.key.kind.Task? { NoteAccepted(e); }
    }

    method FeedDeleteReceived(k: Key, version: nat)
      requires Valid()
      modifies this, entityRecord, taskRecord, objectRecord
      ensures Valid() && View() == ApplyFeedDelete(old(View()), k, version)
    {
      hide MarkRemote, Agrees;
      if version <= (if k in entries then entries[k].version else 0) { return; }
      pendingDeletes := pendingDeletes - {k};
      MarkDeleted(k, version, true);
      notified := notified - {k};
    }

    // ----- local deletes ------------------------------------------------------------------------------

    method StartLocalDelete(k: Key) returns (op: nat)
      requires Valid()
      modifies `generations, `operations, `nextOperation
      ensures Valid() && (View(), op) == BeginLocalDelete(old(View()), k)
    {
      BumpGeneration(k);
      op := nextOperation;
      operations := operations[op := Operation(k, if k in entries then Some(entries[k]) else None, None, false, false, false)];
      nextOperation := nextOperation + 1;
    }

    method MarkDeletedLocally(k: Key)
      requires Valid()
      modifies this, entityRecord, taskRecord, objectRecord
      ensures Valid() && View() == MarkLocalDelete(old(View()), k)
    {
      hide MarkRemoteDelete, Agrees;
      var instance := Instance(if k in entries then Some(entries[k]) else None);
      localInstances := if instance.Some? then localInstances[k := instance.value] else localInstances - {k};
      MarkKeepsSets(View(), k);
      MarkDeleted(k, if k in entries then entries[k].version else 0, true);
      pendingDeletes := pendingDeletes + {k};
      localDeletes := localDeletes + {k};
    }

    method EndLocalDelete(op: nat, deleted: bool) returns (reported: bool)
      requires Valid()
      modifies this, entityRecord, taskRecord, objectRecord
      ensures Valid() && (View(), reported) == FinishLocalDelete(old(View()), op, deleted)
    {
      hide MarkLocalDelete, StillOurs, Bump, Agrees;
      if op !in operations { return false; }
      var o := operations[op];
      var current := if o.key in entries then Some(entries[o.key]) else None;
      operations := operations - {op};
      BumpGeneration(o.key);
      var wasGone := o.observed.Some? && o.observed.value.Gone?;
      if wasGone && !deleted { return false; }
      if !StillOurs(o, current, wasGone && deleted) { return false; }
      MarkDeletedLocally(o.key);
      var removed := if current.Some? && current.value.Live? then current else o.observed;
      if (removed.None? || removed.value.Gone?) && !deleted { return false; }
      notified := notified + {o.key};
      return true;
    }

    method AbandonLocalDelete(op: nat)
      requires Valid()
      modifies `operations
      ensures Valid() && View() == CancelLocalDelete(old(View()), op)
    {
      operations := operations - {op};
    }

    // ----- hydration ----------------------------------------------------------------------------------

    method ClearEntries()
      requires Valid()
      modifies `entries, `snapshotDirty, entityRecord, taskRecord, objectRecord
      ensures Valid() && entries == map[]
    {
      entries := map[];
      entityRecord.Clear();
      taskRecord.Clear();
      objectRecord.Clear();
      snapshotDirty := true;
    }

    method ClearBookkeeping()
      requires Valid()
      modifies `pendingDeletes, `localDeletes, `localInstances, `notified
      ensures Valid() && View() == old(View()).(pendingDeletes := {}, localDeletes := {}, localInstances := Table(map[]), notified := {})
    {
      pendingDeletes, localDeletes, localInstances, notified := {}, {}, map[], {};
    }

    method ClearReads()
      requires Valid()
      modifies `operations, `generations, `readStates, `deferred, `epoch
      ensures Valid()
      ensures View() == var c := old(View());
                        c.(operations := Table(map[]), generations := Table(map[]), readStates := Table(map[]),
                           deferred := Table(map[]), epoch := c.epoch + 1)
    {
      operations, generations, readStates, deferred := map[], map[], map[], map[];
      epoch := epoch + 1;
    }

    method ClearAll()
      requires Valid()
      modifies this, entityRecord, taskRecord, objectRecord
      ensures Valid() && View() == Cleared(old(View()))
    {
      ClearEntries();
      ClearBookkeeping();
      ClearReads();
    }

    method ReplaceHydratedResources(resources: seq<(Key, Resource)>)
      requires Valid()
      modifies this, entityRecord, taskRecord, objectRecord
      ensures Valid() && View() == Hydrate(old(View()), resources)
    {
      hide Accept, Cleared, Agrees;
      ClearAll();
      ghost var cleared := View();
      for i := 0 to |resources|
        invariant Valid() && View() == AcceptAll(cleared, resources[..i])
      {
        assert resources[..i + 1][..i] == resources[..i];
        var (k, r) := resources[i];
        var _ := AcceptResource(k, r, None, k.kind.Object?, false, None);
      }
      assert resources[..|resources|] == resources;
    }
  }

  /** Tells the local deletes of `k` under way that it was deleted remotely. */
  method MarkedRemote(operations: map<nat, Operation>, k: Key) returns (marked: map<nat, Operation>)
    ensures marked == MarkRemote(operations, k)
  {
    marked := operations;
    var todo := operations.Keys;
    while todo != {}
      invariant todo <= marked.Keys == operations.Keys
      invariant forall o :: o in operations ==>
                  marked[o] == if o !in todo && operations[o].key == k then operations[o].(remote := true) else operations[o]
      decreases |todo|
    {
      var o :| o in todo;
      todo := todo - {o};
      if operations[o].key == k { marked := marked[o := operations[o].(remote := true)]; }
    }
  }

  /** Tells the local deletes of `k` that saw nothing to delete that a read was turned away meanwhile. */
  method MarkedReconcile(operations: map<nat, Operation>, k: Key) returns (marked: map<nat, Operation>)
    ensures marked == MarkReconcile(operations, k)
  {
    marked := operations;
    var todo := operations.Keys;
    while todo != {}
      invariant todo <= marked.Keys == operations.Keys
      invariant forall o :: o in operations ==>
                  marked[o] == if o !in todo && operations[o].key == k && operations[o].observed.None?
                               then operations[o].(reconcile := true) else operations[o]
      decreases |todo|
    {
      var o :| o in todo;
      todo := todo - {o};
      if operations[o].key == k && operations[o].observed.None? { marked := marked[o := operations[o].(reconcile := true)]; }
    }
  }

  /** `noteLocalDeleteUpsert`: local deletes learn what appeared under their identity. */
  method Noted(operations: map<nat, Operation>, k: Key, event: EventKind, current: Option<Entry>)
    returns (noted: map<nat, Operation>)
    ensures noted == Note(operations, k, event, current)
  {
    noted := operations;
    var todo := operations.Keys;
    while todo != {}
      invariant todo <= noted.Keys == operations.Keys
      invariant forall o :: o in operations ==>
                  noted[o] == if o in todo then operations[o] else NotedOne(operations[o], k, event, current)
      decreases |todo|
    {
      var o :| o in todo;
      todo := todo - {o};
      if operations[o].key == k {
        if event.Create? {
          noted := noted[o := operations[o].(recreated := true)];
        } else if operations[o].observed.None? && current.Some? {
          noted := noted[o := operations[o].(learned := current)];
        }
      }
    }
  }

  function NotedOne(o: Operation, k: Key, event: EventKind, current: Option<Entry>): Operation {
    if o.key != k then o
    else if event.Create? then o.(recreated := true)
    else if o.observed.None? && current.Some? then o.(learned := current) else o
  }

  lemma BumpKeeps(c: Cache, k: Key, version: nat)
    ensures MarkRemoteDelete(Bump(c, k), k, version, false).pendingDeletes == c.pendingDeletes
  {
  }

  lemma MarkKeepsSets(c: Cache, k: Key)
    ensures var n := MarkRemoteDelete(c, k, Version(c, k), true);
            n.pendingDeletes == c.pendingDeletes && n.localDeletes == c.localDeletes
  {
    hide MarkRemote;
  }

  // ----- cached object content ------------------------------------------------------------------------

  datatype Content = Content(key: string, bytes: seq<int>)

  /** `ObjectContentCache`: at most `maxEntries` contents, least recently used first. */
  class ObjectContentCache {
    const maxEntries: nat
    var entries: seq<Content>

    ghost predicate Valid()
      reads this
    {
      maxEntries > 0 && |entries| <= maxEntries && forall i, j :: 0 <= i < j < |entries| ==> entries[i].key != entries[j].key
    }

    constructor (maxEntries: nat)
      requires maxEntries > 0
      ensures Valid() && entries == [] && this.maxEntries == maxEntries
    {
      this.maxEntries := maxEntries;
      entries := [];
    }

    /** A hit becomes the most recently used entry. */
    method Get(key: string) returns (found: Option<seq<int>>)
      requires Valid()
      modifies this
      ensures Valid()
      ensures found.None? <==> forall e :: e in old(entries) ==> e.key != key
      ensures found.Some? ==> Content(key, found.value) in old(entries)
                              && entries == Others(old(entries), key) + [Content(key, found.value)]
      ensures found.None? ==> entries == old(entries)
    {
      var i := 0;
      while i < |entries| && entries[i].key != key
        invariant 0 <= i <= |entries| && forall j :: 0 <= j < i ==> entries[j].key != key
      {
        i := i + 1;
      }
      if i == |entries| { return None; }
      var e := entries[i];
      OthersSplice(entries, i);
      entries := entries[..i] + entries[i + 1..] + [e];
      return Some(e.bytes);
    }

    /** The new content is the most recently used; the oldest goes once there are too many. */
    method Put(key: string, bytes: seq<int>)
      requires Valid()
      modifies this
      ensures Valid()
      ensures var all := Others(old(entries), key) + [Content(key, bytes)];
              entries == all[if |all| > maxEntries then |all| - maxEntries else 0..]
    {
      OthersKeys(entries, key);
      entries := Others(entries, key) + [Content(key, bytes)];
      ghost var all := entries;
      while |entries| > maxEntries
        invariant |entries| <= |all| && entries == all[|all| - |entries|..]
        invariant |all| > maxEntries ==> |entries| >= maxEntries
        invariant |all| <= maxEntries ==> entries == all
      {
        entries := entries[1..];
      }
    }
  }

  function Others(entries: seq<Content>, key: string): seq<Content> {
    if entries == [] then []
    else
      var rest := Others(entries[..|entries| - 1], key);
      if entries[|entries| - 1].key == key then rest else rest + [entries[|entries| - 1]]
  }

  lemma {:induction false} OthersKeys(entries: seq<Content>, key: string)
    requires forall i, j :: 0 <= i < j < |entries| ==> entries[i].key != entries[j].key
    ensures var r := Others(entries, key);
            && (forall e :: e in r <==> e in entries && e.key != key)
            && (forall i, j :: 0 <= i < j < |r| ==> r[i].key != r[j].key)
  {
    if entries != [] {
      OthersKeys(entries[..|entries| - 1], key);
      assert entries == entries[..|entries| - 1] + [entries[|entries| - 1]];
    }
  }

  lemma {:induction false} OthersSplice(entries: seq<Content>, i: nat)
    requires i < |entries| && forall j, k :: 0 <= j < k < |entries| ==> entries[j].key != entries[k].key
    ensures Others(entries, entries[i].key) == entries[..i] + entries[i + 1..]
    decreases |entries|
  {
    var rest := entries[..|entries| - 1];
    if i == |entries| - 1 {
      NoneDropped(rest, entries[i].key);
      assert entries[..i] + entries[i + 1..] == rest;
    } else {
      OthersSplice(rest, i);
      assert entries[..i] + entries[i + 1..] == rest[..i] + rest[i + 1..] + [entries[|entries| - 1]];
    }
  }

  lemma {:induction false} NoneDropped(entries: seq<Content>, key: string)
    requires forall e :: e in entries ==> e.key != key
    ensures Others(entries, key) == entries
  {
    if entries != [] {
      NoneDropped(entries[..|entries| - 1], key);
      assert entries == entries[..|entries| - 1] + [entries[|entries| - 1]];
    }
  }
}
