/** Resources, publications and the order in which they replace one another (picture.ts). */
module PictureState {
  import opened Wrappers
  import opened LinkTypes

  const RECORD_SOURCE_SEQUENCE_REPLAY_MS: nat := 600_000
  const RECORD_SOURCE_SEQUENCE_LIMIT: nat := 4096
  const PICTURE_ENTRY_LIMIT: nat := 4096
  const PICTURE_RETAINED_BYTES_LIMIT: nat := 16_777_216
  const PICTURE_EVENT_BYTES_LIMIT: nat := 8_388_608
  const LINK_SOURCE_IDENTITY_LIMIT: nat := 4096

  datatype ResourceType = EntityType | TaskType | ObjectType

  datatype EntityKind = AssetEntity | TrackEntity | OtherEntity

  datatype Content =
    | Entity(kind: EntityKind, vital: bool, geometry: bool, version: nat, body: string)
    | Task(asset: string, terminal: bool, updatedAt: int, body: string)
    | Object(version: nat, body: string)

  datatype Key = Key(resource: ResourceType, id: string)

  datatype Confirmation = AwaitingCore | NotRequired | CoreConfirmed | CoreRejected

  datatype Freshness = Fresh | Stale | Degraded

  datatype Context = Context(source: Node, generation: nat, session: string, sequence: nat, receivedAt: int)

  datatype Publication =
    | Upsert(id: string, content: Content, atlasVersion: Option<nat>, observed: int, confirmation: Confirmation)
    | Deletion(resource: ResourceType, id: string, deletedVersion: nat, observed: int, confirmation: Confirmation)

  datatype Record = Record(key: Key, content: Content, context: Context, observed: int, version: Option<nat>,
                           freshness: Freshness, confirmation: Confirmation)

  datatype Tombstone = Tombstone(version: nat, confirmation: Confirmation, context: Context)

  datatype Event = Changed(key: Key, record: Record, stale: bool) | Removed(key: Key)

  function TypeOf(c: Content): ResourceType {
    match c
    case Entity(_, _, _, _, _) => EntityType
    case Task(_, _, _, _) => TaskType
    case Object(_, _) => ObjectType
  }

  function KeyOf(p: Publication): Key {
    match p
    case Upsert(id, content, _, _, _) => Key(TypeOf(content), id)
    case Deletion(resource, id, _, _, _) => Key(resource, id)
  }

  /** `resourceVersion` */
  function VersionOf(p: Publication): Option<nat> {
    match p
    case Deletion(_, _, v, _, _) => Some(v)
    case Upsert(_, content, atlas, _, _) =>
      match content
      case Task(_, _, _, _) => None
      case Entity(_, _, _, v, _) => if atlas.Some? then atlas else Some(v)
      case Object(v, _) => if atlas.Some? then atlas else Some(v)
  }

  function Rank(c: Confirmation): nat { if c.CoreConfirmed? || c.CoreRejected? then 2 else 1 }

  predicate SameSession(a: Context, b: Context) {
    a.source == b.source && a.generation == b.generation && a.session == b.session
  }

  /** `isNewer` */
  predicate IsNewer(p: Publication, current: Record, context: Context) {
    var next := VersionOf(p);
    var newerGeneration := current.context.source == context.source && context.generation > current.context.generation;
    var later := SameSession(current.context, context) && context.sequence > current.context.sequence;
    if next.Some? && current.version.Some? then
      if next != current.version then next.value > current.version.value
      else if Rank(p.confirmation) > Rank(current.confirmation) then true
      else if Rank(p.confirmation) < Rank(current.confirmation) then p.observed > current.observed
      else if newerGeneration then p.observed >= current.observed
      else if SameSession(current.context, context) then later
      else p.observed > current.observed
    else if p.Upsert? && p.content.Task? && current.content.Task? then
      if Rank(p.confirmation) > Rank(current.confirmation) then true
      else if p.content.updatedAt != current.content.updatedAt then p.content.updatedAt > current.content.updatedAt
      else if newerGeneration then true
      else if Rank(p.confirmation) < Rank(current.confirmation) then false
      else later
    else true
  }

  /** `canReplaceTombstone` */
  predicate CanReplace(p: Publication, t: Tombstone) {
    var v := VersionOf(p);
    if v.None? || v.value != t.version then v.Some? && v.value > t.version
    else Rank(p.confirmation) > Rank(t.confirmation)
  }

  /** A record is never replaced by a lower version, nor a confirmed one at its version by something not observed later. */
  lemma NewerNeverOlder(p: Publication, current: Record, context: Context)
    requires IsNewer(p, current, context) && VersionOf(p).Some? && current.version.Some?
    ensures VersionOf(p).value >= current.version.value
    ensures VersionOf(p).value == current.version.value && Rank(p.confirmation) < Rank(current.confirmation) ==>
              p.observed > current.observed
    ensures (VersionOf(p).value == current.version.value && SameSession(current.context, context)
             && Rank(p.confirmation) == Rank(current.confirmation)) ==> context.sequence > current.context.sequence
  {
  }

  function NextRecord(p: Publication, c: Context, freshness: Freshness): Record
    requires p.Upsert?
  {
    Record(KeyOf(p), p.content, c, p.observed, VersionOf(p), freshness, p.confirmation)
  }

  /** `p` outranks `q`, yet `q` speaks of a later moment. */
  predicate OutranksLater(p: Publication, cp: Context, q: Publication, cq: Context)
    requires p.Upsert? && q.Upsert?
  {
    && Rank(p.confirmation) > Rank(q.confirmation)
    && if p.content.Task? && q.content.Task? then
         || q.content.updatedAt > p.content.updatedAt
         || (q.content.updatedAt == p.content.updatedAt && cq.source == cp.source && cq.generation > cp.generation)
       else VersionOf(p) == VersionOf(q) && q.observed > p.observed
  }

  /**
    Two publications of one resource are each newer than the other exactly when the one of higher confirmation rank
    speaks of the earlier moment: then each replaces the other whenever it comes later.
    */
  lemma MutuallyNewer(p: Publication, cp: Context, q: Publication, cq: Context, fp: Freshness, fq: Freshness)
    requires p.Upsert? && q.Upsert? && KeyOf(p) == KeyOf(q)
    ensures IsNewer(p, NextRecord(q, cq, fq), cp) && IsNewer(q, NextRecord(p, cp, fp), cq) <==>
            OutranksLater(p, cp, q, cq) || OutranksLater(q, cq, p, cp)
  {
  }

  /** One version of a track, confirmed by Core and, observed later, as its Asset saw it: neither settles the picture. */
  lemma TrackContested()
    ensures var content := Entity(TrackEntity, true, false, 7, "track");
            var core, seen := Upsert("t", content, Some(7), 100, CoreConfirmed), Upsert("t", content, Some(7), 200, AwaitingCore);
            var gateway, asset := Context(Node(Gateway, "g"), 1, "a", 1, 300), Context(Node(Asset, "x"), 1, "b", 1, 300);
            && IsNewer(core, NextRecord(seen, asset, Fresh), gateway)
            && IsNewer(seen, NextRecord(core, gateway, Fresh), asset)
  {
    var content := Entity(TrackEntity, true, false, 7, "track");
    var core, seen := Upsert("t", content, Some(7), 100, CoreConfirmed), Upsert("t", content, Some(7), 200, AwaitingCore);
    MutuallyNewer(core, Context(Node(Gateway, "g"), 1, "a", 1, 300), seen, Context(Node(Asset, "x"), 1, "b", 1, 300),
                  Fresh, Fresh);
  }

  /** The same for a Task: the update Core has rejected and a later one that still waits for Core. */
  lemma TaskContested()
    ensures var rejected := Upsert("k", Task("x", false, 100, "old"), None, 100, CoreRejected);
            var later := Upsert("k", Task("x", false, 200, "new"), None, 200, AwaitingCore);
            var gateway, asset := Context(Node(Gateway, "g"), 1, "a", 1, 300), Context(Node(Asset, "x"), 1, "b", 1, 300);
            && IsNewer(rejected, NextRecord(later, asset, Fresh), gateway)
            && IsNewer(later, NextRecord(rejected, gateway, Fresh), asset)
  {
    var rejected := Upsert("k", Task("x", false, 100, "old"), None, 100, CoreRejected);
    var later := Upsert("k", Task("x", false, 200, "new"), None, 200, AwaitingCore);
    MutuallyNewer(rejected, Context(Node(Gateway, "g"), 1, "a", 1, 300), later, Context(Node(Asset, "x"), 1, "b", 1, 300),
                  Fresh, Fresh);
  }

  // ----- sizes ----------------------------------------------------------------------------------------

  /** The length of the canonical text of records, tombstones and events; every text has at least one byte. */
  datatype Sizes = Sizes(record: Record -> nat, tombstone: Tombstone -> nat, event: Event -> nat)

  /** A record is charged as if degraded, so that a change of freshness never changes its size. */
  function RecordBytes(z: Sizes, r: Record): nat { 1 + z.record(r.(freshness := Degraded)) }

  function TombstoneBytes(z: Sizes, t: Tombstone): nat { 1 + z.tombstone(t) }

  function EventBytes(z: Sizes, e: Event): nat { 1 + z.event(e) }

  function BytesAt(m: map<Key, nat>, k: Key): nat { if k in m then m[k] else 0 }

  lemma SumPut(m: map<Key, nat>, k: Key, n: nat)
    ensures Sum(m[k := n]) == Sum(m) - BytesAt(m, k) + n
  {
    SumDrop(m[k := n], k);
    assert m[k := n] - {k} == m - {k};
    if k in m {
      SumDrop(m, k);
    } else {
      assert m - {k} == m;
    }
  }

  lemma SumRemove(m: map<Key, nat>, k: Key)
    ensures Sum(m - {k}) == Sum(m) - BytesAt(m, k)
  {
    if k in m {
      SumDrop(m, k);
    } else {
      assert m - {k} == m;
    }
  }

  // ----- the accounting -------------------------------------------------------------------------------

  ghost predicate Keyed(records: map<Key, Record>, tombstones: map<Key, Tombstone>, bytes: map<Key, nat>) {
    records.Keys !! tombstones.Keys && bytes.Keys == records.Keys + tombstones.Keys
  }

  ghost predicate Charged(z: Sizes, records: map<Key, Record>, tombstones: map<Key, Tombstone>, bytes: map<Key, nat>) {
    && (forall k :: k in records ==> k in bytes && bytes[k] == RecordBytes(z, records[k]))
    && (forall k :: k in tombstones ==> k in bytes && bytes[k] == TombstoneBytes(z, tombstones[k]))
  }

  ghost predicate Bounded(bytes: map<Key, nat>, total: nat) {
    total == Sum(bytes) && total <= PICTURE_RETAINED_BYTES_LIMIT && |bytes| <= PICTURE_ENTRY_LIMIT
  }

  /** Every entry is charged its own size; records and tombstones never share a key; the totals are bounded. */
  ghost predicate Accounted(z: Sizes, records: map<Key, Record>, tombstones: map<Key, Tombstone>, bytes: map<Key, nat>,
                            total: nat)
  {
    Keyed(records, tombstones, bytes) && Charged(z, records, tombstones, bytes) && Bounded(bytes, total)
  }

  predicate CanRetain(bytes: map<Key, nat>, total: int, k: Key, size: nat) {
    (BytesAt(bytes, k) > 0 || |bytes| < PICTURE_ENTRY_LIMIT)
    && total - BytesAt(bytes, k) + size <= PICTURE_RETAINED_BYTES_LIMIT
  }

  lemma KeysGrow(m: map<Key, nat>, k: Key, n: nat)
    ensures |m[k := n]| == |m| + (if k in m then 0 else 1)
  {
    assert m[k := n].Keys == m.Keys + {k} && |m[k := n]| == |m[k := n].Keys| && |m| == |m.Keys|;
    if k in m {
      assert m.Keys + {k} == m.Keys;
    }
  }

  lemma PutBounded(bytes: map<Key, nat>, total: nat, k: Key, size: nat)
    requires Bounded(bytes, total) && size > 0
    requires CanRetain(bytes, total, k, size) || (k in bytes && bytes[k] == size)
    ensures total - BytesAt(bytes, k) + size >= 0
    ensures Bounded(bytes[k := size], total - BytesAt(bytes, k) + size)
  {
    SumPut(bytes, k, size);
    KeysGrow(bytes, k, size);
    hide Sum;
  }

  lemma RecordKeyed(records: map<Key, Record>, tombstones: map<Key, Tombstone>, bytes: map<Key, nat>, k: Key, r: Record,
                    n: nat)
    requires Keyed(records, tombstones, bytes)
    ensures Keyed(records[k := r], tombstones - {k}, bytes[k := n])
  {
  }

  lemma RecordCharged(z: Sizes, records: map<Key, Record>, tombstones: map<Key, Tombstone>, bytes: map<Key, nat>, k: Key,
                      r: Record)
    requires Charged(z, records, tombstones, bytes)
    ensures Charged(z, records[k := r], tombstones - {k}, bytes[k := RecordBytes(z, r)])
  {
    hide RecordBytes, TombstoneBytes;
  }

  lemma TombstoneKeyed(records: map<Key, Record>, tombstones: map<Key, Tombstone>, bytes: map<Key, nat>, k: Key,
                       t: Tombstone, n: nat)
    requires Keyed(records, tombstones, bytes)
    ensures Keyed(records - {k}, tombstones[k := t], bytes[k := n])
  {
  }

  lemma TombstoneCharged(z: Sizes, records: map<Key, Record>, tombstones: map<Key, Tombstone>, bytes: map<Key, nat>,
                         k: Key, t: Tombstone)
    requires Charged(z, records, tombstones, bytes)
    ensures Charged(z, records - {k}, tombstones[k := t], bytes[k := TombstoneBytes(z, t)])
  {
    hide RecordBytes, TombstoneBytes;
  }

  lemma PositiveRecord(z: Sizes, r: Record)
    ensures RecordBytes(z, r) > 0
  {
  }

  lemma PositiveTombstone(z: Sizes, t: Tombstone)
    ensures TombstoneBytes(z, t) > 0
  {
  }

  lemma SameCharge(z: Sizes, records: map<Key, Record>, tombstones: map<Key, Tombstone>, bytes: map<Key, nat>, k: Key,
                   n: nat)
    requires Keyed(records, tombstones, bytes) && Charged(z, records, tombstones, bytes)
    requires k in records && RecordBytes(z, records[k]) == n
    ensures k in bytes && bytes[k] == n
  {
    hide RecordBytes, TombstoneBytes;
  }

  lemma RetainRecordOk(z: Sizes, records: map<Key, Record>, tombstones: map<Key, Tombstone>, bytes: map<Key, nat>,
                       total: nat, k: Key, r: Record)
    requires Accounted(z, records, tombstones, bytes, total)
    requires CanRetain(bytes, total, k, RecordBytes(z, r))
             || (k in records && RecordBytes(z, records[k]) == RecordBytes(z, r))
    ensures total - BytesAt(bytes, k) + RecordBytes(z, r) >= 0
    ensures Accounted(z, records[k := r], tombstones - {k}, bytes[k := RecordBytes(z, r)],
                      total - BytesAt(bytes, k) + RecordBytes(z, r))
  {
    hide Keyed, Charged, Bounded, CanRetain, BytesAt, RecordBytes, TombstoneBytes;
    var n := RecordBytes(z, r);
    if k in records && RecordBytes(z, records[k]) == n {
      SameCharge(z, records, tombstones, bytes, k, n);
    }
    PositiveRecord(z, r);
    PutBounded(bytes, total, k, n);
    RecordKeyed(records, tombstones, bytes, k, r, n);
    RecordCharged(z, records, tombstones, bytes, k, r);
  }

  lemma RetainTombstoneOk(z: Sizes, records: map<Key, Record>, tombstones: map<Key, Tombstone>, bytes: map<Key, nat>,
                          total: nat, k: Key, t: Tombstone)
    requires Accounted(z, records, tombstones, bytes, total) && CanRetain(bytes, total, k, TombstoneBytes(z, t))
    ensures total - BytesAt(bytes, k) + TombstoneBytes(z, t) >= 0
    ensures Accounted(z, records - {k}, tombstones[k := t], bytes[k := TombstoneBytes(z, t)],
                      total - BytesAt(bytes, k) + TombstoneBytes(z, t))
  {
    hide Keyed, Charged, Bounded, CanRetain, BytesAt, RecordBytes, TombstoneBytes;
    PositiveTombstone(z, t);
    PutBounded(bytes, total, k, TombstoneBytes(z, t));
    TombstoneKeyed(records, tombstones, bytes, k, t, TombstoneBytes(z, t));
    TombstoneCharged(z, records, tombstones, bytes, k, t);
  }

  lemma RemoveBounded(bytes: map<Key, nat>, total: nat, k: Key)
    requires Bounded(bytes, total) && k in bytes
    ensures total - BytesAt(bytes, k) >= 0 && Bounded(bytes - {k}, total - BytesAt(bytes, k))
  {
    SumRemove(bytes, k);
    hide Sum;
    assert (bytes - {k}).Keys == bytes.Keys - {k};
    assert |bytes - {k}| == |(bytes - {k}).Keys| && |bytes| == |bytes.Keys|;
    assert bytes.Keys == (bytes.Keys - {k}) + {k};
  }

  lemma RemoveRecordOk(z: Sizes, records: map<Key, Record>, tombstones: map<Key, Tombstone>, bytes: map<Key, nat>,
                       total: nat, k: Key)
    requires Accounted(z, records, tombstones, bytes, total) && k in records
    ensures total - BytesAt(bytes, k) >= 0
    ensures Accounted(z, records - {k}, tombstones, bytes - {k}, total - BytesAt(bytes, k))
  {
    hide Bounded, BytesAt, RecordBytes, TombstoneBytes;
    RemoveBounded(bytes, total, k);
  }

  // ----- the event log --------------------------------------------------------------------------------

  function Applied(records: map<Key, Record>, e: Event): map<Key, Record> {
    match e
    case Changed(k, r, _) => records[k := r]
    case Removed(k) => records - {k}
  }

  /** What a client holds after the events, starting from `records`. */
  function Replay(records: map<Key, Record>, events: seq<Event>): map<Key, Record> {
    if events == [] then records else Applied(Replay(records, events[..|events| - 1]), events[|events| - 1])
  }

  lemma {:induction false} ReplayOn(records: map<Key, Record>, a: seq<Event>, b: seq<Event>)
    ensures Replay(records, a + b) == Replay(Replay(records, a), b)
  {
    if b == [] {
      assert a + b == a;
    } else {
      ReplayOn(records, a, b[..|b| - 1]);
      assert (a + b)[..|a + b| - 1] == a + b[..|b| - 1];
    }
  }

  function Total(bytes: seq<nat>): nat { if bytes == [] then 0 else bytes[0] + Total(bytes[1..]) }

  lemma {:induction false} TotalAppend(bytes: seq<nat>, n: nat)
    ensures Total(bytes + [n]) == Total(bytes) + n
  {
    if bytes == [] {
      assert bytes + [n] == [n] && [n][1..] == [];
    } else {
      assert (bytes + [n])[1..] == bytes[1..] + [n];
      TotalAppend(bytes[1..], n);
    }
  }

  /** The buffer holds the last events of the history and knows their sizes. */
  ghost predicate Covers(z: Sizes, history: seq<Event>, events: seq<Event>, sizes: seq<nat>, total: nat) {
    && |events| == |sizes| && |events| <= |history|
    && events == history[|history| - |events|..]
    && (forall i :: 0 <= i < |events| ==> sizes[i] == EventBytes(z, events[i]))
    && total == Total(sizes)
  }

  /** It does so within its limits. */
  ghost predicate Buffered(z: Sizes, history: seq<Event>, events: seq<Event>, sizes: seq<nat>, total: nat, limit: nat) {
    Covers(z, history, events, sizes, total) && |events| <= limit && total <= PICTURE_EVENT_BYTES_LIMIT
  }

  /** The event that left the buffer last, or that never entered it. */
  function Forgotten(history: seq<Event>, events: seq<Event>): Event
    requires |events| < |history|
  {
    history[|history| - |events| - 1]
  }

  /** The buffer holds as many of the last events as its limits allow. */
  ghost predicate Fullest(z: Sizes, history: seq<Event>, events: seq<Event>, total: nat, limit: nat)
    requires |events| < |history|
  {
    |events| == limit || total + EventBytes(z, Forgotten(history, events)) > PICTURE_EVENT_BYTES_LIMIT
  }

  lemma CoversOne(z: Sizes, history: seq<Event>, events: seq<Event>, sizes: seq<nat>, total: nat, e: Event)
    requires Covers(z, history, events, sizes, total)
    ensures Covers(z, history + [e], events + [e], sizes + [EventBytes(z, e)], total + EventBytes(z, e))
  {
    TotalAppend(sizes, EventBytes(z, e));
    hide EventBytes;
    assert (history + [e])[|history| - |events|..] == history[|history| - |events|..] + [e];
  }

  /** The trimming loop of `emit`. */
  method TrimEvents(z: Sizes, ghost history: seq<Event>, events: seq<Event>, sizes: seq<nat>, total: nat, limit: nat)
    returns (kept: seq<Event>, keptSizes: seq<nat>, keptTotal: nat)
    requires Covers(z, history, events, sizes, total)
    ensures Buffered(z, history, kept, keptSizes, keptTotal, limit) && |kept| <= |events|
    ensures |kept| < |events| ==> Fullest(z, history, kept, keptTotal, limit)
  {
    kept, keptSizes, keptTotal := events, sizes, total;
    while |kept| > limit || keptTotal > PICTURE_EVENT_BYTES_LIMIT
      invariant Covers(z, history, kept, keptSizes, keptTotal) && |kept| <= |events|
      invariant |kept| < |events| ==>
                  (|kept| >= limit || keptTotal + EventBytes(z, Forgotten(history, kept)) > PICTURE_EVENT_BYTES_LIMIT)
      decreases |kept|
    {
      ghost var first := kept[0];
      kept, keptSizes, keptTotal := kept[1..], keptSizes[1..], keptTotal - keptSizes[0];
      assert Forgotten(history, kept) == first;
    }
  }

  /**
    For every cursor the buffer still covers, applying the later events to the snapshot of that revision gives
    the current records, however the buffer was trimmed.
    */
  lemma EventsRebuild(z: Sizes, history: seq<Event>, events: seq<Event>, sizes: seq<nat>, total: nat, limit: nat,
                      records: map<Key, Record>, revision: nat)
    requires Buffered(z, history, events, sizes, total, limit) && Replay(map[], history) == records
    requires |history| - |events| <= revision <= |history|
    ensures var after := events[revision - (|history| - |events|)..];
            after == history[revision..] && Replay(Replay(map[], history[..revision]), after) == records
  {
    ReplayOn(map[], history[..revision], history[revision..]);
    assert history[..revision] + history[revision..] == history;
  }
}
