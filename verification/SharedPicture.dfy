/** The replicated store of resources, its tombstones and its event log (picture.ts). */
module SharedPictures {
  import opened Wrappers
  import opened LinkTypes
  import opened PictureState
  import opened PictureRules

  datatype CursorError = WrongCursor | CursorExpired

  function Appended<T(==)>(order: seq<T>, k: T): seq<T> { if k in order then order else order + [k] }

  lemma Smaller<K, V>(m: map<K, V>, n: map<K, V>)
    requires m.Keys <= n.Keys
    ensures |m| <= |n|
  {
    SubsetSize(m.Keys, n.Keys);
    assert |m| == |m.Keys| && |n| == |n.Keys|;
  }

  lemma {:induction false} SubsetSize<K>(a: set<K>, b: set<K>)
    requires a <= b
    ensures |a| <= |b|
    decreases |a|
  {
    if a != {} {
      var x :| x in a;
      SubsetSize(a - {x}, b - {x});
    }
  }

  lemma GrowsByOne<K, V>(m: map<K, V>, k: K, v: V)
    ensures |m[k := v]| == |m| + (if k in m then 0 else 1)
  {
    assert m[k := v].Keys == m.Keys + {k} && |m[k := v]| == |m[k := v].Keys| && |m| == |m.Keys|;
    if k in m {
      assert m.Keys + {k} == m.Keys;
    }
  }

  lemma AppendedListed(order: seq<Key>, records: map<Key, Record>, k: Key, r: Record)
    requires Listed(order, records)
    ensures Listed(Appended(order, k), records[k := r])
  {
  }

  lemma SameSize(z: Sizes, r: Record, f: Freshness)
    ensures RecordBytes(z, r.(freshness := f)) == RecordBytes(z, r)
  {
    assert r.(freshness := f).(freshness := Degraded) == r.(freshness := Degraded);
  }

  lemma MarkNone(order: seq<Key>, was: map<Key, Record>, past: seq<Event>, asset: string, connected: bool)
    ensures MarkEvents(order[..0], was, asset, connected) == [] && Replay(was, []) == was && past + [] == past
  {
  }

  lemma Extended(past: seq<Event>, events: seq<Event>, e: Event)
    ensures past + (events + [e]) == past + events + [e]
  {
  }

  /** Visiting one more key adds its marking event, if it has one, and applies it. */
  lemma MarkStep(order: seq<Key>, was: map<Key, Record>, i: nat, asset: string, connected: bool)
    requires Listed(order, was) && i < |order|
    ensures forall k <- order[..i] + order[..i + 1] :: k in was
    ensures var k, now := order[i], Replay(was, MarkEvents(order[..i], was, asset, connected));
            && k in was && k in now && now[k] == was[k]
            && if OpenTask(now[k], asset) && now[k].freshness != Freshly(connected) then
                 var r := now[k].(freshness := Freshly(connected));
                 && MarkEvents(order[..i + 1], was, asset, connected) ==
                    MarkEvents(order[..i], was, asset, connected) + [Changed(k, r, !connected)]
                 && Replay(was, MarkEvents(order[..i + 1], was, asset, connected)) == now[k := r]
               else
                 MarkEvents(order[..i + 1], was, asset, connected) == MarkEvents(order[..i], was, asset, connected)
  {
    hide Replay;
    var k := order[i];
    assert order[..i + 1][..i] == order[..i] && order[..i + 1][i] == k;
    assert k !in order[..i];
    MarkReplays(order[..i], was, asset, connected);
    var marks := MarkEvents(order[..i], was, asset, connected);
    LastReplayed(was, marks, Changed(k, Reconnected(was[k], asset, connected), !connected));
    assert marks + [] == marks;
  }

  /** Equal charges for every entry mean equal tables. */
  lemma ChargesFixBytes(z: Sizes, records: map<Key, Record>, tombstones: map<Key, Tombstone>, bytes: map<Key, nat>,
                        next: map<Key, Record>, nextBytes: map<Key, nat>, k: Key)
    requires Keyed(records, tombstones, bytes) && Charged(z, records, tombstones, bytes)
    requires Keyed(next, tombstones, nextBytes) && Charged(z, next, tombstones, nextBytes)
    requires k in records && k in next && next == records[k := next[k]]
    requires RecordBytes(z, next[k]) == RecordBytes(z, records[k])
    ensures bytes == nextBytes
  {
    hide RecordBytes, TombstoneBytes;
    assert bytes.Keys == nextBytes.Keys;
    forall q | q in bytes ensures bytes[q] == nextBytes[q] {
      if q in records && q != k {
        assert next[q] == records[q];
      }
    }
  }

  lemma RetainedSame(z: Sizes, records: map<Key, Record>, order: seq<Key>, tombstones: map<Key, Tombstone>,
                     bytes: map<Key, nat>, total: nat, k: Key, r: Record, nextBytes: map<Key, nat>, nextTotal: nat)
    requires Accounted(z, records, tombstones, bytes, total) && Listed(order, records) && k in records
    requires Accounted(z, records[k := r], tombstones - {k}, nextBytes, nextTotal)
    requires RecordBytes(z, records[k]) == RecordBytes(z, r)
    ensures tombstones - {k} == tombstones && Appended(order, k) == order && bytes == nextBytes && total == nextTotal
  {
    hide Charged, RecordBytes, Sum;
    assert tombstones - {k} == tombstones;
    ChargesFixBytes(z, records, tombstones, bytes, records[k := r], nextBytes, k);
  }

  /** The history has grown, and replaying what is new turns the earlier records into the later ones. */
  ghost predicate Follows(was: map<Key, Record>, past: seq<Event>, records: map<Key, Record>, history: seq<Event>) {
    |past| <= |history| && history[..|past|] == past && Replay(was, history[|past|..]) == records
  }

  lemma FollowsBy(was: map<Key, Record>, past: seq<Event>, news: seq<Event>)
    ensures Follows(was, past, Replay(was, news), past + news)
  {
    assert (past + news)[|past|..] == news;
  }

  lemma FollowsSelf(was: map<Key, Record>, past: seq<Event>)
    ensures Follows(was, past, was, past)
  {
    assert past[|past|..] == [];
  }

  lemma FollowsThrough(a: map<Key, Record>, p: seq<Event>, b: map<Key, Record>, q: seq<Event>, c: map<Key, Record>,
                       r: seq<Event>)
    requires Follows(a, p, b, q) && Follows(b, q, c, r)
    ensures Follows(a, p, c, r)
  {
    hide Replay;
    assert r[|p|..] == q[|p|..] + r[|q|..];
    assert r[..|p|] == r[..|q|][..|p|];
    ReplayOn(a, q[|p|..], r[|q|..]);
  }

  lemma FollowsCurrent(was: map<Key, Record>, past: seq<Event>, records: map<Key, Record>, history: seq<Event>)
    requires Follows(was, past, records, history) && Replay(map[], past) == was
    ensures Replay(map[], history) == records
  {
    hide Replay;
    assert history == past + history[|past|..];
    ReplayOn(map[], past, history[|past|..]);
  }

  /** A removal announced after the changes it caused. */
  lemma FollowsRemoval(was: map<Key, Record>, past: seq<Event>, order: seq<Key>, k: Key, asset: string)
    requires Listed(order, was - {k})
    ensures var rest := MarkEvents(order, was - {k}, asset, false);
            Follows(was, past, Marked(was - {k}, asset, false), past + rest + [Removed(k)])
  {
    hide Marked, Replay;
    var rest := MarkEvents(order, was - {k}, asset, false);
    MarkTouches(order, was - {k}, asset, false);
    RemovalLast(was, rest, k);
    MarkMeans(order, was - {k}, asset, false);
    assert past + rest + [Removed(k)] == past + (rest + [Removed(k)]);
    FollowsBy(was, past, rest + [Removed(k)]);
  }

  lemma FollowsEvent(was: map<Key, Record>, past: seq<Event>, e: Event)
    ensures Follows(was, past, Applied(was, e), past + [e])
  {
    assert Replay(was, []) == was;
    LastReplayed(was, [], e);
    assert [] + [e] == [e];
    FollowsBy(was, past, [e]);
  }

  lemma FollowsChange(was: map<Key, Record>, past: seq<Event>, k: Key, r: Record)
    ensures Follows(was, past, was[k := r], past + [Changed(k, r, false)])
  {
    FollowsEvent(was, past, Changed(k, r, false));
  }

  lemma MarkedTwice(records: map<Key, Record>, asset: string, k: Key)
    ensures Marked(Marked(records, asset, false) - {k}, asset, false) == Marked(records - {k}, asset, false)
  {
  }

  lemma MarkedKeys(records: map<Key, Record>, asset: string, connected: bool)
    ensures Marked(records, asset, connected).Keys == records.Keys
    ensures OwnKeys(records) ==> OwnKeys(Marked(records, asset, connected))
  {
  }

  lemma AlreadyConnected(connectivity: map<string, Connectivity>, asset: string, now: int)
    ensures var next := connectivity[asset := Connectivity(true, Some(now))];
            SetConnected(next, asset, true) == next
  {
  }

  /** The position taken by a source whose Asset, if it is one, is known. */
  function Advanced(s: Store, source: Node, p: Position): Store {
    var next := s.(sources := s.sources.Put(source, p));
    if !Restarts(s.sources.m, source, p) then next
    else if source.role == Asset then
      next.(records := Table(Marked(s.records.m, source.id, false)),
            connectivity := Table(SetConnected(s.connectivity.m, source.id, false)),
            sequences := Table(Forget(s.sequences.m, source)))
    else next.(sequences := Table(Forget(s.sequences.m, source)))
  }

  lemma ActivatedMeans(s: Store, source: Node, p: Position)
    ensures source in s.sources.m && p == s.sources.m[source] ==>
              Activated(s, source, p) == s.(connectivity := Table(KnownAssets(s.connectivity.m, source)))
  {
    hide SetConnected, Marked, KnownAssets, Forget;
    if source in s.sources.m && p == s.sources.m[source] {
      assert s.sources.m[source := p] == s.sources.m;
    }
  }

  lemma AdvancedMeans(s: Store, source: Node, p: Position)
    ensures Activated(s, source, p) ==
            Advanced(s.(connectivity := Table(KnownAssets(s.connectivity.m, source))), source, p)
  {
    hide SetConnected, Marked, KnownAssets, Forget;
  }

  /** The Asset of an upsert can still be admitted once its source has been activated. */
  lemma AdmittedStill(s: Store, p: Publication, c: Context, current: Option<Record>, position: Position)
    requires CanAdmit(s.connectivity.m, ConnectivityAsset(p, c.source, current, s.connectivity.m)) && p.Upsert?
    ensures CanAdmit(Activated(s, c.source, position).connectivity.m,
                     ConnectivityAsset(p, c.source, current, s.connectivity.m))
  {
    hide Marked;
    assert ActivatedConnectivity(s.sources.m, s.connectivity.m, c.source, position).Keys ==
           KnownAssets(s.connectivity.m, c.source).Keys;
    var known := KnownAssets(s.connectivity.m, c.source);
    SameKeysSize(ActivatedConnectivity(s.sources.m, s.connectivity.m, c.source, position), known);
  }

  lemma SameKeysSize<K, V>(m: map<K, V>, n: map<K, V>)
    requires m.Keys == n.Keys
    ensures |m| == |n|
  {
    assert |m| == |m.Keys| && |n| == |n.Keys|;
  }

  lemma Restored(sequences: map<RecordSource, SourceSequence>, q: RecordSource, mark: SourceSequence)
    ensures q in sequences ==> sequences[q := mark][q := sequences[q]] == sequences
    ensures q !in sequences ==> sequences[q := mark] - {q} == sequences
  {
  }

  lemma SilenceNone(records: map<Key, Record>, connectivity: map<string, Connectivity>, now: int)
    ensures SilencedRecords(records, connectivity, [], now) == records
    ensures SilencedConnectivity(connectivity, [], now) == connectivity
  {
  }

  lemma RefreshNone(records: map<Key, Record>, connectivity: map<string, Connectivity>, now: int)
    ensures RefreshedRecords(records, [], now) == records
    ensures RefreshedConnectivity(connectivity, records, [], now) == connectivity
  {
  }

  /** Degrading the Tasks of an Asset does not touch the Asset's own record, nor remove anything. */
  lemma StillThere(records: map<Key, Record>, r: Record, k: Key)
    requires k in records && records[k] == r
    ensures k in DegradedFor(records, r) && (!r.content.Task? ==> DegradedFor(records, r)[k] == r)
  {
  }

  class SharedPicture {
    const session: string
    const limit: nat
    const z: Sizes
    var revision: nat
    var records: map<Key, Record>
    var order: seq<Key>
    var tombstones: map<Key, Tombstone>
    var bytes: map<Key, nat>
    var total: nat
    var events: seq<Event>
    var sizes: seq<nat>
    var eventTotal: nat
    var sources: map<Node, Position>
    var connectivity: map<string, Connectivity>
    var assetOrder: seq<string>
    var sequences: map<RecordSource, SourceSequence>
    ghost var history: seq<Event>

    ghost predicate Stored()
      reads `records, `order, `tombstones, `bytes, `total
    {
      Accounted(z, records, tombstones, bytes, total) && Listed(order, records) && OwnKeys(records)
    }

    ghost predicate Logged()
      reads `revision, `events, `sizes, `eventTotal, `history
    {
      Buffered(z, history, events, sizes, eventTotal, limit) && |history| == revision && limit >= 1
    }

    ghost predicate Bookkept()
      reads `sources, `connectivity, `assetOrder, `sequences
    {
      && Distinct(assetOrder) && (forall a :: a in assetOrder <==> a in connectivity)
      && |sources| <= LINK_SOURCE_IDENTITY_LIMIT && |connectivity| <= LINK_SOURCE_IDENTITY_LIMIT
      && |sequences| <= RECORD_SOURCE_SEQUENCE_LIMIT
    }

    /** Applying every event so far to nothing gives the records. */
    ghost predicate Current()
      reads `records, `history
    {
      Replay(map[], history) == records
    }

    ghost predicate Valid()
      reads this
    {
      Held() && Current()
    }

    ghost predicate Held()
      reads this
    {
      Stored() && Logged() && Bookkept()
    }

    constructor (session: string, limit: nat, z: Sizes)
      requires session != "" && limit >= 1
      ensures Valid() && records == map[] && history == [] && tombstones == map[]
      ensures this.session == session && this.limit == limit && this.z == z
    {
      this.session, this.limit, this.z := session, limit, z;
      revision, records, order, tombstones, bytes, total := 0, map[], [], map[], map[], 0;
      events, sizes, eventTotal := [], [], 0;
      sources, connectivity, assetOrder, sequences := map[], map[], [], map[];
      history := [];
    }

    /** `emit`: the event joins the history; the buffer keeps the longest run of last events that fits. */
    method Emit(e: Event)
      requires Logged()
      modifies `revision, `events, `sizes, `eventTotal, `history
      ensures Logged() && history == old(history) + [e]
      ensures EventBytes(z, e) > PICTURE_EVENT_BYTES_LIMIT ==> events == []
      ensures (EventBytes(z, e) <= PICTURE_EVENT_BYTES_LIMIT && |events| <= |old(events)|) ==>
                Fullest(z, history, events, eventTotal, limit)
    {
      hide EventBytes;
      revision := revision + 1;
      CoversOne(z, history, events, sizes, eventTotal, e);
      history := history + [e];
      var size := EventBytes(z, e);
      if size > PICTURE_EVENT_BYTES_LIMIT {
        events, sizes, eventTotal := [], [], 0;
      } else {
        events, sizes, eventTotal := TrimEvents(z, history, events + [e], sizes + [size], eventTotal + size, limit);
      }
    }

    /** `retainRecord` */
    method RetainRecord(k: Key, r: Record)
      requires Stored() && r.key == k && k.resource == TypeOf(r.content)
      requires CanRetain(bytes, total, k, RecordBytes(z, r))
               || (k in records && RecordBytes(z, records[k]) == RecordBytes(z, r))
      modifies `records, `order, `tombstones, `bytes, `total
      ensures Stored() && records == old(records)[k := r] && tombstones == old(tombstones) - {k}
      ensures order == Appended(old(order), k)
    {
      hide Keyed, Charged, Bounded, CanRetain, RecordBytes, Listed;
      RetainRecordOk(z, records, tombstones, bytes, total, k, r);
      AppendedListed(order, records, k, r);
      var size := RecordBytes(z, r);
      total := total - BytesAt(bytes, k) + size;
      bytes := bytes[k := size];
      tombstones := tombstones - {k};
      order := Appended(order, k);
      records := records[k := r];
    }

    /** `retainTombstone` */
    method RetainTombstone(k: Key, t: Tombstone)
      requires Stored() && CanRetain(bytes, total, k, TombstoneBytes(z, t))
      modifies `records, `order, `tombstones, `bytes, `total
      ensures Stored() && records == old(records) - {k} && tombstones == old(tombstones)[k := t]
      ensures order == Excluding(old(order), k)
    {
      hide Keyed, Charged, Bounded, CanRetain, TombstoneBytes;
      RetainTombstoneOk(z, records, tombstones, bytes, total, k, t);
      ExcludingKeeps(order, k);
      var size := TombstoneBytes(z, t);
      total := total - BytesAt(bytes, k) + size;
      bytes := bytes[k := size];
      records := records - {k};
      order := Excluding(order, k);
      tombstones := tombstones[k := t];
    }

    /** `removeRecord` */
    method RemoveRecord(k: Key)
      requires Stored() && k in records
      modifies `records, `order, `bytes, `total
      ensures Stored() && records == old(records) - {k} && order == Excluding(old(order), k)
    {
      hide Keyed, Charged, Bounded;
      RemoveRecordOk(z, records, tombstones, bytes, total, k);
      ExcludingKeeps(order, k);
      records := records - {k};
      order := Excluding(order, k);
      total := total - BytesAt(bytes, k);
      bytes := bytes - {k};
    }

    /** A record changes only its freshness: its charge, the order and the tombstones stay. */
    method Refreshen(k: Key, f: Freshness, stale: bool)
      requires Stored() && Logged() && k in records
      modifies `records, `order, `tombstones, `bytes, `total, `revision, `events, `sizes, `eventTotal, `history
      ensures Stored() && Logged()
      ensures order == old(order) && tombstones == old(tombstones) && bytes == old(bytes) && total == old(total)
      ensures records == old(records)[k := old(records)[k].(freshness := f)]
      ensures history == old(history) + [Changed(k, old(records)[k].(freshness := f), stale)]
    {
      hide Charged, Bounded, CanRetain, RecordBytes, EventBytes, Covers;
      var r := records[k].(freshness := f);
      SameSize(z, records[k], f);
      SameCharge(z, records, tombstones, bytes, k, RecordBytes(z, r));
      RetainSame(k, r);
      Emit(Changed(k, r, stale));
    }

    /** `retainRecord` for a record of the size already charged. */
    method RetainSame(k: Key, r: Record)
      requires Stored() && k in records && r.key == k && k.resource == TypeOf(r.content)
      requires RecordBytes(z, records[k]) == RecordBytes(z, r) && k in bytes && bytes[k] == RecordBytes(z, r)
      modifies `records, `order, `tombstones, `bytes, `total
      ensures Stored() && records == old(records)[k := r] && order == old(order) && tombstones == old(tombstones)
      ensures bytes == old(bytes) && total == old(total)
    {
      hide Accounted, OwnKeys, CanRetain, RecordBytes, Listed, Appended;
      ghost var rs, os, ts, bs, n := records, order, tombstones, bytes, total;
      RetainRecord(k, r);
      RetainedSame(z, rs, os, ts, bs, n, k, r, bytes, total);
    }

    /** `markSourceConnectivity` */
    method MarkSourceConnectivity(source: Node, connected: bool)
      requires Stored() && Logged() && Bookkept()
      modifies `connectivity, `records, `order, `tombstones, `bytes, `total, `revision, `events, `sizes, `eventTotal,
        `history
      ensures Stored() && Logged() && Bookkept()
      ensures order == old(order) && tombstones == old(tombstones) && bytes == old(bytes) && total == old(total)
      ensures source.role != Asset ==>
                records == old(records) && history == old(history) && connectivity == old(connectivity)
      ensures source.role == Asset ==> connectivity == SetConnected(old(connectivity), source.id, connected)
      ensures source.role == Asset ==> (forall k <- old(order) :: k in old(records))
      ensures source.role == Asset ==>
                history == old(history) + MarkEvents(old(order), old(records), source.id, connected)
      ensures source.role == Asset ==> records == Marked(old(records), source.id, connected)
    {
      hide Accounted, Buffered, OwnKeys, Marked;
      if source.role != Asset { return; }
      ghost var c := connectivity;
      connectivity := SetConnected(connectivity, source.id, connected);
      assert connectivity.Keys == c.Keys;
      Smaller(connectivity, c);
      MarkTasks(source.id, connected);
    }

    method MarkTasks(asset: string, connected: bool)
      requires Stored() && Logged()
      modifies `records, `order, `tombstones, `bytes, `total, `revision, `events, `sizes, `eventTotal, `history
      ensures Stored() && Logged()
      ensures order == old(order) && tombstones == old(tombstones) && bytes == old(bytes) && total == old(total)
      ensures forall k <- old(order) :: k in old(records)
      ensures history == old(history) + MarkEvents(old(order), old(records), asset, connected)
      ensures records == Marked(old(records), asset, connected)
    {
      hide Accounted, Buffered, OwnKeys, Marked, Replay, MarkEvents;
      ghost var was, past := records, history;
      MarkNone(order, was, past, asset, connected);
      var i := 0;
      while i < |order|
        invariant 0 <= i <= |order| && Stored() && Logged()
        invariant order == old(order) && tombstones == old(tombstones) && bytes == old(bytes) && total == old(total)
        invariant forall k <- order[..i] :: k in was
        invariant history == past + MarkEvents(order[..i], was, asset, connected)
        invariant records == Replay(was, MarkEvents(order[..i], was, asset, connected))
      {
        var k := order[i];
        MarkStep(order, was, i, asset, connected);
        if OpenTask(records[k], asset) && records[k].freshness != Freshly(connected) {
          Extended(past, MarkEvents(order[..i], was, asset, connected),
                   Changed(k, records[k].(freshness := Freshly(connected)), !connected));
          Refreshen(k, Freshly(connected), !connected);
        }
        i := i + 1;
      }
      assert order[..i] == order;
      MarkMeans(order, was, asset, connected);
    }

    /** `markSourceConnectivity`, with its effect on the records instead of its events. */
    method Connect(source: Node, connected: bool)
      requires Held()
      modifies `connectivity, `records, `order, `tombstones, `bytes, `total, `revision, `events, `sizes, `eventTotal,
        `history
      ensures Held() && order == old(order) && tombstones == old(tombstones)
      ensures bytes == old(bytes) && total == old(total)
      ensures records == if source.role == Asset then Marked(old(records), source.id, connected) else old(records)
      ensures connectivity ==
              if source.role == Asset then SetConnected(old(connectivity), source.id, connected) else old(connectivity)
      ensures Follows(old(records), old(history), records, history)
    {
      hide Stored, Logged, Bookkept, Follows, Listed, Marked, MarkEvents, Replay;
      ghost var was, past, keys := records, history, order;
      assert Listed(keys, was) by { ListedHere(); }
      MarkSourceConnectivity(source, connected);
      if source.role == Asset {
        MarkMeans(keys, was, source.id, connected);
        FollowsBy(was, past, MarkEvents(keys, was, source.id, connected));
      } else {
        FollowsSelf(was, past);
      }
    }

    /** `degradeTasksForExpiredAsset` */
    method DegradeTasksForExpiredAsset(r: Record)
      requires Held()
      modifies `connectivity, `records, `order, `tombstones, `bytes, `total, `revision, `events, `sizes, `eventTotal,
        `history
      ensures Held()
      ensures order == old(order) && tombstones == old(tombstones) && bytes == old(bytes) && total == old(total)
      ensures records == DegradedFor(old(records), r) && connectivity == DisconnectedFor(old(connectivity), r)
      ensures Follows(old(records), old(history), records, history)
    {
      hide Stored, Logged, Bookkept, Follows, Marked;
      if r.content.Entity? && r.content.kind.AssetEntity? {
        Connect(Node(Asset, r.key.id), false);
      } else {
        FollowsSelf(records, history);
      }
    }

    lemma ListedHere()
      requires Stored()
      ensures Listed(order, records)
    {
    }

    /** The deletion half of `apply`, once accepted. */
    method StoreDeletion(k: Key, t: Tombstone, current: Option<Record>, asset: Option<string>)
      requires Held() && CanRetain(bytes, total, k, TombstoneBytes(z, t))
      requires current.Some? <==> k in records
      requires current.Some? && AssetOf(current.value).Some? ==> asset == AssetOf(current.value)
      modifies `connectivity, `records, `order, `tombstones, `bytes, `total, `revision, `events, `sizes, `eventTotal,
        `history
      ensures Held() && tombstones == old(tombstones)[k := t]
      ensures records == if asset.Some? then Marked(old(records) - {k}, asset.value, false) else old(records) - {k}
      ensures connectivity ==
              if asset.Some? then SetConnected(old(connectivity), asset.value, false) else old(connectivity)
      ensures Follows(old(records), old(history), records, history)
    {
      hide Stored, Logged, Bookkept, Follows, Listed, Marked, MarkEvents, Replay, CanRetain, TombstoneBytes;
      ghost var was, past := records, history;
      if current.Some? {
        DegradeTasksForExpiredAsset(current.value);
        if asset.Some? { MarkedTwice(was, asset.value, k); MarkedKeys(was, asset.value, false); }
      } else {
        FollowsSelf(was, past);
      }
      ghost var degraded, then_ := records, history;
      RetainTombstone(k, t);
      ghost var keys := order;
      assert Listed(keys, records) by { ListedHere(); }
      if asset.Some? {
        MarkSourceConnectivity(Node(Asset, asset.value), false);
        FollowsRemoval(degraded, then_, keys, k, asset.value);
        FollowsBy(degraded - {k}, then_, MarkEvents(keys, degraded - {k}, asset.value, false));
        MarkMeans(keys, degraded - {k}, asset.value, false);
      } else {
        FollowsEvent(degraded, then_, Removed(k));
        FollowsSelf(degraded - {k}, then_);
      }
      if current.Some? {
        Emit(Removed(k));
      } else {
        assert degraded - {k} == degraded;
      }
      FollowsThrough(was, past, degraded, then_, records, history);
    }

    /** The upsert half of `apply`, once accepted. */
    method StoreRecord(k: Key, r: Record, asset: Option<string>, now: int)
      requires Held() && r.key == k && k.resource == TypeOf(r.content)
      requires CanRetain(bytes, total, k, RecordBytes(z, r))
      requires CanAdmit(connectivity, asset)
      modifies `connectivity, `assetOrder, `records, `order, `tombstones, `bytes, `total, `revision, `events, `sizes,
        `eventTotal, `history
      ensures Held() && tombstones == old(tombstones) - {k}
      ensures records == if asset.Some? then Marked(old(records)[k := r], asset.value, true) else old(records)[k := r]
      ensures connectivity ==
              if asset.Some? then old(connectivity)[asset.value := Connectivity(true, Some(now))] else old(connectivity)
      ensures Follows(old(records), old(history), records, history)
    {
      hide Held, Follows, Marked, CanRetain, CanAdmit;
      if asset.Some? {
        StoreConnected(k, r, asset.value, now);
      } else {
        StorePlain(k, r);
      }
    }

    method StorePlain(k: Key, r: Record)
      requires Held() && r.key == k && k.resource == TypeOf(r.content)
      requires CanRetain(bytes, total, k, RecordBytes(z, r))
      modifies `records, `order, `tombstones, `bytes, `total, `revision, `events, `sizes, `eventTotal, `history
      ensures Held() && tombstones == old(tombstones) - {k} && records == old(records)[k := r]
      ensures Follows(old(records), old(history), records, history)
    {
      hide Stored, Logged, Bookkept, Follows, CanRetain, RecordBytes, Appended, TypeOf;
      FollowsChange(records, history, k, r);
      RetainRecord(k, r);
      EmitPlain(Changed(k, r, false));
    }

    method StoreConnected(k: Key, r: Record, asset: string, now: int)
      requires Held() && r.key == k && k.resource == TypeOf(r.content)
      requires CanRetain(bytes, total, k, RecordBytes(z, r)) && CanAdmit(connectivity, Some(asset))
      modifies `connectivity, `assetOrder, `records, `order, `tombstones, `bytes, `total, `revision, `events, `sizes,
        `eventTotal, `history
      ensures Held() && tombstones == old(tombstones) - {k}
      ensures records == Marked(old(records)[k := r], asset, true)
      ensures connectivity == old(connectivity)[asset := Connectivity(true, Some(now))]
      ensures Follows(old(records), old(history), records, history)
    {
      hide Held, Follows, Marked, CanRetain, SetConnected, CanAdmit;
      ghost var was, past, known := records, history, connectivity;
      RetainConnected(k, r, asset, now);
      AlreadyConnected(known, asset, now);
      ConnectAfter(was, past, asset);
    }

    method RetainConnected(k: Key, r: Record, asset: string, now: int)
      requires Held() && r.key == k && k.resource == TypeOf(r.content)
      requires CanRetain(bytes, total, k, RecordBytes(z, r)) && CanAdmit(connectivity, Some(asset))
      modifies `connectivity, `assetOrder, `records, `order, `tombstones, `bytes, `total, `revision, `events, `sizes,
        `eventTotal, `history
      ensures Held() && tombstones == old(tombstones) - {k} && records == old(records)[k := r]
      ensures connectivity == old(connectivity)[asset := Connectivity(true, Some(now))]
      ensures Follows(old(records), old(history), records, history)
    {
      hide Stored, Logged, Bookkept, Follows, CanRetain, RecordBytes, Appended, CanAdmit, TypeOf;
      FollowsChange(records, history, k, r);
      RetainRecord(k, r);
      Announce(asset, now, Changed(k, r, false));
    }

    method Announce(asset: string, now: int, e: Event)
      requires Bookkept() && Logged() && CanAdmit(connectivity, Some(asset))
      modifies `connectivity, `assetOrder, `revision, `events, `sizes, `eventTotal, `history
      ensures Bookkept() && Logged() && history == old(history) + [e]
      ensures connectivity == old(connectivity)[asset := Connectivity(true, Some(now))]
    {
      hide Logged, Bookkept, CanAdmit;
      NoteConnected(asset, now);
      EmitPlain(e);
    }

    /** `emit`, with only its effect on the history. */
    method EmitPlain(e: Event)
      requires Logged()
      modifies `revision, `events, `sizes, `eventTotal, `history
      ensures Logged() && history == old(history) + [e]
    {
      hide Logged, EventBytes, Fullest;
      Emit(e);
    }

    method ConnectAfter(ghost was: map<Key, Record>, ghost past: seq<Event>, asset: string)
      requires Held() && Follows(was, past, records, history)
      modifies `connectivity, `records, `order, `tombstones, `bytes, `total, `revision, `events, `sizes, `eventTotal,
        `history
      ensures Held() && tombstones == old(tombstones)
      ensures records == Marked(old(records), asset, true) && connectivity == SetConnected(old(connectivity), asset, true)
      ensures Follows(was, past, records, history)
    {
      hide Stored, Logged, Bookkept, Follows, Marked, SetConnected;
      ghost var stored, then_ := records, history;
      Connect(Node(Asset, asset), true);
      FollowsThrough(was, past, stored, then_, records, history);
    }

    ghost function View(): Store
      reads `records, `tombstones, `sources, `connectivity, `sequences
    {
      Store(Table(records), Table(tombstones), Table(sources), Table(connectivity), Table(sequences))
    }

    /** `activateSource`; `None` stands for its exception. */
    method ActivateSource(source: Node, p: Position) returns (active: Option<bool>)
      requires Held()
      modifies this
      ensures Held()
      ensures active == if p.session == "" then None else Some(Activates(old(sources), old(connectivity), source, p))
      ensures active == Some(true) ==> View() == Activated(old(View()), source, p)
      ensures active != Some(true) ==> View() == old(View()) && history == old(history)
      ensures bytes == old(bytes) && total == old(total)
      ensures Follows(old(records), old(history), records, history)
    {
      hide Stored, Logged, Bookkept, Follows, Marked, SetConnected, Activated, Forget, Advanced;
      FollowsSelf(records, history);
      ActivatedMeans(View(), source, p);
      AdvancedMeans(View(), source, p);
      if p.session == "" { return None; }
      if source !in sources && |sources| >= LINK_SOURCE_IDENTITY_LIMIT { return Some(false); }
      if source in sources
         && (p.generation < sources[source].generation
             || (p.generation == sources[source].generation && p.session != sources[source].session)) {
        return Some(false);
      }
      if source.role == Asset && source.id !in connectivity {
        if |connectivity| >= LINK_SOURCE_IDENTITY_LIMIT { return Some(false); }
        KnowAsset(source.id);
      }
      if source in sources && p == sources[source] {
        return Some(true);
      }
      AdvanceSource(source, p);
      return Some(true);
    }

    /** The end of `activateSource`: the source takes its new position, forgetting an older generation. */
    method AdvanceSource(source: Node, p: Position)
      requires Held() && (source in sources || |sources| < LINK_SOURCE_IDENTITY_LIMIT)
      modifies `sources, `sequences, `connectivity, `records, `order, `tombstones, `bytes, `total, `revision, `events,
        `sizes, `eventTotal, `history
      ensures Held() && View() == Advanced(old(View()), source, p)
      ensures bytes == old(bytes) && total == old(total)
      ensures Follows(old(records), old(history), records, history)
    {
      hide Stored, Logged, Bookkept, Follows, Marked, SetConnected, Forget;
      FollowsSelf(records, history);
      if source in sources && p.generation > sources[source].generation {
        Connect(source, false);
        ForgetSequences(source);
      }
      TakePosition(source, p);
    }

    method NoteConnected(asset: string, now: int)
      requires Bookkept() && CanAdmit(connectivity, Some(asset))
      modifies `connectivity, `assetOrder
      ensures Bookkept() && connectivity == old(connectivity)[asset := Connectivity(true, Some(now))]
    {
      GrowsByOne(connectivity, asset, Connectivity(true, Some(now)));
      assetOrder := Appended(assetOrder, asset);
      connectivity := connectivity[asset := Connectivity(true, Some(now))];
    }

    method KnowAsset(asset: string)
      requires Bookkept() && asset !in connectivity && |connectivity| < LINK_SOURCE_IDENTITY_LIMIT
      modifies `connectivity, `assetOrder
      ensures Bookkept() && connectivity == old(connectivity)[asset := Connectivity(false, None)]
    {
      GrowsByOne(connectivity, asset, Connectivity(false, None));
      assetOrder := assetOrder + [asset];
      connectivity := connectivity[asset := Connectivity(false, None)];
    }

    method TakePosition(source: Node, p: Position)
      requires Bookkept() && (source in sources || |sources| < LINK_SOURCE_IDENTITY_LIMIT)
      modifies `sources
      ensures Bookkept() && sources == old(sources)[source := p]
    {
      GrowsByOne(sources, source, p);
      sources := sources[source := p];
    }

    method ForgetSequences(source: Node)
      requires Held()
      modifies `sequences
      ensures Held() && sequences == Forget(old(sequences), source)
    {
      hide Stored, Logged;
      ghost var before := sequences;
      sequences := map q | q in sequences && q.source != source :: sequences[q];
      Smaller(sequences, before);
    }

    /** `pruneRecordSourceSequences` */
    method PruneRecordSourceSequences(now: int)
      requires Held()
      modifies `sequences
      ensures Held() && sequences == Pruned(old(sequences), now)
    {
      hide Stored, Logged;
      ghost var before := sequences;
      sequences := map q | q in sequences && now - sequences[q].receivedAt < RECORD_SOURCE_SEQUENCE_REPLAY_MS :: sequences[q];
      Smaller(sequences, before);
    }

    /** `acceptSource` */
    method AcceptSource(c: Context) returns (outcome: Outcome)
      requires Held()
      modifies this
      ensures Held()
      ensures outcome == Admission(old(sources), old(connectivity), None, c)
      ensures outcome.Accepted? ==> View() == Activated(old(View()), c.source, Position(c.generation, c.session))
      ensures !outcome.Accepted? ==> View() == old(View()) && history == old(history)
      ensures bytes == old(bytes) && total == old(total)
      ensures Follows(old(records), old(history), records, history)
    {
      hide Stored, Logged, Bookkept, Follows, Activated;
      FollowsSelf(records, history);
      if c.source !in sources && |sources| >= LINK_SOURCE_IDENTITY_LIMIT { return Refused(CapacityExhausted); }
      var active := ActivateSource(c.source, Position(c.generation, c.session));
      outcome := match active
        case None => Threw
        case Some(true) => Accepted
        case Some(false) => Refused(StaleSource);
    }

    /** The retention half of `apply`: whether the accepted publication fits, and if so its effect. */
    method Retain(p: Publication, c: Context, current: Option<Record>, asset: Option<string>) returns (fits: bool)
      requires Held() && (current.Some? <==> KeyOf(p) in records)
      requires current.Some? && AssetOf(current.value).Some? && p.Deletion? ==> asset == AssetOf(current.value)
      requires p.Upsert? ==> CanAdmit(connectivity, asset)
      modifies `connectivity, `assetOrder, `records, `order, `tombstones, `bytes, `total, `revision, `events, `sizes,
        `eventTotal, `history
      ensures Held()
      ensures fits == CanRetain(old(bytes), old(total), KeyOf(p), PublicationBytes(z, p, c))
      ensures !fits ==> View() == old(View()) && bytes == old(bytes) && total == old(total)
      ensures fits ==> View() == Accomplished(old(View()), p, c, current, asset)
      ensures Follows(old(records), old(history), records, history)
    {
      hide Stored, Logged, Bookkept, Follows, Marked, CanRetain, RecordBytes, TombstoneBytes, CanAdmit, TaskFreshness,
           SetConnected;
      FollowsSelf(records, history);
      var k := KeyOf(p);
      if p.Deletion? {
        var t := NextTombstone(p, c);
        if !CanRetain(bytes, total, k, TombstoneBytes(z, t)) { return false; }
        StoreDeletion(k, t, current, asset);
      } else {
        var r := NextRecord(p, c, PublishedFreshness(p.content, current, records, tombstones, connectivity));
        SameSize(z, NextRecord(p, c, Fresh), r.freshness);
        if !CanRetain(bytes, total, k, RecordBytes(z, r)) { return false; }
        StoreRecord(k, r, asset, c.receivedAt);
      }
      return true;
    }

    /** `apply` from the source's recorded position on. */
    method Decide(p: Publication, c: Context, current: Option<Record>, asset: Option<string>) returns (outcome: Outcome)
      requires Held() && (current.Some? <==> KeyOf(p) in records)
      requires current.Some? && AssetOf(current.value).Some? && p.Deletion? ==> asset == AssetOf(current.value)
      requires p.Upsert? ==> CanAdmit(connectivity, asset)
      modifies `sequences, `connectivity, `assetOrder, `records, `order, `tombstones, `bytes, `total, `revision,
        `events, `sizes, `eventTotal, `history
      ensures Held()
      ensures (outcome, View()) ==
              Decided(old(View()), p, c, current, asset,
                      CanRetain(old(bytes), old(total), KeyOf(p), PublicationBytes(z, p, c)))
      ensures Follows(old(records), old(history), records, history)
    {
      hide Stored, Logged, Follows, CanRetain, PublicationBytes, CanAdmit, Accomplished, OrderVerdict, Mark, AssetOf;
      FollowsSelf(records, history);
      var q := RecordSource(KeyOf(p), c.source);
      var prior := Lookup(sequences, q);
      outcome := SequenceVerdict(sequences, q, c);
      if !outcome.Accepted? { return; }
      Restored(sequences, q, Mark(c));
      GrowsByOne(sequences, q, Mark(c));
      sequences := sequences[q := Mark(c)];
      outcome := OrderVerdict(p, c, current, Lookup(tombstones, KeyOf(p)));
      if !outcome.Accepted? { return; }
      var fits := Retain(p, c, current, asset);
      if !fits {
        Unmark(q, prior);
        return Refused(CapacityExhausted);
      }
    }

    /** `rejectCapacity` takes back the position recorded for this publication. */
    method Unmark(q: RecordSource, prior: Option<SourceSequence>)
      requires Bookkept() && q in sequences
      modifies `sequences
      ensures Bookkept() && sequences == if prior.Some? then old(sequences)[q := prior.value] else old(sequences) - {q}
    {
      ghost var before := sequences;
      if prior.None? {
        sequences := sequences - {q};
        Smaller(sequences, before);
      } else {
        GrowsByOne(sequences, q, prior.value);
        sequences := sequences[q := prior.value];
      }
    }

    /** `apply` */
    method Apply(p: Publication, c: Context) returns (outcome: Outcome)
      requires Valid()
      modifies this
      ensures Valid()
      ensures (outcome, View()) ==
              Published(old(View()), p, c, CanRetain(old(bytes), old(total), KeyOf(p), PublicationBytes(z, p, c)))
      ensures Follows(old(records), old(history), records, history)
    {
      hide Stored, Logged, Bookkept, Follows, CanRetain, PublicationBytes, Activated, Activates, Decided, Pruned, Replay;
      ghost var was, past, before := records, history, View();
      FollowsSelf(records, history);
      var k := KeyOf(p);
      var current := Lookup(records, k);
      var asset := ConnectivityAsset(p, c.source, current, connectivity);
      if !CanAdmit(connectivity, asset) { return Refused(CapacityExhausted); }
      outcome := AcceptSource(c);
      if !outcome.Accepted? { FollowsCurrent(was, past, records, history); return; }
      PruneRecordSourceSequences(c.receivedAt);
      ActivatedKeys(before, c.source, Position(c.generation, c.session));
      if p.Upsert? { AdmittedStill(before, p, c, current, Position(c.generation, c.session)); }
      ghost var middle, then_ := records, history;
      outcome := Decide(p, c, current, asset);
      FollowsThrough(was, past, middle, then_, records, history);
      FollowsCurrent(was, past, records, history);
    }

    /** The first loop of `refresh`: Assets that have been silent for too long are disconnected. */
    method SilenceAssets(now: int)
      requires Held()
      modifies `connectivity, `records, `order, `tombstones, `bytes, `total, `revision, `events, `sizes, `eventTotal,
        `history
      ensures Held() && tombstones == old(tombstones) && order == old(order)
      ensures records == SilencedRecords(old(records), old(connectivity), assetOrder, now)
      ensures connectivity == SilencedConnectivity(old(connectivity), assetOrder, now)
      ensures Follows(old(records), old(history), records, history)
    {
      hide Stored, Logged, Follows, Marked, SilencedRecords, SilencedConnectivity;
      ghost var was, past, linked := records, history, connectivity;
      FollowsSelf(was, past);
      SilenceNone(was, linked, now);
      var i := 0;
      while i < |assetOrder|
        invariant 0 <= i <= |assetOrder| && Held() && tombstones == old(tombstones) && order == old(order)
        invariant records == SilencedRecords(was, linked, assetOrder[..i], now)
        invariant connectivity == SilencedConnectivity(linked, assetOrder[..i], now)
        invariant connectivity.Keys == linked.Keys
        invariant Follows(was, past, records, history)
      {
        var a := assetOrder[i];
        assert assetOrder[..i + 1] == assetOrder[..i] + [a];
        SilenceStep(was, linked, assetOrder[..i], a, now);
        if Silent(connectivity, a, now) {
          ghost var middle, then_ := records, history;
          Connect(Node(Asset, a), false);
          FollowsThrough(was, past, middle, then_, records, history);
        }
        i := i + 1;
      }
      assert assetOrder[..i] == assetOrder;
    }

    /** One visit of the second loop of `refresh`. */
    method AgeRecord(k: Key, now: int)
      requires Held() && k in records
      modifies `connectivity, `records, `order, `tombstones, `bytes, `total, `revision, `events, `sizes, `eventTotal,
        `history
      ensures Held() && tombstones == old(tombstones)
      ensures records == AgedRecords(old(records), k, now)
      ensures connectivity == AgedConnectivity(old(connectivity), old(records)[k], now)
      ensures Follows(old(records), old(history), records, history)
    {
      hide Stored, Logged, Bookkept, Follows, FreshnessThresholds, DegradedFor, DisconnectedFor;
      ghost var was, past := records, history;
      var r := records[k];
      var age := now - r.context.receivedAt;
      var t := FreshnessThresholds(r);
      FollowsSelf(was, past);
      if t.removeAfter.Some? && age >= t.removeAfter.value {
        DegradeTasksForExpiredAsset(r);
        StillThere(was, r, k);
        ghost var middle, then_ := records, history;
        FollowsEvent(middle, then_, Removed(k));
        RemoveRecord(k);
        EmitPlain(Removed(k));
        FollowsThrough(was, past, middle, then_, records, history);
      } else if t.staleAfter.Some? && age >= t.staleAfter.value && r.freshness == Fresh {
        OnlyEntitiesAge(r);
        DegradeTasksForExpiredAsset(r);
        StillThere(was, r, k);
        ghost var middle, then_ := records, history;
        FollowsEvent(middle, then_, Changed(k, r.(freshness := Stale), true));
        Refreshen(k, Stale, true);
        FollowsThrough(was, past, middle, then_, records, history);
      }
    }

    /** The second loop of `refresh`. */
    method AgeRecords(now: int)
      requires Held()
      modifies `connectivity, `records, `order, `tombstones, `bytes, `total, `revision, `events, `sizes, `eventTotal,
        `history
      ensures Held() && tombstones == old(tombstones)
      ensures records == RefreshedRecords(old(records), old(order), now)
      ensures connectivity == RefreshedConnectivity(old(connectivity), old(records), old(order), now)
      ensures Follows(old(records), old(history), records, history)
    {
      hide Logged, Bookkept, Follows, Accounted, RefreshedRecords, RefreshedConnectivity, AgedRecords, AgedConnectivity;
      ghost var was, past, linked := records, history, connectivity;
      var keys := order;
      FollowsSelf(was, past);
      RefreshNone(was, linked, now);
      var i := 0;
      while i < |keys|
        invariant 0 <= i <= |keys| && Held() && tombstones == old(tombstones)
        invariant records == RefreshedRecords(was, keys[..i], now)
        invariant connectivity == RefreshedConnectivity(linked, was, keys[..i], now)
        invariant Follows(was, past, records, history)
      {
        var k := keys[i];
        assert keys[..i + 1] == keys[..i] + [k] && k !in keys[..i];
        RefreshStep(was, linked, keys[..i], k, now);
        ghost var middle, then_ := records, history;
        AgeRecord(k, now);
        FollowsThrough(was, past, middle, then_, records, history);
        i := i + 1;
      }
      assert keys[..i] == keys;
    }

    /** `refresh` */
    method Refresh(now: int)
      requires Valid()
      modifies this
      ensures Valid() && tombstones == old(tombstones) && sources == old(sources)
      ensures sequences == Pruned(old(sequences), now)
      ensures var middle := SilencedRecords(old(records), old(connectivity), old(assetOrder), now);
              var linked := SilencedConnectivity(old(connectivity), old(assetOrder), now);
              && records == RefreshedRecords(middle, old(order), now)
              && connectivity == RefreshedConnectivity(linked, middle, old(order), now)
      ensures Follows(old(records), old(history), records, history)
    {
      hide Stored, Logged, Bookkept, Follows, SilencedRecords, SilencedConnectivity, RefreshedRecords,
           RefreshedConnectivity, Pruned, Replay;
      ghost var was, past := records, history;
      PruneRecordSourceSequences(now);
      SilenceAssets(now);
      ghost var middle, then_ := records, history;
      AgeRecords(now);
      FollowsThrough(was, past, middle, then_, records, history);
      FollowsCurrent(was, past, records, history);
    }

    /** `eventsAfter`: exactly the later events, or an error when some of them are no longer buffered. */
    method EventsAfter(session: string, cursor: int) returns (r: Result<seq<Event>, CursorError>)
      requires Valid()
      ensures r == Failure(WrongCursor) <==> session != this.session || cursor < 0 || cursor > revision
      ensures r == Failure(CursorExpired) <==> session == this.session && 0 <= cursor < revision - |events|
      ensures r.Success? ==> 0 <= cursor <= |history| && r.value == history[cursor..]
      ensures r.Success? ==> Replay(Replay(map[], history[..cursor]), r.value) == records
    {
      hide Stored, Bookkept, EventBytes, Replay;
      if session != this.session || cursor < 0 || cursor > revision { return Failure(WrongCursor); }
      var earliest := if |events| > 0 then revision - |events| + 1 else revision + 1;
      if cursor < earliest - 1 { return Failure(CursorExpired); }
      EventsRebuild(z, history, events, sizes, eventTotal, limit, records, cursor);
      return Success(events[cursor - (revision - |events|)..]);
    }
  }
}
