/** How publications, source activations and the passage of time change the Shared Picture (picture.ts). */
module PictureRules {
  import opened Wrappers
  import opened LinkTypes
  import opened PictureState

  datatype Position = Position(generation: nat, session: string)

  datatype Connectivity = Connectivity(connected: bool, receivedAt: Option<int>)

  datatype RecordSource = RecordSource(key: Key, source: Node)

  datatype SourceSequence = SourceSequence(generation: nat, session: string, sequence: nat, receivedAt: int)

  datatype Rejection = StaleSource | StaleSequence | StaleRecord | CapacityExhausted

  datatype Outcome = Accepted | Refused(reason: Rejection) | Threw

  // ----- connectivity of Assets -----------------------------------------------------------------------

  predicate OpenTask(r: Record, asset: string) { r.content.Task? && !r.content.terminal && r.content.asset == asset }

  function Freshly(connected: bool): Freshness { if connected then Fresh else Degraded }

  function Reconnected(r: Record, asset: string, connected: bool): Record {
    if OpenTask(r, asset) then r.(freshness := Freshly(connected)) else r
  }

  /** The records once an Asset is known to be connected or not: exactly its unfinished Tasks change. */
  function Marked(records: map<Key, Record>, asset: string, connected: bool): map<Key, Record> {
    map k | k in records :: Reconnected(records[k], asset, connected)
  }

  /** The records of `order` that the change of connectivity alters, in order. */
  function MarkEvents(order: seq<Key>, records: map<Key, Record>, asset: string, connected: bool): seq<Event>
    requires forall k <- order :: k in records
  {
    if order == [] then [] else
      var k := order[|order| - 1];
      MarkEvents(order[..|order| - 1], records, asset, connected)
      + (if OpenTask(records[k], asset) && records[k].freshness != Freshly(connected)
         then [Changed(k, Reconnected(records[k], asset, connected), !connected)] else [])
  }

  /** The insertion order lists every record once. */
  ghost predicate Listed(order: seq<Key>, records: map<Key, Record>) {
    Distinct(order) && forall k :: k in order <==> k in records
  }

  /** Every record is kept under its own key. */
  ghost predicate OwnKeys(records: map<Key, Record>) {
    forall k :: k in records ==> records[k].key == k && k.resource == TypeOf(records[k].content)
  }

  /** Before the last keys are visited, the marking events have changed exactly the keys visited. */
  lemma {:induction false} MarkReplays(order: seq<Key>, records: map<Key, Record>, asset: string, connected: bool)
    requires Distinct(order) && forall k <- order :: k in records
    ensures var after := Replay(records, MarkEvents(order, records, asset, connected));
            && after.Keys == records.Keys
            && forall k :: k in records ==>
                 after[k] == if k in order then Reconnected(records[k], asset, connected) else records[k]
  {
    hide Replay, Freshly;
    if order == [] {
      NothingReplayed(records);
    } else {
      var n := |order| - 1;
      var before := MarkEvents(order[..n], records, asset, connected);
      MarkReplays(order[..n], records, asset, connected);
      var k := order[n];
      assert k !in order[..n];
      assert forall q :: q in order <==> q in order[..n] || q == k;
      if OpenTask(records[k], asset) && records[k].freshness != Freshly(connected) {
        LastReplayed(records, before, Changed(k, Reconnected(records[k], asset, connected), !connected));
      } else {
        assert before + [] == before;
      }
    }
  }

  lemma NothingReplayed(records: map<Key, Record>)
    ensures Replay(records, []) == records
  {
  }

  lemma LastReplayed(records: map<Key, Record>, events: seq<Event>, e: Event)
    ensures Replay(records, events + [e]) == Applied(Replay(records, events), e)
  {
    assert (events + [e])[..|events + [e]| - 1] == events;
  }

  /** Marking an Asset leaves the marked records, whatever the order in which they are visited. */
  lemma MarkMeans(order: seq<Key>, records: map<Key, Record>, asset: string, connected: bool)
    requires Listed(order, records)
    ensures Replay(records, MarkEvents(order, records, asset, connected)) == Marked(records, asset, connected)
  {
    MarkReplays(order, records, asset, connected);
  }

  /** A removal announced last leaves what removing the record first would have left. */
  lemma {:induction false} RemovalLast(records: map<Key, Record>, events: seq<Event>, k: Key)
    requires forall e <- events :: e.Changed? && e.key != k
    ensures Replay(records, events + [Removed(k)]) == Replay(records - {k}, events)
  {
    LastReplayed(records, events, Removed(k));
    if events != [] {
      var n := |events| - 1;
      RemovalLast(records, events[..n], k);
      LastReplayed(records, events[..n], Removed(k));
    }
  }

  lemma {:induction false} MarkTouches(order: seq<Key>, records: map<Key, Record>, asset: string, connected: bool)
    requires forall k <- order :: k in records
    ensures forall e <- MarkEvents(order, records, asset, connected) :: e.Changed? && e.key in order
  {
    if order != [] {
      MarkTouches(order[..|order| - 1], records, asset, connected);
    }
  }

  function SetConnected(connectivity: map<string, Connectivity>, asset: string, connected: bool): map<string, Connectivity> {
    if asset in connectivity then connectivity[asset := connectivity[asset].(connected := connected)] else connectivity
  }

  // ----- source activation ----------------------------------------------------------------------------

  /** `activateSource`: whether the generation and session may become, or stay, the source's position. */
  predicate Activates(sources: map<Node, Position>, connectivity: map<string, Connectivity>, source: Node, p: Position) {
    && (source !in sources ==> |sources| < LINK_SOURCE_IDENTITY_LIMIT)
    && (source in sources ==>
          p.generation > sources[source].generation || p == sources[source])
    && (source.role == Asset && source.id !in connectivity ==> |connectivity| < LINK_SOURCE_IDENTITY_LIMIT)
  }

  /** A known source moved to a newer generation. */
  predicate Restarts(sources: map<Node, Position>, source: Node, p: Position) {
    source in sources && p.generation > sources[source].generation
  }

  function KnownAssets(connectivity: map<string, Connectivity>, source: Node): map<string, Connectivity> {
    if source.role == Asset && source.id !in connectivity then connectivity[source.id := Connectivity(false, None)]
    else connectivity
  }

  function Forget(sequences: map<RecordSource, SourceSequence>, source: Node): map<RecordSource, SourceSequence> {
    map q | q in sequences && q.source != source :: sequences[q]
  }

  function Pruned(sequences: map<RecordSource, SourceSequence>, now: int): map<RecordSource, SourceSequence> {
    map q | q in sequences && now - sequences[q].receivedAt < RECORD_SOURCE_SEQUENCE_REPLAY_MS :: sequences[q]
  }

  /** The records after `activateSource` succeeded: a restarted Asset is disconnected until it publishes. */
  function ActivatedRecords(sources: map<Node, Position>, records: map<Key, Record>, source: Node, p: Position):
    map<Key, Record>
  {
    if Restarts(sources, source, p) && source.role == Asset then Marked(records, source.id, false) else records
  }

  function ActivatedConnectivity(sources: map<Node, Position>, connectivity: map<string, Connectivity>, source: Node,
                                 p: Position): map<string, Connectivity>
  {
    var known := KnownAssets(connectivity, source);
    if Restarts(sources, source, p) && source.role == Asset then SetConnected(known, source.id, false) else known
  }

  function ActivatedSequences(sources: map<Node, Position>, sequences: map<RecordSource, SourceSequence>, source: Node,
                              p: Position): map<RecordSource, SourceSequence>
  {
    if Restarts(sources, source, p) then Forget(sequences, source) else sequences
  }

  // ----- publications ---------------------------------------------------------------------------------

  function Lookup<K, V>(m: map<K, V>, k: K): Option<V> { if k in m then Some(m[k]) else None }

  /** `connectivityAssetID`: the Asset whose connection the publication shows, or whose removal it reports. */
  function ConnectivityAsset(p: Publication, source: Node, current: Option<Record>,
                             connectivity: map<string, Connectivity>): Option<string>
  {
    match p
    case Deletion(resource, id, _, _, _) =>
      if current.Some? && current.value.content.Entity? && current.value.content.kind.AssetEntity? then
        Some(current.value.key.id)
      else if resource.EntityType? && id in connectivity then Some(id)
      else None
    case Upsert(id, content, _, _, _) =>
      if source.role == Asset then Some(source.id)
      else if content.Entity? && content.kind.AssetEntity? then Some(id)
      else None
  }

  predicate CanAdmit(connectivity: map<string, Connectivity>, asset: Option<string>) {
    asset.Some? ==> asset.value in connectivity || |connectivity| < LINK_SOURCE_IDENTITY_LIMIT
  }

  /** The decisions taken before anything but the source position can change. */
  function Admission(sources: map<Node, Position>, connectivity: map<string, Connectivity>, asset: Option<string>,
                     c: Context): Outcome
  {
    if !CanAdmit(connectivity, asset) then Refused(CapacityExhausted)
    else if c.source !in sources && |sources| >= LINK_SOURCE_IDENTITY_LIMIT then Refused(CapacityExhausted)
    else if c.session == "" then Threw
    else if !Activates(sources, connectivity, c.source, Position(c.generation, c.session)) then Refused(StaleSource)
    else Accepted
  }

  function Mark(c: Context): SourceSequence { SourceSequence(c.generation, c.session, c.sequence, c.receivedAt) }

  /** A position recorded for the same session at the same or a later sequence. */
  predicate Repeats(prior: Context, c: Context) { SameSession(prior, c) && c.sequence <= prior.sequence }

  /** Whether the record's own source position admits the publication. */
  function SequenceVerdict(sequences: map<RecordSource, SourceSequence>, q: RecordSource, c: Context): Outcome {
    var prior := Lookup(sequences, q);
    if prior.Some? && prior.value.generation == c.generation && prior.value.session == c.session
       && c.sequence <= prior.value.sequence then Refused(StaleSequence)
    else if prior.None? && |sequences| >= RECORD_SOURCE_SEQUENCE_LIMIT then Refused(CapacityExhausted)
    else Accepted
  }

  /** Whether the publication is newer than what the picture holds for its key. */
  function OrderVerdict(p: Publication, c: Context, current: Option<Record>, tombstone: Option<Tombstone>): Outcome {
    if current.Some? && Repeats(current.value.context, c) then Refused(StaleSequence)
    else if tombstone.Some? && Repeats(tombstone.value.context, c) then Refused(StaleSequence)
    else if current.Some? && !IsNewer(p, current.value, c) then Refused(StaleRecord)
    else if tombstone.Some? && !CanReplace(p, tombstone.value) then Refused(StaleRecord)
    else Accepted
  }

  function NextTombstone(p: Publication, c: Context): Tombstone
    requires p.Deletion?
  {
    Tombstone(p.deletedVersion, p.confirmation, c)
  }

  /** What the publication will be charged; freshness does not matter. */
  function PublicationBytes(z: Sizes, p: Publication, c: Context): nat {
    if p.Deletion? then TombstoneBytes(z, NextTombstone(p, c)) else RecordBytes(z, NextRecord(p, c, Fresh))
  }

  /** `taskFreshness` */
  function TaskFreshness(content: Content, current: Option<Record>, records: map<Key, Record>,
                         tombstones: map<Key, Tombstone>, connectivity: map<string, Connectivity>): Freshness
    requires content.Task?
  {
    var asset := Key(EntityType, content.asset);
    if content.terminal then Fresh
    else if current.Some? && current.value.content.Task? && current.value.freshness != Fresh then current.value.freshness
    else if asset in records && records[asset].freshness != Fresh then Degraded
    else if asset in tombstones then Degraded
    else if content.asset in connectivity && !connectivity[content.asset].connected then Degraded
    else Fresh
  }

  function PublishedFreshness(content: Content, current: Option<Record>, records: map<Key, Record>,
                              tombstones: map<Key, Tombstone>, connectivity: map<string, Connectivity>): Freshness
  {
    if content.Task? then TaskFreshness(content, current, records, tombstones, connectivity) else Fresh
  }

  /** The records after an accepted publication. */
  function PublishedRecords(records: map<Key, Record>, p: Publication, c: Context, asset: Option<string>,
                            freshness: Freshness): map<Key, Record>
  {
    match p
    case Deletion(_, _, _, _, _) =>
      if asset.Some? then Marked(records - {KeyOf(p)}, asset.value, false) else records - {KeyOf(p)}
    case Upsert(_, _, _, _, _) =>
      var stored := records[KeyOf(p) := NextRecord(p, c, freshness)];
      if asset.Some? then Marked(stored, asset.value, true) else stored
  }

  function PublishedTombstones(tombstones: map<Key, Tombstone>, p: Publication, c: Context): map<Key, Tombstone> {
    if p.Deletion? then tombstones[KeyOf(p) := NextTombstone(p, c)] else tombstones - {KeyOf(p)}
  }

  function PublishedConnectivity(connectivity: map<string, Connectivity>, p: Publication, c: Context,
                                 asset: Option<string>): map<string, Connectivity>
  {
    if asset.None? then connectivity
    else if p.Deletion? then SetConnected(connectivity, asset.value, false)
    else connectivity[asset.value := Connectivity(true, Some(c.receivedAt))]
  }

  /**
    Across one publication a deleted key stays deleted unless the publication has a higher version, or the
    same version at a higher confirmation rank.
    */
  ghost predicate DeletionsStand(before: map<Key, Tombstone>, after: map<Key, Tombstone>, p: Publication) {
    forall k :: k in before ==> (k in after && after[k] == before[k]) || (k == KeyOf(p) && CanReplace(p, before[k]))
  }

  /** Across one publication a record keeps all but its freshness unless the publication is newer than it. */
  ghost predicate RecordsStand(before: map<Key, Record>, after: map<Key, Record>, p: Publication, c: Context) {
    forall k :: k in before ==>
      || (k in after && after[k].(freshness := Fresh) == before[k].(freshness := Fresh))
      || (k == KeyOf(p) && IsNewer(p, before[k], c))
  }

  /** Freshness never decides whether a publication is newer. */
  lemma FreshnessIrrelevant(p: Publication, r: Record, s: Record, c: Context)
    requires r.(freshness := Fresh) == s.(freshness := Fresh)
    ensures IsNewer(p, r, c) == IsNewer(p, s, c)
  {
    assert r.version == r.(freshness := Fresh).version == s.version;
    assert r.context == r.(freshness := Fresh).context == s.context;
    assert r.content == r.(freshness := Fresh).content == s.content;
    assert r.observed == r.(freshness := Fresh).observed == s.observed;
    assert r.confirmation == r.(freshness := Fresh).confirmation == s.confirmation;
  }

  /** An accepted publication respects the order of versions, for the records and for the deletions. */
  lemma PublishedInOrder(records: map<Key, Record>, tombstones: map<Key, Tombstone>, p: Publication, c: Context,
                         current: Option<Record>, asset: Option<string>, freshness: Freshness)
    requires OrderVerdict(p, c, current, Lookup(tombstones, KeyOf(p))) == Outcome.Accepted
    requires current.Some? <==> KeyOf(p) in records
    requires current.Some? ==> current.value.(freshness := Fresh) == records[KeyOf(p)].(freshness := Fresh)
    ensures DeletionsStand(tombstones, PublishedTombstones(tombstones, p, c), p)
    ensures RecordsStand(records, PublishedRecords(records, p, c, asset, freshness), p, c)
  {
    hide IsNewer, CanReplace, Repeats;
    var after := PublishedRecords(records, p, c, asset, freshness);
    forall k | k in records
      ensures || (k in after && after[k].(freshness := Fresh) == records[k].(freshness := Fresh))
              || (k == KeyOf(p) && IsNewer(p, records[k], c))
    {
      if k == KeyOf(p) {
        FreshnessIrrelevant(p, current.value, records[k], c);
      }
    }
  }

  // ----- one whole publication ------------------------------------------------------------------------

  /** What `apply` reads and changes, apart from the byte counts and the event log. */
  datatype Store = Store(records: Table<Key, Record>, tombstones: Table<Key, Tombstone>, sources: Table<Node, Position>,
                         connectivity: Table<string, Connectivity>, sequences: Table<RecordSource, SourceSequence>)

  function Activated(s: Store, source: Node, p: Position): Store {
    s.(records := Table(ActivatedRecords(s.sources.m, s.records.m, source, p)),
       connectivity := Table(ActivatedConnectivity(s.sources.m, s.connectivity.m, source, p)),
       sequences := Table(ActivatedSequences(s.sources.m, s.sequences.m, source, p)),
       sources := s.sources.Put(source, p))
  }

  function Decided(s: Store, p: Publication, c: Context, current: Option<Record>, asset: Option<string>, fits: bool):
    (Outcome, Store)
  {
    var q := RecordSource(KeyOf(p), c.source);
    var noted := s.(sequences := s.sequences.Put(q, Mark(c)));
    var first := SequenceVerdict(s.sequences.m, q, c);
    var second := OrderVerdict(p, c, current, Lookup(s.tombstones.m, KeyOf(p)));
    if !first.Accepted? then (first, s)
    else if !second.Accepted? then (second, noted)
    else if !fits then (Refused(CapacityExhausted), s)
    else (Accepted, Accomplished(noted, p, c, current, asset))
  }

  function Accomplished(s: Store, p: Publication, c: Context, current: Option<Record>, asset: Option<string>): Store {
    var freshness :=
      if p.Deletion? then Fresh
      else PublishedFreshness(p.content, current, s.records.m, s.tombstones.m, s.connectivity.m);
    s.(records := Table(PublishedRecords(s.records.m, p, c, asset, freshness)),
       tombstones := Table(PublishedTombstones(s.tombstones.m, p, c)),
       connectivity := Table(PublishedConnectivity(s.connectivity.m, p, c, asset)))
  }

  function Recent(s: Store, now: int): Store { s.(sequences := Table(Pruned(s.sequences.m, now))) }

  /** `apply`: the outcome and the picture after it, given whether the new entry fits. */
  function Published(s: Store, p: Publication, c: Context, fits: bool): (Outcome, Store) {
    var current := Lookup(s.records.m, KeyOf(p));
    var asset := ConnectivityAsset(p, c.source, current, s.connectivity.m);
    var admission := Admission(s.sources.m, s.connectivity.m, asset, c);
    if !admission.Accepted? then (admission, s)
    else
      Decided(Recent(Activated(s, c.source, Position(c.generation, c.session)), c.receivedAt), p, c, current, asset, fits)
  }

  lemma ActivatedStands(s: Store, source: Node, position: Position, k: Key)
    requires k in s.records.m
    ensures k in Activated(s, source, position).records.m
    ensures Activated(s, source, position).records.m[k].(freshness := Fresh) == s.records.m[k].(freshness := Fresh)
  {
  }

  lemma ActivatedKeys(s: Store, source: Node, position: Position)
    ensures Activated(s, source, position).records.m.Keys == s.records.m.Keys
  {
  }

  /**
    Whatever a publication's outcome, no record gives way to anything but a newer publication, and no deletion to
    anything but a higher version or the same version at a higher confirmation rank.
    */
  lemma ApplyInOrder(s: Store, p: Publication, c: Context, fits: bool)
    ensures RecordsStand(s.records.m, Published(s, p, c, fits).1.records.m, p, c)
    ensures DeletionsStand(s.tombstones.m, Published(s, p, c, fits).1.tombstones.m, p)
  {
    hide IsNewer, CanReplace, Repeats, Activated, PublishedRecords, PublishedTombstones, Admission, SequenceVerdict,
         OrderVerdict, ConnectivityAsset, Pruned, PublishedFreshness, PublishedConnectivity;
    var k := KeyOf(p);
    var current := Lookup(s.records.m, k);
    var asset := ConnectivityAsset(p, c.source, current, s.connectivity.m);
    var position := Position(c.generation, c.session);
    var t := Activated(s, c.source, position);
    ActivatedKeys(s, c.source, position);
    forall q | q in s.records.m ensures q in t.records.m && t.records.m[q].(freshness := Fresh) == s.records.m[q].(freshness := Fresh) {
      ActivatedStands(s, c.source, position, q);
    }
    SameTombstones(s, c.source, position);
    var r := Recent(t, c.receivedAt);
    if Admission(s.sources.m, s.connectivity.m, asset, c).Accepted?
       && OrderVerdict(p, c, current, Lookup(t.tombstones.m, k)).Accepted? {
      var freshness :=
        if p.Deletion? then Fresh
        else PublishedFreshness(p.content, current, t.records.m, t.tombstones.m, t.connectivity.m);
      PublishedInOrder(t.records.m, t.tombstones.m, p, c, current, asset, freshness);
      StandsThrough(s.records.m, t.records.m, PublishedRecords(t.records.m, p, c, asset, freshness), p, c);
    }
  }

  lemma SameTombstones(s: Store, source: Node, position: Position)
    ensures Activated(s, source, position).tombstones == s.tombstones
  {
  }

  lemma StandsThrough(before: map<Key, Record>, middle: map<Key, Record>, after: map<Key, Record>, p: Publication,
                      c: Context)
    requires forall k :: k in before ==> k in middle && middle[k].(freshness := Fresh) == before[k].(freshness := Fresh)
    requires RecordsStand(middle, after, p, c)
    ensures RecordsStand(before, after, p, c)
  {
    hide IsNewer;
    forall k | k in before
      ensures || (k in after && after[k].(freshness := Fresh) == before[k].(freshness := Fresh))
              || (k == KeyOf(p) && IsNewer(p, before[k], c))
    {
      FreshnessIrrelevant(p, middle[k], before[k], c);
    }
  }

  // ----- the passage of time --------------------------------------------------------------------------

  datatype Thresholds = Thresholds(staleAfter: Option<int>, removeAfter: Option<int>)

  /** `freshnessThresholds` */
  function FreshnessThresholds(r: Record): Thresholds {
    match r.content
    case Task(_, terminal, _, _) => if terminal then Thresholds(None, Some(600_000)) else Thresholds(None, None)
    case Entity(kind, vital, geometry, _, _) =>
      if kind.OtherEntity? then Thresholds(None, None)
      else if vital then Thresholds(Some(30_000), Some(120_000))
      else if geometry then Thresholds(Some(5_000), Some(30_000))
      else Thresholds(None, None)
    case Object(_, _) => Thresholds(None, None)
  }

  lemma OnlyEntitiesAge(r: Record)
    ensures FreshnessThresholds(r).staleAfter.Some? ==> r.content.Entity?
  {
  }

  predicate Expired(r: Record, now: int) {
    var t := FreshnessThresholds(r);
    t.removeAfter.Some? && now - r.context.receivedAt >= t.removeAfter.value
  }

  predicate Aged(r: Record, now: int) {
    var t := FreshnessThresholds(r);
    !Expired(r, now) && t.staleAfter.Some? && now - r.context.receivedAt >= t.staleAfter.value && r.freshness == Fresh
  }

  /** The Asset's own record has been found too old. */
  predicate Lapsed(records: map<Key, Record>, done: seq<Key>, asset: string, now: int) {
    var k := Key(EntityType, asset);
    k in records && k in done && records[k].content.Entity? && records[k].content.kind.AssetEntity?
    && (Expired(records[k], now) || Aged(records[k], now))
  }

  /** What `refresh` makes of one record once the keys of `done` have been visited. */
  function RefreshedRecord(records: map<Key, Record>, done: seq<Key>, k: Key, now: int): Record
    requires k in records
  {
    var r := records[k];
    if k in done && Aged(r, now) then r.(freshness := Stale)
    else if r.content.Task? && !r.content.terminal && Lapsed(records, done, r.content.asset, now) then
      r.(freshness := Degraded)
    else r
  }

  function RefreshedRecords(records: map<Key, Record>, done: seq<Key>, now: int): map<Key, Record> {
    map k | k in records && !(k in done && Expired(records[k], now)) :: RefreshedRecord(records, done, k, now)
  }

  function RefreshedConnectivity(connectivity: map<string, Connectivity>, records: map<Key, Record>, done: seq<Key>,
                                 now: int): map<string, Connectivity>
  {
    map a | a in connectivity ::
      if Lapsed(records, done, a, now) then connectivity[a].(connected := false) else connectivity[a]
  }

  /** Connected Assets that have published nothing for half a minute. */
  predicate Silent(connectivity: map<string, Connectivity>, asset: string, now: int) {
    asset in connectivity && connectivity[asset].connected && connectivity[asset].receivedAt.Some?
    && now - connectivity[asset].receivedAt.value >= 30_000
  }

  function SilencedConnectivity(connectivity: map<string, Connectivity>, done: seq<string>, now: int):
    map<string, Connectivity>
  {
    map a | a in connectivity ::
      if a in done && Silent(connectivity, a, now) then connectivity[a].(connected := false) else connectivity[a]
  }

  function SilencedRecords(records: map<Key, Record>, connectivity: map<string, Connectivity>, done: seq<string>,
                           now: int): map<Key, Record>
  {
    map k | k in records ::
      var r := records[k];
      if r.content.Task? && !r.content.terminal && r.content.asset in done && Silent(connectivity, r.content.asset, now)
      then r.(freshness := Degraded) else r
  }

  lemma SilenceStep(records: map<Key, Record>, connectivity: map<string, Connectivity>, done: seq<string>, a: string,
                    now: int)
    requires a !in done && a in connectivity
    ensures var c, rs := SilencedConnectivity(connectivity, done, now), SilencedRecords(records, connectivity, done, now);
            if Silent(c, a, now) then
              && SilencedConnectivity(connectivity, done + [a], now) == SetConnected(c, a, false)
              && SilencedRecords(records, connectivity, done + [a], now) == Marked(rs, a, false)
            else
              && SilencedConnectivity(connectivity, done + [a], now) == c
              && SilencedRecords(records, connectivity, done + [a], now) == rs
  {
    assert forall q :: q in done + [a] <==> q in done || q == a;
    var c := SilencedConnectivity(connectivity, done, now);
    assert c[a] == connectivity[a];
  }

  /** A record not yet visited has changed in nothing but the freshness of a Task, so it ages as it would have. */
  lemma NotYetVisited(records: map<Key, Record>, done: seq<Key>, k: Key, now: int)
    requires k in records && k !in done
    ensures k in RefreshedRecords(records, done, now)
    ensures var r := RefreshedRecords(records, done, now)[k];
            && Expired(r, now) == Expired(records[k], now) && Aged(r, now) == Aged(records[k], now)
            && r.content == records[k].content && r.key == records[k].key
            && (!records[k].content.Task? ==> r == records[k])
  {
  }

  function AssetOf(r: Record): Option<string> {
    if r.content.Entity? && r.content.kind.AssetEntity? then Some(r.key.id) else None
  }

  lemma RefreshUntouched(records: map<Key, Record>, done: seq<Key>, k: Key, now: int)
    requires k in records && k !in done && !Expired(records[k], now) && !Aged(records[k], now)
    ensures RefreshedRecords(records, done + [k], now) == RefreshedRecords(records, done, now)
  {
    assert forall q :: q in done + [k] <==> q in done || q == k;
    assert forall a :: Lapsed(records, done + [k], a, now) == Lapsed(records, done, a, now);
  }

  lemma LapsedStep(records: map<Key, Record>, done: seq<Key>, k: Key, now: int, a: string)
    requires k in records && k !in done && records[k].key == k
    requires k.resource == TypeOf(records[k].content)
    ensures Lapsed(records, done + [k], a, now) <==>
            (Lapsed(records, done, a, now)
             || (AssetOf(records[k]) == Some(a) && (Expired(records[k], now) || Aged(records[k], now))))
  {
  }

  function DegradedFor(records: map<Key, Record>, r: Record): map<Key, Record> {
    if AssetOf(r).Some? then Marked(records, AssetOf(r).value, false) else records
  }

  lemma RefreshAged(records: map<Key, Record>, done: seq<Key>, k: Key, now: int)
    requires k in records && k !in done && Aged(records[k], now)
    requires records[k].key == k && k.resource == TypeOf(records[k].content)
    ensures var rs := RefreshedRecords(records, done, now);
            && k in rs && rs[k] == records[k]
            && RefreshedRecords(records, done + [k], now) ==
               DegradedFor(rs, records[k])[k := records[k].(freshness := Stale)]
  {
    var rs := RefreshedRecords(records, done, now);
    var next := RefreshedRecords(records, done + [k], now);
    forall a ensures Lapsed(records, done + [k], a, now) <==>
                     (Lapsed(records, done, a, now)
                      || (AssetOf(records[k]) == Some(a) && (Expired(records[k], now) || Aged(records[k], now))))
    {
      LapsedStep(records, done, k, now, a);
    }
    assert forall q :: q in done + [k] <==> q in done || q == k;
    hide Lapsed, Expired;
    var want := DegradedFor(rs, records[k])[k := records[k].(freshness := Stale)];
    assert next.Keys == want.Keys;
    forall q | q in next ensures next[q] == want[q] { }
  }

  lemma RefreshExpired(records: map<Key, Record>, done: seq<Key>, k: Key, now: int)
    requires k in records && k !in done && Expired(records[k], now)
    requires records[k].key == k && k.resource == TypeOf(records[k].content)
    ensures var rs := RefreshedRecords(records, done, now);
            && k in rs
            && RefreshedRecords(records, done + [k], now) == DegradedFor(rs, records[k]) - {k}
  {
    var rs := RefreshedRecords(records, done, now);
    var next := RefreshedRecords(records, done + [k], now);
    forall a ensures Lapsed(records, done + [k], a, now) <==>
                     (Lapsed(records, done, a, now) || AssetOf(records[k]) == Some(a))
    {
      LapsedStep(records, done, k, now, a);
    }
    assert forall q :: q in done + [k] <==> q in done || q == k;
    hide Lapsed, Expired;
    var want := DegradedFor(rs, records[k]) - {k};
    assert next.Keys == want.Keys;
    forall q | q in next ensures next[q] == want[q] { }
  }

  function DisconnectedFor(connectivity: map<string, Connectivity>, r: Record): map<string, Connectivity> {
    if AssetOf(r).Some? then SetConnected(connectivity, AssetOf(r).value, false) else connectivity
  }

  lemma RefreshConnectivityStep(connectivity: map<string, Connectivity>, records: map<Key, Record>, done: seq<Key>,
                                k: Key, now: int)
    requires k in records && k !in done && records[k].key == k && k.resource == TypeOf(records[k].content)
    ensures RefreshedConnectivity(connectivity, records, done + [k], now) ==
            if Expired(records[k], now) || Aged(records[k], now) then
              DisconnectedFor(RefreshedConnectivity(connectivity, records, done, now), records[k])
            else RefreshedConnectivity(connectivity, records, done, now)
  {
    forall a ensures Lapsed(records, done + [k], a, now) <==>
                     (Lapsed(records, done, a, now)
                      || (AssetOf(records[k]) == Some(a) && (Expired(records[k], now) || Aged(records[k], now))))
    {
      LapsedStep(records, done, k, now, a);
    }
    hide Lapsed, Expired, Aged;
  }

  /** One step of `refresh`: what visiting `k` makes of the records and of the connectivity. */
  function AgedRecords(records: map<Key, Record>, k: Key, now: int): map<Key, Record>
    requires k in records
  {
    var r := records[k];
    if Expired(r, now) then DegradedFor(records, r) - {k}
    else if Aged(r, now) then DegradedFor(records, r)[k := r.(freshness := Stale)]
    else records
  }

  function AgedConnectivity(connectivity: map<string, Connectivity>, r: Record, now: int): map<string, Connectivity> {
    if Expired(r, now) || Aged(r, now) then DisconnectedFor(connectivity, r) else connectivity
  }

  lemma RefreshStep(records: map<Key, Record>, connectivity: map<string, Connectivity>, done: seq<Key>, k: Key, now: int)
    requires k in records && k !in done && OwnKeys(records)
    ensures var rs, c := RefreshedRecords(records, done, now), RefreshedConnectivity(connectivity, records, done, now);
            && k in rs
            && RefreshedRecords(records, done + [k], now) == AgedRecords(rs, k, now)
            && RefreshedConnectivity(connectivity, records, done + [k], now) == AgedConnectivity(c, rs[k], now)
  {
    hide RefreshedRecords, RefreshedConnectivity, Expired, Aged, DegradedFor, DisconnectedFor;
    NotYetVisited(records, done, k, now);
    RefreshConnectivityStep(connectivity, records, done, k, now);
    var r := RefreshedRecords(records, done, now)[k];
    SameAsset(RefreshedRecords(records, done, now), connectivity, r, records[k]);
    SameAsset(RefreshedRecords(records, done, now), RefreshedConnectivity(connectivity, records, done, now), r, records[k]);
    if Expired(records[k], now) {
      RefreshExpired(records, done, k, now);
    } else if Aged(records[k], now) {
      RefreshAged(records, done, k, now);
    } else {
      RefreshUntouched(records, done, k, now);
    }
  }

  lemma SameAsset(records: map<Key, Record>, connectivity: map<string, Connectivity>, r: Record, s: Record)
    requires r.content == s.content && r.key == s.key
    ensures DegradedFor(records, r) == DegradedFor(records, s)
    ensures DisconnectedFor(connectivity, r) == DisconnectedFor(connectivity, s)
  {
  }

  /**
    What `refresh` does to every record: it removes exactly the expired ones, makes the aged ones stale, and
    degrades exactly the unfinished Tasks whose Asset's record is among those two.
    */
  lemma RefreshMeans(records: map<Key, Record>, order: seq<Key>, now: int, k: Key)
    requires Listed(order, records) && OwnKeys(records) && k in records
    ensures k in RefreshedRecords(records, order, now) <==> !Expired(records[k], now)
    ensures !Expired(records[k], now) ==>
              var r, a := records[k], Key(EntityType, if records[k].content.Task? then records[k].content.asset else "");
              RefreshedRecords(records, order, now)[k] ==
              if Aged(r, now) then r.(freshness := Stale)
              else if (r.content.Task? && !r.content.terminal && a in records && AssetOf(records[a]).Some?
                       && (Expired(records[a], now) || Aged(records[a], now))) then r.(freshness := Degraded)
              else r
  {
  }
}
