/** Which publications the Shared Picture takes over, and what it holds afterwards (picture.ts). */
module PictureOutcomes {
  import opened Wrappers
  import opened LinkTypes
  import opened PictureState
  import opened PictureRules

  // ----- the source -----------------------------------------------------------------------------------

  /** The source is new and there is room for it, or it goes on in its session or in a later generation. */
  predicate SourceAdmitted(s: Store, c: Context) {
    && c.session != ""
    && (if c.source in s.sources.m then
          || c.generation > s.sources.m[c.source].generation
          || (c.generation == s.sources.m[c.source].generation && c.session == s.sources.m[c.source].session)
        else |s.sources.m| < 4096)
    && (c.source.role == Asset && c.source.id !in s.connectivity.m ==> |s.connectivity.m| < 4096)
  }

  /** A known source comes back with a later generation. */
  predicate Returns(s: Store, c: Context) {
    c.source in s.sources.m && c.generation > s.sources.m[c.source].generation
  }

  /** An Asset that publishes is connected, and one whose entity is published or deleted is or is no more. */
  predicate Shows(s: Store, p: Publication, c: Context, a: string) {
    match p
    case Upsert(id, content, _, _, _) =>
      if c.source.role == Asset then a == c.source.id else content.Entity? && content.kind == AssetEntity && a == id
    case Deletion(resource, id, _, _, _) =>
      var k := Key(resource, id);
      if k in s.records.m && s.records.m[k].content.Entity? && s.records.m[k].content.kind == AssetEntity
      then a == s.records.m[k].key.id else resource == EntityType && id in s.connectivity.m && a == id
  }

  ghost predicate RoomForAsset(s: Store, p: Publication, c: Context) {
    forall a :: Shows(s, p, c, a) ==> a in s.connectivity.m || |s.connectivity.m| < 4096
  }

  // ----- sequences ------------------------------------------------------------------------------------

  predicate Earlier(generation: nat, session: string, sequence: nat, c: Context) {
    c.generation == generation && c.session == session && c.sequence <= sequence
  }

  /** The position is remembered for ten minutes, and no longer than its source goes on in its generation. */
  predicate Remembered(s: Store, c: Context, q: RecordSource) {
    && q in s.sequences.m && c.receivedAt - s.sequences.m[q].receivedAt < 600_000
    && !(q.source == c.source && Returns(s, c))
  }

  function Positions(s: Store, c: Context): set<RecordSource> { set q | q in s.sequences.m && Remembered(s, c, q) }

  /** The source has published this resource in this session with this number or a later one. */
  predicate Repeated(s: Store, p: Publication, c: Context) {
    var k := KeyOf(p);
    var q := RecordSource(k, c.source);
    || (Remembered(s, c, q) && Earlier(s.sequences.m[q].generation, s.sequences.m[q].session, s.sequences.m[q].sequence, c))
    || (k in s.records.m && s.records.m[k].context.source == c.source
        && Earlier(s.records.m[k].context.generation, s.records.m[k].context.session, s.records.m[k].context.sequence, c))
    || (k in s.tombstones.m && s.tombstones.m[k].context.source == c.source
        && Earlier(s.tombstones.m[k].context.generation, s.tombstones.m[k].context.session, s.tombstones.m[k].context.sequence, c))
  }

  predicate RoomForPosition(s: Store, p: Publication, c: Context) {
    Remembered(s, c, RecordSource(KeyOf(p), c.source)) || |Positions(s, c)| < 4096
  }

  // ----- versions, ranks and times --------------------------------------------------------------------

  /** Core has decided about it. */
  predicate Decisive(x: Confirmation) { x == CoreConfirmed || x == CoreRejected }

  /** The version Core gave the content, or its own; Tasks have none. */
  function Version(p: Publication): Option<nat> {
    if p.Deletion? then Some(p.deletedVersion)
    else if p.content.Task? then None
    else if p.atlasVersion.Some? then p.atlasVersion
    else Some(p.content.version)
  }

  predicate SameRank(a: Confirmation, b: Confirmation) { Decisive(a) <==> Decisive(b) }

  /** Of two publications of one version: what Core has decided, then what was observed or published later. */
  predicate NewerAtVersion(p: Publication, r: Record, c: Context) {
    || (Decisive(p.confirmation) && !Decisive(r.confirmation))
    || (!Decisive(p.confirmation) && Decisive(r.confirmation) && p.observed > r.observed)
    || (SameRank(p.confirmation, r.confirmation)
        && if c.source != r.context.source || c.generation < r.context.generation
              || (c.generation == r.context.generation && c.session != r.context.session) then p.observed > r.observed
           else if c.generation > r.context.generation then p.observed >= r.observed
           else c.sequence > r.context.sequence)
  }

  /** Of two publications of a Task: what Core has decided, then what was updated later, then what a later generation says. */
  predicate NewerTask(p: Publication, r: Record, c: Context)
    requires p.Upsert? && p.content.Task? && r.content.Task?
  {
    || (Decisive(p.confirmation) && !Decisive(r.confirmation))
    || p.content.updatedAt > r.content.updatedAt
    || (p.content.updatedAt == r.content.updatedAt && c.source == r.context.source
        && (|| c.generation > r.context.generation
            || (SameRank(p.confirmation, r.confirmation) && c.generation == r.context.generation
                && c.session == r.context.session && c.sequence > r.context.sequence)))
  }

  /** The publication is newer than the record of its resource. */
  predicate Newer(p: Publication, r: Record, c: Context) {
    var v := Version(p);
    if v.Some? && r.version.Some? then
      v.value > r.version.value || (v.value == r.version.value && NewerAtVersion(p, r, c))
    else p.Upsert? && p.content.Task? && r.content.Task? ==> NewerTask(p, r, c)
  }

  /** A deleted resource comes back with a higher version, or with its version once Core has decided. */
  predicate Revives(p: Publication, t: Tombstone) {
    var v := Version(p);
    v.Some? && (v.value > t.version || (v.value == t.version && Decisive(p.confirmation) && !Decisive(t.confirmation)))
  }

  predicate NotBarred(s: Store, p: Publication, c: Context) {
    var k := KeyOf(p);
    && (k in s.records.m ==> Newer(p, s.records.m[k], c))
    && (k in s.tombstones.m ==> Revives(p, s.tombstones.m[k]))
  }

  /** Nothing but order and room can still refuse the publication. */
  ghost predicate Considered(s: Store, p: Publication, c: Context) {
    SourceAdmitted(s, c) && RoomForAsset(s, p, c) && !Repeated(s, p, c) && RoomForPosition(s, p, c)
  }

  lemma NewerIs(p: Publication, r: Record, c: Context)
    ensures IsNewer(p, r, c) <==> Newer(p, r, c)
  {
  }

  lemma RevivesIs(p: Publication, t: Tombstone)
    ensures CanReplace(p, t) <==> Revives(p, t)
  {
  }

  lemma AdmissionIs(s: Store, p: Publication, c: Context)
    ensures var asset := ConnectivityAsset(p, c.source, Lookup(s.records.m, KeyOf(p)), s.connectivity.m);
            Admission(s.sources.m, s.connectivity.m, asset, c).Accepted? <==> SourceAdmitted(s, c) && RoomForAsset(s, p, c)
  {
    hide ConnectivityAsset, Shows;
    var asset := ConnectivityAsset(p, c.source, Lookup(s.records.m, KeyOf(p)), s.connectivity.m);
    if asset.Some? { ShowsIs(s, p, c, asset.value); }
    forall a ensures asset == Some(a) <==> Shows(s, p, c, a) { ShowsIs(s, p, c, a); }
  }

  lemma ShowsIs(s: Store, p: Publication, c: Context, a: string)
    ensures ConnectivityAsset(p, c.source, Lookup(s.records.m, KeyOf(p)), s.connectivity.m) == Some(a) <==> Shows(s, p, c, a)
  {
  }

  lemma PositionsAre(s: Store, c: Context)
    ensures var kept := Recent(Activated(s, c.source, Position(c.generation, c.session)), c.receivedAt).sequences.m;
            && (forall q :: q in kept <==> Remembered(s, c, q)) && |kept| == |Positions(s, c)|
            && forall q :: q in kept ==> kept[q] == s.sequences.m[q]
  {
    hide ActivatedRecords, ActivatedConnectivity;
    var kept := Recent(Activated(s, c.source, Position(c.generation, c.session)), c.receivedAt).sequences.m;
    assert kept.Keys == Positions(s, c);
    assert |kept| == |kept.Keys|;
  }

  lemma VerdictIs(s: Store, p: Publication, c: Context)
    ensures var t := Recent(Activated(s, c.source, Position(c.generation, c.session)), c.receivedAt);
            var first := SequenceVerdict(t.sequences.m, RecordSource(KeyOf(p), c.source), c);
            var second := OrderVerdict(p, c, Lookup(s.records.m, KeyOf(p)), Lookup(s.tombstones.m, KeyOf(p)));
            && (first.Accepted? && second != Refused(StaleSequence) <==> !Repeated(s, p, c) && RoomForPosition(s, p, c))
            && (first.Accepted? && second != Refused(StaleSequence) ==>
                  second == if NotBarred(s, p, c) then Outcome.Accepted else Refused(StaleRecord))
  {
    hide IsNewer, CanReplace, Newer, Revives, Recent, Activated, Positions, Version, Remembered;
    PositionsAre(s, c);
    var k := KeyOf(p);
    if k in s.records.m { NewerIs(p, s.records.m[k], c); }
    if k in s.tombstones.m { RevivesIs(p, s.tombstones.m[k]); }
  }

  /**
    A publication is accepted exactly if its source is admitted, neither its number nor anything newer was there before,
    and there is room for its Asset, its position and its bytes; and it is refused as stale exactly if what the picture
    has is newer, or deleted for good, and nothing else stood in its way.
    */
  lemma AcceptedExactly(s: Store, p: Publication, c: Context, fits: bool)
    ensures Published(s, p, c, fits).0.Accepted? <==> Considered(s, p, c) && NotBarred(s, p, c) && fits
    ensures Published(s, p, c, fits).0 == Refused(StaleRecord) <==> Considered(s, p, c) && !NotBarred(s, p, c)
  {
    hide SourceAdmitted, RoomForAsset, Repeated, RoomForPosition, NotBarred, ConnectivityAsset, Accomplished, Recent, Activated;
    hide OrderVerdict, SequenceVerdict, Activates;
    AdmissionIs(s, p, c);
    VerdictIs(s, p, c);
    var t := Recent(Activated(s, c.source, Position(c.generation, c.session)), c.receivedAt);
    SameDeleted(s, c);
    Verdicts(t.sequences.m, p, c, Lookup(s.records.m, KeyOf(p)), Lookup(s.tombstones.m, KeyOf(p)));
  }

  lemma SameDeleted(s: Store, c: Context)
    ensures Recent(Activated(s, c.source, Position(c.generation, c.session)), c.receivedAt).tombstones == s.tombstones
  {
  }

  lemma Verdicts(sequences: map<RecordSource, SourceSequence>, p: Publication, c: Context, current: Option<Record>,
                 tombstone: Option<Tombstone>)
    ensures SequenceVerdict(sequences, RecordSource(KeyOf(p), c.source), c) != Refused(StaleRecord)
    ensures OrderVerdict(p, c, current, tombstone) in {Outcome.Accepted, Refused(StaleRecord), Refused(StaleSequence)}
  {
    hide IsNewer, CanReplace;
  }

  /** A strictly higher version is taken over, unless the resource was deleted at that version or a higher one. */
  lemma HigherVersionEnters(s: Store, p: Publication, c: Context, fits: bool)
    requires Considered(s, p, c) && KeyOf(p) in s.records.m
    requires Version(p).Some? && s.records.m[KeyOf(p)].version.Some?
    ensures Version(p).value > s.records.m[KeyOf(p)].version.value && KeyOf(p) !in s.tombstones.m && fits ==>
              Published(s, p, c, fits).0 == Outcome.Accepted
    ensures Version(p).value < s.records.m[KeyOf(p)].version.value ==> Published(s, p, c, fits).0 == Refused(StaleRecord)
  {
    hide Considered, Published, NewerAtVersion, Version;
    AcceptedExactly(s, p, c, fits);
  }

  // ----- what the picture holds afterwards ------------------------------------------------------------

  predicate OpenTaskOf(r: Record, a: string) { r.content.Task? && !r.content.terminal && r.content.asset == a }

  /** The Asset whose unfinished Tasks a publication restores or degrades; a returning Asset's are degraded first. */
  ghost function FreshnessAfter(s: Store, p: Publication, c: Context, r: Record, was: Freshness): Freshness {
    if exists a :: Shows(s, p, c, a) && OpenTaskOf(r, a) then if p.Deletion? then Degraded else Fresh
    else if c.source.role == Asset && Returns(s, c) && OpenTaskOf(r, c.source.id) then Degraded
    else was
  }

  /** The record a publication leaves, but for its freshness. */
  ghost predicate Holds(r: Record, p: Publication, c: Context) {
    && p.Upsert? && r.key == Key(TypeOf(p.content), p.id) && r.content == p.content && r.context == c
    && r.observed == p.observed && r.version == Version(p) && r.confirmation == p.confirmation
  }

  /** Every record but that of the publication is as it was, but for the freshness of the Tasks of the Asset it shows. */
  ghost predicate OthersStand(s: Store, n: Store, p: Publication, c: Context) {
    forall x :: x != KeyOf(p) ==>
      && (x in n.records.m <==> x in s.records.m)
      && (x in s.records.m ==> n.records.m[x] == Refreshed(s, p, c, s.records.m[x]))
      && (x in n.tombstones.m <==> x in s.tombstones.m)
      && (x in s.tombstones.m ==> n.tombstones.m[x] == s.tombstones.m[x])
  }

  /** What a record becomes when the publication shows its Asset, or brings it back. */
  ghost function Refreshed(s: Store, p: Publication, c: Context, r: Record): Record {
    r.(freshness := FreshnessAfter(s, p, c, r, r.freshness))
  }

  lemma MarkedEffect(s: Store, p: Publication, c: Context, asset: Option<string>, r: Record)
    requires forall a :: asset == Some(a) <==> Shows(s, p, c, a)
    ensures var returned := if Returns(s, c) && c.source.role == Asset then Reconnected(r, c.source.id, false) else r;
            (if asset.Some? then Reconnected(returned, asset.value, !p.Deletion?) else returned) == Refreshed(s, p, c, r)
  {
    hide Shows;
  }

  lemma AccomplishedEffect(s: Store, t: Store, p: Publication, c: Context, current: Option<Record>, asset: Option<string>)
    requires forall a :: asset == Some(a) <==> Shows(s, p, c, a)
    requires t.records.m == ActivatedRecords(s.sources.m, s.records.m, c.source, Position(c.generation, c.session))
    requires t.tombstones == s.tombstones
    ensures Took(s, Accomplished(t, p, c, current, asset), p, c)
  {
    hide Shows, PublishedFreshness, PublishedConnectivity, Refreshed, Reconnected, Holds, NextRecord;
    var n := Accomplished(t, p, c, current, asset);
    forall x | x != KeyOf(p) && x in s.records.m
      ensures x in n.records.m && n.records.m[x] == Refreshed(s, p, c, s.records.m[x])
    {
      MarkedEffect(s, p, c, asset, s.records.m[x]);
    }
    if p.Upsert? {
      HoldsAfter(p, c, PublishedFreshness(p.content, current, t.records.m, t.tombstones.m, t.connectivity.m), asset);
    }
  }

  lemma HoldsAfter(p: Publication, c: Context, f: Freshness, asset: Option<string>)
    requires p.Upsert?
    ensures var r := NextRecord(p, c, f); Holds(if asset.Some? then Reconnected(r, asset.value, true) else r, p, c)
  {
    var r := NextRecord(p, c, f);
    assert asset.Some? ==> Reconnected(r, asset.value, true) == r.(freshness := Reconnected(r, asset.value, true).freshness);
  }

  /** The publication is what the picture holds of its resource, and all else stands. */
  ghost predicate Took(s: Store, n: Store, p: Publication, c: Context) {
    && OthersStand(s, n, p, c)
    && (p.Upsert? ==> KeyOf(p) in n.records.m && Holds(n.records.m[KeyOf(p)], p, c) && KeyOf(p) !in n.tombstones.m)
    && (p.Deletion? ==>
          && KeyOf(p) !in n.records.m && KeyOf(p) in n.tombstones.m
          && n.tombstones.m[KeyOf(p)] == Tombstone(p.deletedVersion, p.confirmation, c))
  }

  /** The source stands at the position of the publication and the Assets are as connected as it shows. */
  ghost predicate Noted(s: Store, n: Store, p: Publication, c: Context) {
    var q := RecordSource(KeyOf(p), c.source);
    && n.sources.m == s.sources.m[c.source := Position(c.generation, c.session)]
    && q in n.sequences.m && n.sequences.m[q] == SourceSequence(c.generation, c.session, c.sequence, c.receivedAt)
    && (forall x :: x != q ==> (x in n.sequences.m <==> Remembered(s, c, x)))
    && (forall x :: x != q && Remembered(s, c, x) ==> n.sequences.m[x] == s.sequences.m[x])
    && (forall a :: Shows(s, p, c, a) && p.Upsert? ==>
          a in n.connectivity.m && n.connectivity.m[a] == Connectivity(true, Some(c.receivedAt)))
    && (forall a :: Shows(s, p, c, a) && p.Deletion? && a in n.connectivity.m ==> !n.connectivity.m[a].connected)
    && (forall a :: a in s.connectivity.m && !Shows(s, p, c, a) && !(Returns(s, c) && c.source == Node(Asset, a)) ==>
          a in n.connectivity.m && n.connectivity.m[a] == s.connectivity.m[a])
  }

  lemma NotedAfter(s: Store, p: Publication, c: Context, current: Option<Record>, asset: Option<string>)
    requires forall a :: asset == Some(a) <==> Shows(s, p, c, a)
    ensures var t := Recent(Activated(s, c.source, Position(c.generation, c.session)), c.receivedAt);
            var noted := t.(sequences := t.sequences.Put(RecordSource(KeyOf(p), c.source), Mark(c)));
            Noted(s, Accomplished(noted, p, c, current, asset), p, c)
  {
    hide Shows, PublishedFreshness, PublishedRecords, PublishedTombstones, ActivatedRecords;
  }

  /** Refused publications change no record but the freshness of a returning Asset's Tasks, and no deletion. */
  ghost predicate Unmoved(s: Store, n: Store, p: Publication, c: Context) {
    && n.tombstones == s.tombstones && n.records.m.Keys == s.records.m.Keys
    && forall x :: x in s.records.m ==>
         n.records.m[x] == if SourceAdmitted(s, c) && RoomForAsset(s, p, c) && c.source.role == Asset && Returns(s, c)
                              && OpenTaskOf(s.records.m[x], c.source.id)
                           then s.records.m[x].(freshness := Degraded) else s.records.m[x]
  }

  /** An accepted publication is what the picture holds from then on; a refused one changes nothing it holds. */
  lemma AppliedEffect(s: Store, p: Publication, c: Context, fits: bool)
    ensures var (outcome, n) := Published(s, p, c, fits);
            if outcome.Accepted? then Took(s, n, p, c) && Noted(s, n, p, c) else Unmoved(s, n, p, c)
  {
    hide ConnectivityAsset, Accomplished, Took, Noted, Shows, OrderVerdict, SequenceVerdict, Admission, SourceAdmitted;
    hide RoomForAsset;
    var current := Lookup(s.records.m, KeyOf(p));
    var asset := ConnectivityAsset(p, c.source, current, s.connectivity.m);
    forall a ensures asset == Some(a) <==> Shows(s, p, c, a) { ShowsIs(s, p, c, a); }
    AdmissionIs(s, p, c);
    var t := Recent(Activated(s, c.source, Position(c.generation, c.session)), c.receivedAt);
    var noted := t.(sequences := t.sequences.Put(RecordSource(KeyOf(p), c.source), Mark(c)));
    AccomplishedEffect(s, noted, p, c, current, asset);
    NotedAfter(s, p, c, current, asset);
  }

  /** Something speaks against the Task being carried out: its last state, or its Asset's record, deletion or connection. */
  predicate Doubtful(s: Store, k: Key, asset: string) {
    var a := Key(EntityType, asset);
    || (k in s.records.m && s.records.m[k].content.Task? && s.records.m[k].freshness != Fresh)
    || (a in s.records.m && s.records.m[a].freshness != Fresh)
    || a in s.tombstones.m
    || (asset in s.connectivity.m && !s.connectivity.m[asset].connected)
  }

  /** A resource is taken over as fresh, except an unfinished Task in doubt that its Asset does not itself publish. */
  lemma FreshExactly(s: Store, p: Publication, c: Context, fits: bool)
    requires Published(s, p, c, fits).0.Accepted? && p.Upsert? && OwnKeys(s.records.m)
    ensures KeyOf(p) in Published(s, p, c, fits).1.records.m
    ensures Published(s, p, c, fits).1.records.m[KeyOf(p)].freshness != Fresh <==>
            && p.content.Task? && !p.content.terminal && !Shows(s, p, c, p.content.asset)
            && Doubtful(s, KeyOf(p), p.content.asset)
  {
    hide ConnectivityAsset, Shows, OrderVerdict, SequenceVerdict, Admission, OwnKeys, Doubtful, PublishedFreshness;
    var current := Lookup(s.records.m, KeyOf(p));
    var asset := ConnectivityAsset(p, c.source, current, s.connectivity.m);
    forall a ensures asset == Some(a) <==> Shows(s, p, c, a) { ShowsIs(s, p, c, a); }
    var t := Activated(s, c.source, Position(c.generation, c.session));
    if p.content.Task? { DoubtIs(s, p, c, t); }
    EndedFresh(p.content, current, t);
  }

  lemma EndedFresh(content: Content, current: Option<Record>, t: Store)
    ensures (content.Task? && !content.terminal) || PublishedFreshness(content, current, t.records.m, t.tombstones.m, t.connectivity.m) == Fresh
  {
  }

  lemma DoubtIs(s: Store, p: Publication, c: Context, t: Store)
    requires p.Upsert? && p.content.Task? && OwnKeys(s.records.m)
    requires t == Activated(s, c.source, Position(c.generation, c.session))
    ensures !Shows(s, p, c, p.content.asset) ==>
              (PublishedFreshness(p.content, Lookup(s.records.m, KeyOf(p)), t.records.m, t.tombstones.m, t.connectivity.m) != Fresh
               <==> !p.content.terminal && Doubtful(s, KeyOf(p), p.content.asset))
  {
  }

  /** Its own remembered position has the number already, or a later one. */
  predicate Behind(s: Store, p: Publication, c: Context) {
    var q := RecordSource(KeyOf(p), c.source);
    Remembered(s, c, q) && Earlier(s.sequences.m[q].generation, s.sequences.m[q].session, s.sequences.m[q].sequence, c)
  }

  /**
    An admitted publication moves the position of its source on its resource, also if what it says is stale, unless that
    is ahead of it already or there is no room; a publication that is not admitted changes nothing at all.
    */
  lemma PositionExactly(s: Store, p: Publication, c: Context, fits: bool)
    ensures var (outcome, n) := Published(s, p, c, fits);
            var q := RecordSource(KeyOf(p), c.source);
            if !(SourceAdmitted(s, c) && RoomForAsset(s, p, c)) then n == s
            else
              && n.sources.m == s.sources.m[c.source := Position(c.generation, c.session)]
              && (forall x :: x != q ==> (x in n.sequences.m <==> Remembered(s, c, x)))
              && if !Behind(s, p, c) && RoomForPosition(s, p, c) && outcome != Refused(CapacityExhausted)
                 then q in n.sequences.m && n.sequences.m[q] == SourceSequence(c.generation, c.session, c.sequence, c.receivedAt)
                 else (q in n.sequences.m <==> Remembered(s, c, q))
                      && (q in n.sequences.m ==> n.sequences.m[q] == s.sequences.m[q])
  {
    hide SourceAdmitted, RoomForAsset, ConnectivityAsset, Activated, Recent, OrderVerdict, PublishedRecords, PublishedTombstones;
    hide PublishedConnectivity, PublishedFreshness, Remembered, Positions, Activates;
    AdmissionIs(s, p, c);
    PositionsAre(s, c);
    ActivatedSources(s, c);
    Verdicts(Recent(Activated(s, c.source, Position(c.generation, c.session)), c.receivedAt).sequences.m, p, c,
             Lookup(s.records.m, KeyOf(p)), Lookup(s.tombstones.m, KeyOf(p)));
    SameDeleted(s, c);
  }

  lemma ActivatedSources(s: Store, c: Context)
    ensures Recent(Activated(s, c.source, Position(c.generation, c.session)), c.receivedAt).sources.m ==
            s.sources.m[c.source := Position(c.generation, c.session)]
  {
  }

  /** What was taken over is not taken over again, nor anything its source said of the resource before it in its session. */
  lemma NeverAgain(s: Store, p: Publication, c: Context, fits: bool, q: Publication, d: Context, also: bool)
    requires Published(s, p, c, fits).0.Accepted? && KeyOf(q) == KeyOf(p)
    requires d.source == c.source && d.generation == c.generation && d.session == c.session && d.sequence <= c.sequence
    ensures !Published(Published(s, p, c, fits).1, q, d, also).0.Accepted?
  {
    hide Published, Noted, OthersStand, SourceAdmitted, RoomForAsset, RoomForPosition, NotBarred, Version;
    AppliedEffect(s, p, c, fits);
    AcceptedExactly(Published(s, p, c, fits).1, q, d, also);
  }

  // ----- age ------------------------------------------------------------------------------------------

  /** Assets and tracks are shown for a while after they were last heard of: longer with vital signs than with a place. */
  predicate Moving(r: Record) { r.content.Entity? && r.content.kind != OtherEntity && (r.content.vital || r.content.geometry) }

  predicate TooOld(r: Record, now: int) {
    var age := now - r.context.receivedAt;
    || (r.content.Task? && r.content.terminal && age >= 600_000)
    || (Moving(r) && age >= if r.content.vital then 120_000 else 30_000)
  }

  predicate Ageing(r: Record, now: int) {
    var age := now - r.context.receivedAt;
    Moving(r) && !TooOld(r, now) && age >= (if r.content.vital then 30_000 else 5_000) && r.freshness == Fresh
  }

  /** The Asset's own record is going or gone. */
  predicate LosesTrack(records: map<Key, Record>, asset: string, now: int) {
    var a := Key(EntityType, asset);
    && a in records && records[a].content.Entity? && records[a].content.kind == AssetEntity
    && (TooOld(records[a], now) || Ageing(records[a], now))
  }

  /** As time passes, records too old go, ageing ones turn stale, and unfinished Tasks follow the loss of their Asset. */
  lemma RefreshedExactly(records: map<Key, Record>, order: seq<Key>, now: int, k: Key)
    requires Listed(order, records) && OwnKeys(records) && k in records
    ensures k in RefreshedRecords(records, order, now) <==> !TooOld(records[k], now)
    ensures !TooOld(records[k], now) ==>
              var r := records[k];
              RefreshedRecords(records, order, now)[k] ==
              if Ageing(r, now) then r.(freshness := Stale)
              else if r.content.Task? && !r.content.terminal && LosesTrack(records, r.content.asset, now)
              then r.(freshness := Degraded) else r
  {
    hide RefreshedRecords, Listed, OwnKeys, Expired, Aged, TooOld, Ageing;
    RefreshMeans(records, order, now, k);
    AgeIs(records[k], now);
    if records[k].content.Task? {
      var a := Key(EntityType, records[k].content.asset);
      if a in records { AgeIs(records[a], now); }
    }
  }

  lemma AgeIs(r: Record, now: int)
    ensures Expired(r, now) == TooOld(r, now) && Aged(r, now) == Ageing(r, now)
  {
  }

  /** An Asset counts as connected until nothing was heard of it for half a minute. */
  predicate WentSilent(connectivity: map<string, Connectivity>, a: string, now: int) {
    && a in connectivity && connectivity[a].connected && connectivity[a].receivedAt.Some?
    && now - connectivity[a].receivedAt.value >= 30_000
  }

  /** As time passes, exactly the silent Assets and those whose record goes or ages are disconnected. */
  lemma DisconnectedExactly(connectivity: map<string, Connectivity>, assets: seq<string>, records: map<Key, Record>,
                            order: seq<Key>, now: int, a: string)
    requires a in connectivity && a in assets && Listed(order, records)
    ensures var silenced := SilencedConnectivity(connectivity, assets, now);
            && a in silenced
            && silenced[a] == connectivity[a].(connected := connectivity[a].connected && !WentSilent(connectivity, a, now))
            && var n := RefreshedConnectivity(silenced, records, order, now);
               a in n && n[a] == silenced[a].(connected := silenced[a].connected && !LosesTrack(records, a, now))
  {
    hide TooOld, Ageing, Expired, Aged;
    var k := Key(EntityType, a);
    if k in records { AgeIs(records[k], now); }
  }

  /** The unfinished Tasks of silent Assets are degraded, and nothing else is. */
  lemma SilencedExactly(records: map<Key, Record>, connectivity: map<string, Connectivity>, assets: seq<string>, now: int, k: Key)
    requires k in records && forall a :: a in connectivity ==> a in assets
    ensures var n := SilencedRecords(records, connectivity, assets, now);
            var r := records[k];
            && k in n
            && n[k] == if r.content.Task? && !r.content.terminal && WentSilent(connectivity, r.content.asset, now)
                       then r.(freshness := Degraded) else r
  {
  }
}
