/** Full publications, deltas against them, and what sender and receiver remember (state-delta.ts). */
module StateDelta {
  import opened Wrappers
  import opened LinkTypes
  import opened Json
  import opened JsonPatch

  const MAX_LINK_MESSAGE_BYTES: nat := 131_072

  datatype PublicationType = EntityPublication | TaskPublication | ObjectPublication

  datatype Resource = Resource(kind: PublicationType, id: Text)

  datatype Identity = Identity(source: Node, generation: nat, session: string, sequence: nat)

  /** `scopeKey` */
  datatype Scope = Scope(source: Node, generation: nat, session: string, resource: Resource)

  datatype Payload = Full(message: Json) | Delta(resource: Resource, baseline: nat, patch: Patch) | Malformed

  /**
    What the message contract says: the resource of a valid state publication, the length of its canonical text,
    the length of a delta envelope if its parts can be encoded, and which names are more than white space.
    */
  datatype Contract = Contract(
    publishes: Json -> Option<Resource>,
    fullBytes: Json -> nat,
    deltaBytes: (Resource, nat, Patch) -> Option<nat>,
    named: string -> bool)

  datatype SenderBaseline = SenderBaseline(publication: Json, sequence: nat, sentAt: int)

  datatype Baseline = Baseline(publication: Json, sequence: nat)

  datatype Kept = Kept(latest: Baseline, previous: Option<Baseline>)

  // A JavaScript `Map`: entries with the order in which they were added.
  datatype Cache<V> = Cache(entries: Table<Scope, V>, order: seq<Scope>)

  datatype Refusal = InvalidIdentity | InvalidPublication | TooLong

  // A full publication that may be committed once sent, and perhaps a delta to send instead.
  datatype Prepared = Prepared(identity: Identity, publication: Json, scope: Scope, delta: Option<Payload>)

  // ----- a cache that forgets its oldest scopes -------------------------------------------------------

  ghost predicate Kempt<V>(c: Cache<V>, limit: nat) {
    Distinct(c.order) && (forall k :: k in c.order <==> k in c.entries.m) && |c.order| <= limit
  }

  function Oldest<V>(c: Cache<V>, limit: nat): Cache<V>
    decreases |c.order|
  {
    if |c.order| <= limit then c else Oldest(Cache(c.entries.Drop(c.order[0]), c.order[1..]), limit)
  }

  /** Deleting, setting and then evicting from the front: `k` becomes the newest entry. */
  function Renewed<V>(c: Cache<V>, k: Scope, v: V, limit: nat): Cache<V> {
    Oldest(Cache(c.entries.Put(k, v), Excluding(c.order, k) + [k]), limit)
  }

  lemma {:induction false} ExcludingSize<T>(order: seq<T>, k: T)
    ensures |Excluding(order, k)| <= |order|
  {
    if order != [] {
      ExcludingSize(order[1..], k);
    }
  }

  /** Renewing keeps the cache within its limit, changes the renewed entry and at most forgets others. */
  lemma RenewedKeeps<V>(c: Cache<V>, k: Scope, v: V, limit: nat)
    requires Kempt(c, limit) && limit >= 1
    ensures var n := Renewed(c, k, v, limit);
            && Kempt(n, limit) && k in n.entries.m && n.entries.m[k] == v
            && forall q :: q in n.entries.m && q != k ==> q in c.entries.m && n.entries.m[q] == c.entries.m[q]
  {
    ExcludingKeeps(c.order, k);
    ExcludingSize(c.order, k);
    var next := Cache(c.entries.Put(k, v), Excluding(c.order, k) + [k]);
    assert forall q :: q in next.order <==> q in next.entries.m;
    DistinctAppended(Excluding(c.order, k), k);
    if |next.order| > limit {
      assert next.order[0] != k;
      assert forall q :: q in next.order <==> q == next.order[0] || q in next.order[1..];
      assert Oldest(next, limit) == Cache(next.entries.Drop(next.order[0]), next.order[1..]);
    }
  }

  // ----- the sender -----------------------------------------------------------------------------------

  predicate ValidIdentity(contract: Contract, i: Identity) {
    contract.named(i.source.id) && contract.named(i.session)
    && i.generation <= MAX_SAFE_INTEGER && i.sequence <= MAX_SAFE_INTEGER
  }

  function ScopeOf(i: Identity, r: Resource): Scope { Scope(i.source, i.generation, i.session, r) }

  /** A delta against the baseline, if it can be encoded within the limit of a message. */
  function DeltaAgainst(contract: Contract, r: Resource, b: SenderBaseline, publication: Json): Option<Payload> {
    var patch := Diff(b.publication, publication, []);
    var bytes := contract.deltaBytes(r, b.sequence, patch);
    if bytes.Some? && bytes.value <= MAX_LINK_MESSAGE_BYTES then Some(Delta(r, b.sequence, patch)) else None
  }

  predicate Usable(b: SenderBaseline, i: Identity, interval: nat, now: int) {
    now - b.sentAt < interval && b.sequence < i.sequence
  }

  /** `prepare` */
  function Prepare(contract: Contract, baselines: Cache<SenderBaseline>, interval: nat, publication: Json, i: Identity,
                   now: int): Result<Prepared, Refusal>
  {
    var r := contract.publishes(publication);
    if !ValidIdentity(contract, i) then Failure(InvalidIdentity)
    else if r.None? then Failure(InvalidPublication)
    else if contract.fullBytes(publication) > MAX_LINK_MESSAGE_BYTES then Failure(TooLong)
    else
      var scope := ScopeOf(i, r.value);
      var delta :=
        if scope in baselines.entries.m && Usable(baselines.entries.m[scope], i, interval, now) then
          DeltaAgainst(contract, r.value, baselines.entries.m[scope], publication)
        else None;
      Success(Prepared(i, publication, scope, delta))
  }

  /** `commitFull`, the first time it is called. */
  function Committed(baselines: Cache<SenderBaseline>, limit: nat, p: Prepared, sentAt: int): Cache<SenderBaseline> {
    if p.scope in baselines.entries.m && baselines.entries.m[p.scope].sequence >= p.identity.sequence then baselines
    else Renewed(baselines, p.scope, SenderBaseline(p.publication, p.identity.sequence, sentAt), limit)
  }

  /** The source and session have names, and the numbers can be told apart from their neighbours. */
  predicate Proper(contract: Contract, i: Identity) {
    contract.named(i.source.id) && contract.named(i.session) && i.generation < 0x20_0000_0000_0000 && i.sequence < 0x20_0000_0000_0000
  }

  /** A full publication of the same resource in the same session, sent before this one and not too long ago. */
  predicate Recent(baselines: Cache<SenderBaseline>, scope: Scope, i: Identity, interval: nat, now: int) {
    && scope in baselines.entries.m && baselines.entries.m[scope].sequence < i.sequence
    && baselines.entries.m[scope].sentAt > now - interval
  }

  /** A valid publication that fits into a message is prepared, and nothing else is. */
  lemma PreparesExactly(contract: Contract, baselines: Cache<SenderBaseline>, interval: nat, publication: Json, i: Identity,
                        now: int)
    ensures Prepare(contract, baselines, interval, publication, i, now).Success? <==>
            Proper(contract, i) && contract.publishes(publication).Some? && contract.fullBytes(publication) <= 131_072
  {
    hide DeltaAgainst;
  }

  /**
    A delta is offered exactly if there is a recent full publication to build on and the change since then can be encoded
    within the limit of a message; it names that publication and turns its document into this one.
    */
  lemma DeltaOfferedExactly(contract: Contract, baselines: Cache<SenderBaseline>, interval: nat, publication: Json, i: Identity,
                            now: int)
    requires Proper(contract, i) && contract.publishes(publication).Some? && contract.fullBytes(publication) <= 131_072
    ensures var r := contract.publishes(publication).value;
            var scope := Scope(i.source, i.generation, i.session, r);
            match Prepare(contract, baselines, interval, publication, i, now)
            case Failure(_) => false
            case Success(p) =>
              && p.identity == i && p.publication == publication && p.scope == scope
              && (!Recent(baselines, scope, i, interval, now) ==> p.delta == None)
              && (Recent(baselines, scope, i, interval, now) ==>
                    var b := baselines.entries.m[scope];
                    var patch := Diff(b.publication, publication, []);
                    var size := contract.deltaBytes(r, b.sequence, patch);
                    && p.delta == (if size.Some? && size.value <= 131_072 then Some(Delta(r, b.sequence, patch)) else None)
                    && Patched(b.publication, patch) == Some(publication))
  {
    hide Diff, Patched;
    var scope := Scope(i.source, i.generation, i.session, contract.publishes(publication).value);
    if scope in baselines.entries.m { DiffRebuilds(baselines.entries.m[scope].publication, publication); }
  }

  /** What was sent in full is built on from then on, unless something later was already. */
  lemma CommitsExactly(baselines: Cache<SenderBaseline>, limit: nat, p: Prepared, sentAt: int)
    requires Kempt(baselines, limit) && limit >= 1
    ensures var n := Committed(baselines, limit, p, sentAt);
            var later := p.scope in baselines.entries.m && baselines.entries.m[p.scope].sequence >= p.identity.sequence;
            && p.scope in n.entries.m
            && n.entries.m[p.scope] == if later then baselines.entries.m[p.scope]
                                       else SenderBaseline(p.publication, p.identity.sequence, sentAt)
  {
    hide Renewed;
    RenewedKeeps(baselines, p.scope, SenderBaseline(p.publication, p.identity.sequence, sentAt), limit);
  }

  // ----- the receiver ---------------------------------------------------------------------------------

  /** `rememberFull` */
  function Remembered(c: Cache<Kept>, limit: nat, scope: Scope, incoming: Baseline): Cache<Kept> {
    if scope in c.entries.m then
      var kept := c.entries.m[scope];
      if incoming.sequence == kept.latest.sequence then c
      else if incoming.sequence < kept.latest.sequence then
        if kept.previous.None? || incoming.sequence > kept.previous.value.sequence then
          c.(entries := c.entries.Put(scope, kept.(previous := Some(incoming))))
        else c
      else Renewed(c, scope, Kept(incoming, Some(kept.latest)), limit)
    else Renewed(c, scope, Kept(incoming, None), limit)
  }

  function FindBaseline(kept: Kept, sequence: nat): Option<Baseline> {
    if kept.latest.sequence == sequence then Some(kept.latest)
    else if kept.previous.Some? && kept.previous.value.sequence == sequence then kept.previous
    else None
  }

  /** `decodeDelta` */
  function Restored(contract: Contract, c: Cache<Kept>, r: Resource, sequence: nat, patch: Patch, i: Identity):
    Option<Json>
  {
    var scope := ScopeOf(i, r);
    if sequence >= i.sequence || scope !in c.entries.m then None
    else
      match FindBaseline(c.entries.m[scope], sequence)
      case None => None
      case Some(b) =>
        var result := Patched(b.publication, patch);
        if result.None? || contract.publishes(result.value) != Some(r) then None
        else if contract.fullBytes(result.value) > MAX_LINK_MESSAGE_BYTES then None
        else result
  }

  /** `decode`: the publication, if it can be told, and what the receiver remembers afterwards. */
  function Decoded(contract: Contract, c: Cache<Kept>, limit: nat, payload: Payload, i: Identity):
    (Option<Json>, Cache<Kept>)
  {
    if !ValidIdentity(contract, i) then (None, c)
    else
      match payload
      case Malformed => (None, c)
      case Delta(r, sequence, patch) => (Restored(contract, c, r, sequence, patch, i), c)
      case Full(message) =>
        if contract.publishes(message).None? || contract.fullBytes(message) > MAX_LINK_MESSAGE_BYTES then (None, c)
        else (Some(message),
              Remembered(c, limit, ScopeOf(i, contract.publishes(message).value), Baseline(message, i.sequence)))
  }

  /** A delta against a baseline the receiver still keeps is decoded to exactly the publication. */
  lemma DeltaRestores(contract: Contract, c: Cache<Kept>, r: Resource, b: SenderBaseline, publication: Json, i: Identity)
    requires contract.publishes(publication) == Some(r) && contract.fullBytes(publication) <= MAX_LINK_MESSAGE_BYTES
    requires b.sequence < i.sequence && ScopeOf(i, r) in c.entries.m
    requires FindBaseline(c.entries.m[ScopeOf(i, r)], b.sequence) == Some(Baseline(b.publication, b.sequence))
    ensures Restored(contract, c, r, b.sequence, Diff(b.publication, publication, []), i) == Some(publication)
  {
    DiffRebuilds(b.publication, publication);
    hide Diff, Patched;
  }

  /** One of the two full publications kept, with that number. */
  predicate Keeps(kept: Kept, sequence: nat, document: Json) {
    || (kept.latest.sequence == sequence && kept.latest.publication == document)
    || (kept.latest.sequence != sequence && kept.previous.Some? && kept.previous.value == Baseline(document, sequence))
  }

  /**
    A payload is told exactly if it is a valid full publication that fits, or a delta against an earlier one that is kept
    and gives a valid publication of its resource that fits.
    */
  lemma DecodesExactly(contract: Contract, c: Cache<Kept>, limit: nat, payload: Payload, i: Identity, told: Json)
    ensures Decoded(contract, c, limit, payload, i).0 == Some(told) <==>
            && Proper(contract, i) && contract.fullBytes(told) <= 131_072
            && match payload
               case Malformed => false
               case Full(message) => message == told && contract.publishes(told).Some?
               case Delta(r, sequence, patch) =>
                 var scope := Scope(i.source, i.generation, i.session, r);
                 && contract.publishes(told) == Some(r) && sequence < i.sequence && scope in c.entries.m
                 && exists document :: Keeps(c.entries.m[scope], sequence, document) && Patched(document, patch) == Some(told)
  {
    hide Patched;
    if payload.Delta? {
      var scope := Scope(i.source, i.generation, i.session, payload.resource);
      if scope in c.entries.m {
        var b := FindBaseline(c.entries.m[scope], payload.baseline);
        assert b.Some? ==> Keeps(c.entries.m[scope], payload.baseline, b.value.publication);
      }
    }
  }

  // ----- which baselines the receiver keeps -----------------------------------------------------------

  /** The largest two of the sequence numbers received. */
  ghost predicate TwoNewest(kept: Kept, received: set<nat>) {
    && kept.latest.sequence in received && (forall n <- received :: n <= kept.latest.sequence)
    && (kept.previous.None? ==> received == {kept.latest.sequence})
    && (kept.previous.Some? ==>
          && kept.previous.value.sequence in received && kept.previous.value.sequence < kept.latest.sequence
          && forall n <- received :: n == kept.latest.sequence || n <= kept.previous.value.sequence)
  }

  /** The fulls received for each scope since the cache last admitted it. */
  ghost function Received(c: Cache<Kept>, received: map<Scope, set<nat>>, scope: Scope, sequence: nat):
    map<Scope, set<nat>>
  {
    received[scope := (if scope in c.entries.m && scope in received then received[scope] else {}) + {sequence}]
  }

  ghost predicate KeepsNewest(c: Cache<Kept>, received: map<Scope, set<nat>>) {
    forall k :: k in c.entries.m ==> k in received && TwoNewest(c.entries.m[k], received[k])
  }

  /** What one more full publication makes of the two kept. */
  function Updated(kept: Kept, incoming: Baseline): Kept {
    if incoming.sequence > kept.latest.sequence then Kept(incoming, Some(kept.latest))
    else if incoming.sequence < kept.latest.sequence
            && (kept.previous.None? || incoming.sequence > kept.previous.value.sequence) then kept.(previous := Some(incoming))
    else kept
  }

  lemma UpdatedNewest(kept: Kept, got: set<nat>, incoming: Baseline)
    requires TwoNewest(kept, got)
    ensures TwoNewest(Updated(kept, incoming), got + {incoming.sequence})
  {
  }

  lemma FirstNewest(incoming: Baseline)
    ensures TwoNewest(Kept(incoming, None), {} + {incoming.sequence})
  {
  }

  /** Whatever the order of arrival, each scope keeps its two newest fulls. */
  lemma RememberKeepsNewest(c: Cache<Kept>, limit: nat, scope: Scope, incoming: Baseline, received: map<Scope, set<nat>>)
    requires Kempt(c, limit) && limit >= 1 && KeepsNewest(c, received)
    ensures Kempt(Remembered(c, limit, scope, incoming), limit)
    ensures KeepsNewest(Remembered(c, limit, scope, incoming), Received(c, received, scope, incoming.sequence))
  {
    hide Renewed, TwoNewest;
    if scope in c.entries.m {
      RenewedKeeps(c, scope, Kept(incoming, Some(c.entries.m[scope].latest)), limit);
      UpdatedNewest(c.entries.m[scope], received[scope], incoming);
    } else {
      RenewedKeeps(c, scope, Kept(incoming, None), limit);
      FirstNewest(incoming);
    }
  }
}
