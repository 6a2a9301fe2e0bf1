/** The encoder and decoder of state deltas as objects (state-delta.ts). */
module StateDeltaCodec {
  import opened Wrappers
  import opened LinkTypes
  import opened Json
  import opened JsonPatch
  import opened StateDelta

  /** A preparation whose full publication may be committed once. */
  class PreparedFull {
    const prepared: Prepared
    var committed: bool

    constructor (prepared: Prepared)
      ensures this.prepared == prepared && !committed
    {
      this.prepared := prepared;
      committed := false;
    }
  }

  /** Deleting a scope, setting it again and evicting the oldest scopes. */
  method Renew<V>(c: Cache<V>, k: Scope, v: V, limit: nat) returns (n: Cache<V>)
    ensures n == Renewed(c, k, v, limit)
  {
    n := Cache(c.entries.Put(k, v), Excluding(c.order, k) + [k]);
    while |n.order| > limit
      invariant Oldest(n, limit) == Renewed(c, k, v, limit)
      decreases |n.order|
    {
      n := Cache(n.entries.Drop(n.order[0]), n.order[1..]);
    }
  }

  class StateDeltaEncoder {
    const contract: Contract
    const interval: nat
    const limit: nat
    var baselines: Cache<SenderBaseline>

    ghost predicate Valid()
      reads this
    {
      limit >= 1 && Kempt(baselines, limit)
    }

    constructor (contract: Contract, interval: nat, limit: nat)
      requires interval >= 1 && limit >= 1
      ensures Valid() && baselines == Cache(Table(map[]), [])
      ensures this.contract == contract && this.interval == interval && this.limit == limit
    {
      this.contract, this.interval, this.limit := contract, interval, limit;
      baselines := Cache(Table(map[]), []);
    }

    /** `prepare`: nothing is remembered until the full publication is committed. */
    method PrepareState(publication: Json, i: Identity, now: int) returns (r: Result<PreparedFull, Refusal>)
      requires Valid()
      ensures match Prepare(contract, baselines, interval, publication, i, now)
              case Failure(e) => r == Failure(e)
              case Success(p) => r.Success? && fresh(r.value) && r.value.prepared == p && !r.value.committed
    {
      hide DeltaAgainst, Kempt;
      if !ValidIdentity(contract, i) { return Failure(InvalidIdentity); }
      var resource := contract.publishes(publication);
      if resource.None? { return Failure(InvalidPublication); }
      if contract.fullBytes(publication) > MAX_LINK_MESSAGE_BYTES { return Failure(TooLong); }
      var scope := ScopeOf(i, resource.value);
      var delta := None;
      if scope in baselines.entries.m {
        var baseline := baselines.entries.m[scope];
        if now - baseline.sentAt < interval && baseline.sequence < i.sequence {
          delta := DeltaAgainst(contract, resource.value, baseline, publication);
        }
      }
      var p := new PreparedFull(Prepared(i, publication, scope, delta));
      return Success(p);
    }

    /** `commitFull` */
    method CommitFull(p: PreparedFull, sentAt: int)
      requires Valid()
      modifies `baselines, p
      ensures Valid() && p.committed
      ensures baselines ==
              if old(p.committed) then old(baselines) else Committed(old(baselines), limit, p.prepared, sentAt)
    {
      hide Renewed, Kempt;
      if p.committed { return; }
      p.committed := true;
      var scope, sequence := p.prepared.scope, p.prepared.identity.sequence;
      if scope in baselines.entries.m && baselines.entries.m[scope].sequence >= sequence { return; }
      var entry := SenderBaseline(p.prepared.publication, sequence, sentAt);
      RenewedKeeps(baselines, scope, entry, limit);
      baselines := Renew(baselines, scope, entry, limit);
    }
  }

  class StateDeltaDecoder {
    const contract: Contract
    const limit: nat
    var baselines: Cache<Kept>
    ghost var received: map<Scope, set<nat>>

    /** Each remembered scope holds the two newest fulls received since it was admitted. */
    ghost predicate Valid()
      reads this
    {
      limit >= 1 && Kempt(baselines, limit) && KeepsNewest(baselines, received)
    }

    constructor (contract: Contract, limit: nat)
      requires limit >= 1
      ensures Valid() && baselines == Cache(Table(map[]), [])
      ensures this.contract == contract && this.limit == limit
    {
      this.contract, this.limit := contract, limit;
      baselines, received := Cache(Table(map[]), []), map[];
    }

    /** `rememberFull` */
    method RememberFull(publication: Json, scope: Scope, sequence: nat)
      requires Valid()
      modifies this
      ensures Valid() && baselines == Remembered(old(baselines), limit, scope, Baseline(publication, sequence))
      ensures received == Received(old(baselines), old(received), scope, sequence)
    {
      hide Renewed, Kempt, KeepsNewest, Received;
      var incoming := Baseline(publication, sequence);
      RememberKeepsNewest(baselines, limit, scope, incoming, received);
      received := Received(baselines, received, scope, sequence);
      if scope in baselines.entries.m {
        var kept := baselines.entries.m[scope];
        if sequence == kept.latest.sequence { return; }
        if sequence < kept.latest.sequence {
          if kept.previous.None? || sequence > kept.previous.value.sequence {
            baselines := baselines.(entries := baselines.entries.Put(scope, kept.(previous := Some(incoming))));
          }
          return;
        }
        baselines := Renew(baselines, scope, Kept(incoming, Some(kept.latest)), limit);
      } else {
        baselines := Renew(baselines, scope, Kept(incoming, None), limit);
      }
    }

    /** `decodeDelta` */
    method DecodeDelta(resource: Resource, sequence: nat, patch: Patch, i: Identity) returns (r: Option<Json>)
      requires Valid()
      ensures r == Restored(contract, baselines, resource, sequence, patch, i)
    {
      hide Patched, Kempt, KeepsNewest;
      if sequence >= i.sequence { return None; }
      var scope := ScopeOf(i, resource);
      if scope !in baselines.entries.m { return None; }
      var baseline := FindBaseline(baselines.entries.m[scope], sequence);
      if baseline.None? { return None; }
      var result := ApplyPatch(baseline.value.publication, patch);
      if result.None? || contract.publishes(result.value) != Some(resource) { return None; }
      if contract.fullBytes(result.value) > MAX_LINK_MESSAGE_BYTES { return None; }
      return result;
    }

    /** `decode` */
    method Decode(payload: Payload, i: Identity) returns (r: Option<Json>)
      requires Valid()
      modifies this
      ensures Valid() && (r, baselines) == Decoded(contract, old(baselines), limit, payload, i)
    {
      hide Restored, Remembered, Kempt, KeepsNewest;
      if !ValidIdentity(contract, i) { return None; }
      match payload {
        case Malformed => return None;
        case Delta(resource, sequence, patch) =>
          r := DecodeDelta(resource, sequence, patch, i);
        case Full(message) =>
          var resource := contract.publishes(message);
          if resource.None? || contract.fullBytes(message) > MAX_LINK_MESSAGE_BYTES { return None; }
          RememberFull(message, ScopeOf(i, resource.value), i.sequence);
          r := Some(message);
      }
    }
  }
}
