/** Loss, repetition and reordering between a sender of state deltas and a receiver (state-delta.ts). */
module StateDeltaRuns {
  import opened Wrappers
  import opened LinkTypes
  import opened Json
  import opened JsonPatch
  import opened StateDelta

  // Fixed for a run: the message contract and the options of both sides.
  datatype Setup = Setup(contract: Contract, interval: nat, senderLimit: nat, receiverLimit: nat)

  datatype Packet = Packet(identity: Identity, payload: Payload)

  // `ledger` is what was published under each identity, `wire` everything ever sent, `received` the fulls that
  // arrived for each scope since the receiver's cache last admitted it.
  datatype World = World(sender: Cache<SenderBaseline>, receiver: Cache<Kept>, ledger: map<Identity, Json>,
                         wire: set<Packet>, received: map<Scope, set<nat>>)

  datatype Step =
    | Publish(publication: Json, identity: Identity, now: int, asDelta: bool)
    | Commit(identity: Identity, sentAt: int)
    | Deliver(packet: Packet)

  function Sent(p: Prepared, asDelta: bool): Payload {
    if asDelta && p.delta.Some? then p.delta.value else Full(p.publication)
  }

  /** Sequence numbers are never reused, only sent fulls are committed, and only what was sent is delivered. */
  ghost predicate CanTake(s: Setup, w: World, step: Step) {
    match step
    case Publish(publication, identity, now, _) =>
      identity !in w.ledger && Prepare(s.contract, w.sender, s.interval, publication, identity, now).Success?
    case Commit(identity, _) =>
      identity in w.ledger && Packet(identity, Full(w.ledger[identity])) in w.wire
    case Deliver(packet) => packet in w.wire
  }

  ghost function Next(s: Setup, w: World, step: Step): World
    requires CanTake(s, w, step)
  {
    match step
    case Publish(publication, identity, now, asDelta) =>
      var p := Prepare(s.contract, w.sender, s.interval, publication, identity, now).value;
      w.(ledger := w.ledger[identity := publication], wire := w.wire + {Packet(identity, Sent(p, asDelta))})
    case Commit(identity, sentAt) => w.(sender := CommittedFull(s, w, identity, sentAt))
    case Deliver(packet) =>
      w.(receiver := Decoded(s.contract, w.receiver, s.receiverLimit, packet.payload, packet.identity).1,
         received := Noted(s, w, packet))
  }

  ghost function CommittedFull(s: Setup, w: World, identity: Identity, sentAt: int): Cache<SenderBaseline>
    requires identity in w.ledger
  {
    match s.contract.publishes(w.ledger[identity])
    case None => w.sender
    case Some(r) =>
      Committed(w.sender, s.senderLimit, Prepared(identity, w.ledger[identity], ScopeOf(identity, r), None), sentAt)
  }

  ghost function Noted(s: Setup, w: World, packet: Packet): map<Scope, set<nat>> {
    if packet.payload.Full? && s.contract.publishes(packet.payload.message).Some? then
      Received(w.receiver, w.received, ScopeOf(packet.identity, s.contract.publishes(packet.payload.message).value),
               packet.identity.sequence)
    else w.received
  }

  ghost predicate Run(s: Setup, worlds: seq<World>, steps: seq<Step>) {
    && |worlds| == |steps| + 1
    && worlds[0] == World(Cache(Table(map[]), []), Cache(Table(map[]), []), map[], {}, map[])
    && forall i :: 0 <= i < |steps| ==> CanTake(s, worlds[i], steps[i]) && worlds[i + 1] == Next(s, worlds[i], steps[i])
  }

  // ----- the invariant --------------------------------------------------------------------------------

  /** `sequence` names, within the scope, a publication that was published as `publication`. */
  ghost predicate OnLedger(s: Setup, ledger: map<Identity, Json>, scope: Scope, sequence: nat, publication: Json) {
    var i := Identity(scope.source, scope.generation, scope.session, sequence);
    i in ledger && ledger[i] == publication && s.contract.publishes(publication) == Some(scope.resource)
  }

  ghost predicate SenderTrue(s: Setup, w: World) {
    forall k :: k in w.sender.entries.m ==>
      OnLedger(s, w.ledger, k, w.sender.entries.m[k].sequence, w.sender.entries.m[k].publication)
  }

  ghost predicate KeptTrue(s: Setup, ledger: map<Identity, Json>, k: Scope, kept: Kept) {
    && OnLedger(s, ledger, k, kept.latest.sequence, kept.latest.publication)
    && (kept.previous.Some? ==> OnLedger(s, ledger, k, kept.previous.value.sequence, kept.previous.value.publication))
  }

  ghost predicate ReceiverTrue(s: Setup, w: World) {
    forall k :: k in w.receiver.entries.m ==> KeptTrue(s, w.ledger, k, w.receiver.entries.m[k])
  }

  /** What was sent is the publication itself or its difference from an earlier one of its scope. */
  ghost predicate PacketTrue(s: Setup, ledger: map<Identity, Json>, p: Packet) {
    && p.identity in ledger && ValidIdentity(s.contract, p.identity)
    && s.contract.publishes(ledger[p.identity]).Some?
    && s.contract.fullBytes(ledger[p.identity]) <= MAX_LINK_MESSAGE_BYTES
    && match p.payload
       case Malformed => false
       case Full(message) => message == ledger[p.identity]
       case Delta(r, sequence, patch) =>
         var base := Identity(p.identity.source, p.identity.generation, p.identity.session, sequence);
         && s.contract.publishes(ledger[p.identity]) == Some(r) && sequence < p.identity.sequence
         && base in ledger && patch == Diff(ledger[base], ledger[p.identity], [])
  }

  ghost predicate WireTrue(s: Setup, w: World) { forall p <- w.wire :: PacketTrue(s, w.ledger, p) }

  ghost predicate LedgerValid(s: Setup, w: World) {
    forall i :: i in w.ledger ==> s.contract.publishes(w.ledger[i]).Some?
  }

  ghost predicate Invariant(s: Setup, w: World) {
    && SenderTrue(s, w) && ReceiverTrue(s, w) && WireTrue(s, w) && LedgerValid(s, w)
    && Kempt(w.sender, s.senderLimit) && Kempt(w.receiver, s.receiverLimit)
    && KeepsNewest(w.receiver, w.received)
  }

  lemma PublishKeeps(s: Setup, w: World, publication: Json, identity: Identity, now: int, asDelta: bool)
    requires Invariant(s, w) && CanTake(s, w, Publish(publication, identity, now, asDelta))
    ensures Invariant(s, Next(s, w, Publish(publication, identity, now, asDelta)))
  {
    hide Diff, Usable, Kempt, KeepsNewest;
    var p := Prepare(s.contract, w.sender, s.interval, publication, identity, now).value;
    var next := Next(s, w, Publish(publication, identity, now, asDelta));
    PreparedTrue(s, w, publication, identity, now, asDelta);
    forall k, n, v | OnLedger(s, w.ledger, k, n, v) ensures OnLedger(s, next.ledger, k, n, v) { }
    forall q | q in w.wire ensures PacketTrue(s, next.ledger, q) {
      assert PacketTrue(s, w.ledger, q);
    }
  }

  lemma PreparedTrue(s: Setup, w: World, publication: Json, identity: Identity, now: int, asDelta: bool)
    requires SenderTrue(s, w) && CanTake(s, w, Publish(publication, identity, now, asDelta))
    ensures var p := Prepare(s.contract, w.sender, s.interval, publication, identity, now).value;
            PacketTrue(s, w.ledger[identity := publication], Packet(identity, Sent(p, asDelta)))
  {
    hide Diff;
    var p := Prepare(s.contract, w.sender, s.interval, publication, identity, now).value;
    if p.delta.Some? {
      assert OnLedger(s, w.ledger, p.scope, w.sender.entries.m[p.scope].sequence, w.sender.entries.m[p.scope].publication);
    }
  }

  lemma CommitKeeps(s: Setup, w: World, identity: Identity, sentAt: int)
    requires Invariant(s, w) && CanTake(s, w, Commit(identity, sentAt)) && s.senderLimit >= 1
    ensures Invariant(s, Next(s, w, Commit(identity, sentAt)))
  {
    hide Diff, Renewed, KeepsNewest, PacketTrue, KeptTrue;
    var scope := ScopeOf(identity, s.contract.publishes(w.ledger[identity]).value);
    RenewedKeeps(w.sender, scope, SenderBaseline(w.ledger[identity], identity.sequence, sentAt), s.senderLimit);
    assert OnLedger(s, w.ledger, scope, identity.sequence, w.ledger[identity]);
  }

  lemma DeliverKeeps(s: Setup, w: World, packet: Packet)
    requires Invariant(s, w) && CanTake(s, w, Deliver(packet)) && s.receiverLimit >= 1
    ensures Invariant(s, Next(s, w, Deliver(packet)))
  {
    hide Diff, Remembered, Restored, KeepsNewest, OnLedger, KeptTrue, Received, Kempt;
    assert PacketTrue(s, w.ledger, packet);
    if packet.payload.Full? {
      var message := packet.payload.message;
      var scope := ScopeOf(packet.identity, s.contract.publishes(message).value);
      RememberKeepsNewest(w.receiver, s.receiverLimit, scope, Baseline(message, packet.identity.sequence), w.received);
      RememberTrue(s, w, scope, message, packet.identity);
    }
  }

  lemma RememberTrue(s: Setup, w: World, scope: Scope, message: Json, i: Identity)
    requires ReceiverTrue(s, w) && Kempt(w.receiver, s.receiverLimit) && s.receiverLimit >= 1
    requires i in w.ledger && w.ledger[i] == message && s.contract.publishes(message).Some?
    requires scope == ScopeOf(i, s.contract.publishes(message).value)
    ensures var c := Remembered(w.receiver, s.receiverLimit, scope, Baseline(message, i.sequence));
            forall k :: k in c.entries.m ==> KeptTrue(s, w.ledger, k, c.entries.m[k])
  {
    hide Renewed, Kempt;
    assert OnLedger(s, w.ledger, scope, i.sequence, message);
    var incoming := Baseline(message, i.sequence);
    if scope in w.receiver.entries.m {
      assert KeptTrue(s, w.ledger, scope, w.receiver.entries.m[scope]);
      RenewedKeeps(w.receiver, scope, Kept(incoming, Some(w.receiver.entries.m[scope].latest)), s.receiverLimit);
    } else {
      RenewedKeeps(w.receiver, scope, Kept(incoming, None), s.receiverLimit);
    }
  }

  lemma {:induction false} RunKeeps(s: Setup, worlds: seq<World>, steps: seq<Step>, n: nat)
    requires Run(s, worlds, steps) && n < |worlds| && s.senderLimit >= 1 && s.receiverLimit >= 1
    ensures Invariant(s, worlds[n])
  {
    if n > 0 {
      RunKeeps(s, worlds, steps, n - 1);
      hide Invariant, Next;
      match steps[n - 1] {
        case Publish(publication, identity, now, asDelta) =>
          PublishKeeps(s, worlds[n - 1], publication, identity, now, asDelta);
        case Commit(identity, sentAt) => CommitKeeps(s, worlds[n - 1], identity, sentAt);
        case Deliver(packet) => DeliverKeeps(s, worlds[n - 1], packet);
      }
    }
  }

  // ----- the results ----------------------------------------------------------------------------------

  /** The receiver holds the publication that a delta starts from. */
  ghost predicate HoldsBaseline(c: Cache<Kept>, r: Resource, sequence: nat, i: Identity) {
    ScopeOf(i, r) in c.entries.m && FindBaseline(c.entries.m[ScopeOf(i, r)], sequence).Some?
  }

  /**
    Under any loss, repetition and reordering, decoding what was sent gives exactly the publication that was
    published under that identity, or nothing; and nothing exactly for a delta whose baseline is not held.
    */
  lemma DecodingIsSound(s: Setup, worlds: seq<World>, steps: seq<Step>, n: nat, packet: Packet)
    requires Run(s, worlds, steps) && n < |worlds| && s.senderLimit >= 1 && s.receiverLimit >= 1
    requires packet in worlds[n].wire
    ensures var w := worlds[n];
            var r := Decoded(s.contract, w.receiver, s.receiverLimit, packet.payload, packet.identity).0;
            && packet.identity in w.ledger
            && r == (if (packet.payload.Delta?
                         && !HoldsBaseline(w.receiver, packet.payload.resource, packet.payload.baseline, packet.identity))
                     then None else Some(w.ledger[packet.identity]))
  {
    RunKeeps(s, worlds, steps, n);
    var w := worlds[n];
    hide Diff, Remembered, Patched, Run, Kempt, KeepsNewest;
    assert PacketTrue(s, w.ledger, packet);
    if packet.payload.Delta? {
      var r, sequence := packet.payload.resource, packet.payload.baseline;
      if HoldsBaseline(w.receiver, r, sequence, packet.identity) {
        assert KeptTrue(s, w.ledger, ScopeOf(packet.identity, r), w.receiver.entries.m[ScopeOf(packet.identity, r)]);
        var b := FindBaseline(w.receiver.entries.m[ScopeOf(packet.identity, r)], sequence).value;
        DeltaRestores(s.contract, w.receiver, r, SenderBaseline(b.publication, b.sequence, 0),
                      w.ledger[packet.identity], packet.identity);
      }
    }
  }

  /** In every reachable state each remembered scope holds the two newest fulls received since it was admitted. */
  lemma NewestAreKept(s: Setup, worlds: seq<World>, steps: seq<Step>, n: nat, k: Scope)
    requires Run(s, worlds, steps) && n < |worlds| && s.senderLimit >= 1 && s.receiverLimit >= 1
    requires k in worlds[n].receiver.entries.m
    ensures k in worlds[n].received && TwoNewest(worlds[n].receiver.entries.m[k], worlds[n].received[k])
    ensures |worlds[n].receiver.order| <= s.receiverLimit
  {
    RunKeeps(s, worlds, steps, n);
  }
}
