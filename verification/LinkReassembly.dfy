/** Collecting the chunks of one message from frames that may repeat or come in any order (transport.ts). */
module LinkReassembly {
  import opened Wrappers
  import opened LinkTypes

  const MAX_LINK_MESSAGE_BYTES: nat := 131_072
  const MAX_LINK_FRAGMENTS: nat := 4096

  type Bytes = seq<Byte>

  datatype Receipt = Receipt(op: OpId, msgId: nat)

  /** Everything a frame says about its message. */
  datatype Identity = Identity(kind: Kind, source: Node, dest: Option<Node>, generation: nat, session: string,
                               sequence: nat, op: OpId, msgId: nat, receipt: Option<Receipt>, priority: Priority)

  datatype Frame = Frame(identity: Identity, index: nat, count: nat, payload: Bytes) {
    /** What `decodeFrame` guarantees. */
    predicate WellFormed() {
      && index < count <= MAX_LINK_FRAGMENTS && payload != []
      && (identity.receipt.Some? ==> identity.kind.ReportKind? && identity.dest.Some? && count == 1)
    }
  }

  datatype Key = Key(source: Node, generation: nat, session: string, msgId: nat)

  function KeyOf(i: Identity): Key { Key(i.source, i.generation, i.session, i.msgId) }

  datatype Reassembly = Reassembly(identity: Identity, chunks: Table<nat, Bytes>, count: nat, size: nat, expiresAt: nat,
                                   lastReceivedAt: nat)

  /** What one more frame does to a reassembly. */
  datatype Reception = Ignored | Collecting(reassembly: Reassembly) | Oversized | Completed(bytes: Bytes)

  /** The frame is part of the same transmission of the same message. */
  predicate SameFrameSet(r: Reassembly, f: Frame) {
    var i := r.identity;
    var j := f.identity;
    && r.count == f.count && i.kind == j.kind && i.source == j.source && i.dest == j.dest && i.generation == j.generation
    && i.session == j.session && i.sequence == j.sequence && i.op == j.op && i.priority == j.priority
  }

  function Chunk(chunks: Table<nat, Bytes>, i: nat): Bytes { if i in chunks.m then chunks.m[i] else [] }

  function Join(chunks: Table<nat, Bytes>, count: nat): Bytes {
    if count == 0 then [] else Join(chunks, count - 1) + Chunk(chunks, count - 1)
  }

  function Accept(r: Reassembly, f: Frame, receivedAt: nat): Reception {
    if !SameFrameSet(r, f) || f.index in r.chunks.m then Ignored
    else if r.size + |f.payload| > MAX_LINK_MESSAGE_BYTES then Oversized
    else
      var chunks := r.chunks.Put(f.index, f.payload);
      if |chunks.m| != r.count then
        Collecting(r.(chunks := chunks, size := r.size + |f.payload|, lastReceivedAt := receivedAt))
      else Completed(Join(chunks, r.count))
  }

  function Begin(f: Frame, receivedAt: nat, expiresAt: nat): Reassembly {
    Reassembly(f.identity, Table(map[]), f.count, 0, expiresAt, receivedAt)
  }

  // ----- the bounded table, in insertion order -----------------------------------------------------

  function Find(rs: seq<Reassembly>, key: Key): (found: Option<nat>)
    ensures found.Some? ==> found.value < |rs| && KeyOf(rs[found.value].identity) == key
    ensures found.None? ==> forall i :: 0 <= i < |rs| ==> KeyOf(rs[i].identity) != key
  {
    if rs == [] then None
    else
      var earlier := Find(rs[..|rs| - 1], key);
      if earlier.Some? then earlier
      else if KeyOf(rs[|rs| - 1].identity) == key then Some(|rs| - 1) else None
  }

  function RemoveAt(rs: seq<Reassembly>, i: nat): seq<Reassembly> {
    if i < |rs| then rs[..i] + rs[i + 1..] else rs
  }

  /** The first of those heard from longest ago. */
  function Oldest(rs: seq<Reassembly>): (i: nat)
    requires rs != []
    ensures i < |rs|
    ensures forall j :: 0 <= j < |rs| ==> rs[i].lastReceivedAt <= rs[j].lastReceivedAt
    ensures forall j :: 0 <= j < i ==> rs[i].lastReceivedAt < rs[j].lastReceivedAt
  {
    if |rs| == 1 then 0
    else
      var before := Oldest(rs[..|rs| - 1]);
      if rs[|rs| - 1].lastReceivedAt < rs[before].lastReceivedAt then |rs| - 1 else before
  }

  function MakeRoom(rs: seq<Reassembly>, limit: nat): seq<Reassembly> {
    if |rs| < limit || rs == [] then rs else RemoveAt(rs, Oldest(rs))
  }

  /** The table after a frame, and the message it completes. */
  function Collect(rs: seq<Reassembly>, limit: nat, f: Frame, receivedAt: nat, expiresAt: nat)
    : (seq<Reassembly>, Option<(Identity, Bytes)>)
  {
    var known := Find(rs, KeyOf(f.identity));
    var table := if known.Some? then rs else MakeRoom(rs, limit) + [Begin(f, receivedAt, expiresAt)];
    var at := if known.Some? then known.value else |table| - 1;
    match Accept(table[at], f, receivedAt)
    case Ignored => (table, None)
    case Collecting(r) => (table[at := r], None)
    case Oversized => (RemoveAt(table, at), None)
    case Completed(bytes) => (RemoveAt(table, at), Some((table[at].identity, bytes)))
  }

  // ----- what the table keeps ------------------------------------------------------------------------

  ghost predicate Incomplete(r: Reassembly) {
    && 0 < r.count <= MAX_LINK_FRAGMENTS && |r.chunks.m| < r.count
    && (forall i :: i in r.chunks.m ==> i < r.count && r.chunks.m[i] != [])
    && r.size == |Join(r.chunks, r.count)| <= MAX_LINK_MESSAGE_BYTES
  }

  ghost predicate TableOk(rs: seq<Reassembly>, limit: nat) {
    && |rs| <= limit
    && (forall i :: 0 <= i < |rs| ==> Incomplete(rs[i]))
    && (forall i, j :: 0 <= i < j < |rs| ==> KeyOf(rs[i].identity) != KeyOf(rs[j].identity))
  }

  lemma {:induction false} JoinPut(chunks: Table<nat, Bytes>, count: nat, i: nat, payload: Bytes)
    requires i !in chunks.m
    ensures |Join(chunks.Put(i, payload), count)| == |Join(chunks, count)| + (if i < count then |payload| else 0)
  {
    if count > 0 {
      JoinPut(chunks, count - 1, i, payload);
    }
  }

  function UpTo(count: nat): (s: set<nat>)
    ensures |s| == count && forall i: nat :: i in s <==> i < count
  {
    if count == 0 then {} else UpTo(count - 1) + {count - 1}
  }

  /** With `count` distinct chunks below `count` nothing is missing. */
  lemma AllPresent(chunks: Table<nat, Bytes>, count: nat)
    requires |chunks.m| == count && forall i :: i in chunks.m ==> i < count
    ensures forall i :: 0 <= i < count ==> i in chunks.m
  {
    assert |chunks.m.Keys| == |chunks.m|;
    forall i | 0 <= i < count
      ensures i in chunks.m
    {
      if i !in chunks.m {
        SubsetCard(chunks.m.Keys, UpTo(count) - {i});
      }
    }
  }

  /** An accepted chunk is filed under its index; the message completes with the last missing one. */
  lemma AcceptKeeps(r: Reassembly, f: Frame, receivedAt: nat)
    requires Incomplete(r) && f.WellFormed()
    ensures Accept(r, f, receivedAt).Collecting? ==>
              var n := Accept(r, f, receivedAt).reassembly;
              Incomplete(n) && n.identity == r.identity && n.chunks == r.chunks.Put(f.index, f.payload)
    ensures Accept(r, f, receivedAt).Completed? ==>
              && 0 < |Accept(r, f, receivedAt).bytes| <= MAX_LINK_MESSAGE_BYTES
              && (forall i :: 0 <= i < r.count ==> i == f.index || i in r.chunks.m)
  {
    if SameFrameSet(r, f) && f.index !in r.chunks.m {
      var chunks := r.chunks.Put(f.index, f.payload);
      JoinPut(r.chunks, r.count, f.index, f.payload);
      assert chunks.m.Keys == r.chunks.m.Keys + {f.index};
      assert |chunks.m| == |chunks.m.Keys| && |r.chunks.m| == |r.chunks.m.Keys|;
      if |chunks.m| == r.count {
        AllPresent(chunks, r.count);
      }
    }
  }

  lemma BeginIncomplete(f: Frame, receivedAt: nat, expiresAt: nat)
    requires f.WellFormed()
    ensures Incomplete(Begin(f, receivedAt, expiresAt))
  {
    EmptyJoin(f.count);
  }

  lemma {:induction false} EmptyJoin(count: nat)
    ensures Join(Table(map[]), count) == []
  {
    if count > 0 {
      EmptyJoin(count - 1);
    }
  }

  lemma RemoveKeeps(rs: seq<Reassembly>, limit: nat, i: nat)
    requires TableOk(rs, limit) && i < |rs|
    ensures TableOk(RemoveAt(rs, i), limit) && |RemoveAt(rs, i)| == |rs| - 1
    ensures forall r :: r in RemoveAt(rs, i) <==> r in rs && r != rs[i]
  {
    var n := RemoveAt(rs, i);
    assert forall j :: 0 <= j < |n| ==> n[j] == rs[if j < i then j else j + 1];
    hide Incomplete;
    forall r | r in rs && r != rs[i]
      ensures r in n
    {
      var j :| 0 <= j < |rs| && rs[j] == r;
      assert n[if j < i then j else j - 1] == r;
    }
  }

  lemma UpdateKeeps(rs: seq<Reassembly>, limit: nat, i: nat, r: Reassembly)
    requires TableOk(rs, limit) && i < |rs| && Incomplete(r) && r.identity == rs[i].identity
    ensures TableOk(rs[i := r], limit)
    ensures forall x :: x in rs[i := r] ==> x in rs || x == r
  {
    hide Incomplete;
  }

  lemma MakeRoomKeeps(rs: seq<Reassembly>, limit: nat, r: Reassembly)
    requires TableOk(rs, limit) && limit > 0 && Incomplete(r) && Find(rs, KeyOf(r.identity)).None?
    ensures TableOk(MakeRoom(rs, limit) + [r], limit)
    ensures forall x :: x in MakeRoom(rs, limit) + [r] ==> x in rs || x == r
  {
    if |rs| >= limit {
      RemoveKeeps(rs, limit, Oldest(rs));
    }
    var room := MakeRoom(rs, limit);
    hide Incomplete, MakeRoom;
    assert forall x :: x in room ==> x in rs;
    assert forall i :: 0 <= i < |room| ==> room[i] in rs;
  }

  /** Frames never make the table exceed its limit, file a message twice or exceed 128 KiB. */
  lemma CollectKeeps(rs: seq<Reassembly>, limit: nat, f: Frame, receivedAt: nat, expiresAt: nat)
    requires TableOk(rs, limit) && limit > 0 && f.WellFormed()
    ensures TableOk(Collect(rs, limit, f, receivedAt, expiresAt).0, limit)
    ensures Collect(rs, limit, f, receivedAt, expiresAt).1.Some? ==>
              var (identity, bytes) := Collect(rs, limit, f, receivedAt, expiresAt).1.value;
              KeyOf(identity) == KeyOf(f.identity) && 0 < |bytes| <= MAX_LINK_MESSAGE_BYTES
    ensures forall r :: r in Collect(rs, limit, f, receivedAt, expiresAt).0 ==>
              r in rs || KeyOf(r.identity) == KeyOf(f.identity)
  {
    BeginIncomplete(f, receivedAt, expiresAt);
    var known := Find(rs, KeyOf(f.identity));
    if known.None? {
      MakeRoomKeeps(rs, limit, Begin(f, receivedAt, expiresAt));
    }
    var table := if known.Some? then rs else MakeRoom(rs, limit) + [Begin(f, receivedAt, expiresAt)];
    var at := if known.Some? then known.value else |table| - 1;
    assert TableOk(table, limit) && KeyOf(table[at].identity) == KeyOf(f.identity) && Incomplete(table[at]);
    AcceptKeeps(table[at], f, receivedAt);
    hide Incomplete, TableOk, MakeRoom, Accept, RemoveAt;
    match Accept(table[at], f, receivedAt)
    case Collecting(r) => UpdateKeeps(table, limit, at, r);
    case _ => RemoveKeeps(table, limit, at);
  }
}
