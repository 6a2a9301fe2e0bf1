/** Frames of a payload, received in any order and any number of times, rebuild it (frame.ts, transport.ts). */
module FragmentDelivery {
  import opened Wrappers
  import opened LinkReassembly
  import opened Fragmentation

  predicate Payload(p: Bytes) { 0 < |p| <= MAX_LINK_MESSAGE_BYTES }

  /** A frame that `decodeFrame` has to accept: one of at most 4096, with something in it, no larger than a packet. */
  ghost predicate Sendable(k: Coder, e: Encoding, id: Identity, i: nat, n: nat, chunk: Bytes) {
    && i < n <= MAX_LINK_FRAGMENTS && Payload(chunk) && Encode(k, e, id, i, n, chunk).Success?
    && |Encode(k, e, id, i, n, chunk).value| <= MESHTASTIC_APPLICATION_PAYLOAD_BYTES
  }

  /** The frames of one encoding are decoded to what was encoded. */
  ghost predicate FaithfulFrames(k: Coder, e: Encoding) {
    forall id, i: nat, n: nat, chunk :: k.proper(id) && Sendable(k, e, id, i, n, chunk) ==>
      k.decode(Encode(k, e, id, i, n, chunk).value) == Some(Frame(id, i, n, chunk))
  }

  /** The method frame of a payload is decoded to it. */
  ghost predicate FaithfulMethod(k: Coder) {
    forall id, p :: k.proper(id) && Payload(p) && ReceiptError(k, id, MessageV2, 0, 1).None? && k.method_(id, p).Success?
                    && |k.method_(id, p).value| <= MESHTASTIC_APPLICATION_PAYLOAD_BYTES ==>
      k.decode(k.method_(id, p).value) == Some(Frame(id, 0, 1, p))
  }

  /** The payload begins like a message envelope. */
  predicate LikeEnvelope(p: Bytes) { p != [] && (p[0] == 0xb2 || p[0] == 0xb3) }

  /** Envelopes of payloads shrink and restore, and what carries no envelope marker is taken as it is. */
  ghost predicate FaithfulEnvelopes(k: Coder) {
    && (forall p :: Payload(p) && k.compressed(p).Some? ==>
          var b := k.compressed(p).value; b != [] && |b| < |p| && k.restore(b) == Some(p))
    && (forall p :: Payload(p) ==> k.valued(p) != [] && (|k.valued(p)| < |p| ==> k.restore(k.valued(p)) == Some(p)))
    && (forall p :: Payload(p) && !LikeEnvelope(p) ==> k.restore(p) == Some(p))
  }

  /** What is asked of the unseen codecs. */
  ghost predicate Faithful(k: Coder) {
    (forall e :: FaithfulFrames(k, e)) && FaithfulMethod(k) && FaithfulEnvelopes(k)
  }

  /** At most 4096 frames within the limit, which decode to the non-empty chunks of `body` in order. */
  ghost predicate Carries(k: Coder, id: Identity, frames: seq<Bytes>, chunks: seq<Bytes>, body: Bytes, max: nat) {
    && 0 < |frames| <= MAX_LINK_FRAGMENTS && |chunks| == |frames|
    && (forall i :: 0 <= i < |frames| ==> |frames[i]| <= max && chunks[i] != []
                                          && k.decode(frames[i]) == Some(Frame(id, i, |frames|, chunks[i])))
    && Concat(chunks) == body
  }

  /** The body is the payload, or an envelope of it that is not longer. */
  ghost predicate BodyOf(k: Coder, body: Bytes, payload: Bytes) {
        && body != [] && |body| <= |payload|
    && (|| body == payload
        || k.compressed(payload) == Some(body)
        || (k.valued(payload) == body && |body| < |payload|))
  }

  lemma {:induction false} FitMeans(k: Coder, e: Encoding, id: Identity, body: Bytes, size: nat, count: nat, max: nat, i: nat)
    requires i <= count && FitFrom(k, e, id, body, size, count, max, i) == Success(true)
    ensures forall j :: i <= j < count ==>
              Encode(k, e, id, j, count, ChunkAt(body, size, j)).Success?
              && |Encode(k, e, id, j, count, ChunkAt(body, size, j)).value| <= max
    decreases count - i
  {
    hide Encode, ChunkAt;
    if i < count {
      FitMeans(k, e, id, body, size, count, max, i + 1);
    }
  }

  lemma {:induction false} FramesMean(k: Coder, e: Encoding, id: Identity, body: Bytes, size: nat, count: nat, n: nat)
    requires forall j :: 0 <= j < n ==> Encode(k, e, id, j, count, ChunkAt(body, size, j)).Success?
    ensures var r := FramesUpTo(k, e, id, body, size, count, n);
            r.Success? && |r.value| == n
            && forall j :: 0 <= j < n ==> r.value[j] == Encode(k, e, id, j, count, ChunkAt(body, size, j)).value
    decreases n
  {
    hide Encode, ChunkAt;
    if n > 0 {
      FramesMean(k, e, id, body, size, count, n - 1);
    }
  }

  lemma FrameDecodes(k: Coder, e: Encoding, id: Identity, i: nat, n: nat, chunk: Bytes)
    requires Faithful(k) && k.proper(id) && Sendable(k, e, id, i, n, chunk)
    ensures k.decode(Encode(k, e, id, i, n, chunk).value) == Some(Frame(id, i, n, chunk))
  {
    hide Encode;
    assert FaithfulFrames(k, e);
  }

  lemma ChunkSmaller(body: Bytes, size: nat, i: nat)
    ensures |ChunkAt(body, size, i)| <= |body|
  {
  }

  /** The frames of the chunk size that was found carry the body. */
  lemma SplitCarries(k: Coder, e: Encoding, id: Identity, body: Bytes, start: nat, max: nat) returns (chunks: seq<Bytes>)
    requires Faithful(k) && k.proper(id) && Payload(body) && max <= MESHTASTIC_APPLICATION_PAYLOAD_BYTES
    requires Split(k, e, id, body, start, max).Success?
    ensures Carries(k, id, Split(k, e, id, body, start, max).value, chunks, body, max)
  {
    hide ChunkAt, Concat, ChunkCount, Encode, Faithful;
    SearchLargest(k, e, id, body, start, max);
    var size := Search(k, e, id, body, start, max).value;
    var count := ChunkCount(|body|, size);
    chunks := Chunks(body, size, count);
    ChunksConcat(body, size);
    CountMeans(|body|, size);
    FitMeans(k, e, id, body, size, count, max, 0);
    FramesMean(k, e, id, body, size, count, count);
    forall i | 0 <= i < count
      ensures chunks[i] != [] && k.decode(Split(k, e, id, body, start, max).value[i]) == Some(Frame(id, i, count, chunks[i]))
    {
      assert chunks[i] == ChunkAt(body, size, i);
      ChunkSmaller(body, size, i);
      FrameDecodes(k, e, id, i, count, chunks[i]);
    }
  }

  lemma OneCarries(k: Coder, id: Identity, frame: Bytes, payload: Bytes, max: nat)
    requires payload != [] && |frame| <= max && k.decode(frame) == Some(Frame(id, 0, 1, payload))
    ensures Carries(k, id, [frame], [payload], payload, max)
  {
    assert Concat([payload]) == Concat([]) + payload;
    assert [payload][..0] == [];
  }

  lemma EnvelopeCarries(k: Coder, e: Encoding, id: Identity, body: Bytes, max: nat) returns (chunks: seq<Bytes>)
    requires Faithful(k) && k.proper(id) && Payload(body) && max <= MESHTASTIC_APPLICATION_PAYLOAD_BYTES
    ensures var r := SplitEnvelope(k, e, id, body, max);
            r.Success? && r.value.Some? ==> Carries(k, id, r.value.value, chunks, body, max)
  {
    hide Carries, Faithful, Split;
    chunks := [];
    if Split(k, e, id, body, Min(|body|, max), max).Success? {
      chunks := SplitCarries(k, e, id, body, Min(|body|, max), max);
    }
  }

  lemma SplitPayload(k: Coder, e: Encoding, id: Identity, payload: Bytes, start: nat, max: nat)
    returns (body: Bytes, chunks: seq<Bytes>)
    requires Faithful(k) && k.proper(id) && Payload(payload) && max <= MESHTASTIC_APPLICATION_PAYLOAD_BYTES
    ensures var r := Split(k, e, id, payload, start, max);
            r.Success? ==> Carries(k, id, r.value, chunks, body, max) && BodyOf(k, body, payload)
    ensures body == payload
  {
    hide Carries, Faithful, Split;
    body, chunks := payload, [];
    if Split(k, e, id, payload, start, max).Success? {
      chunks := SplitCarries(k, e, id, payload, start, max);
    }
  }

  lemma MethodDecodes(k: Coder, id: Identity, payload: Bytes)
    requires Faithful(k) && k.proper(id) && Payload(payload) && ReceiptError(k, id, BinaryV1, 0, 1).None?
    requires k.method_(id, payload).Success? && |k.method_(id, payload).value| <= MESHTASTIC_APPLICATION_PAYLOAD_BYTES
    ensures k.decode(k.method_(id, payload).value) == Some(Frame(id, 0, 1, payload))
  {
    assert ReceiptError(k, id, MessageV2, 0, 1).None?;
  }

  lemma PlainCarries(k: Coder, e: Encoding, id: Identity, payload: Bytes, max: nat)
    returns (body: Bytes, chunks: seq<Bytes>)
    requires Faithful(k) && k.proper(id) && Payload(payload) && max <= MESHTASTIC_APPLICATION_PAYLOAD_BYTES
    requires !e.MessageV1? && !e.MessageV2?
    ensures var r := Fragment(k, e, id, payload, max);
            r.Success? ==> Carries(k, id, r.value, chunks, body, max) && BodyOf(k, body, payload)
    ensures body == payload
  {
    hide Carries, Faithful, Split;
    if e.CanonicalJson? {
      body, chunks := SplitPayload(k, e, id, payload, Min(|payload|, max), max);
    } else {
      body, chunks := SplitPayload(k, e, id, payload, Min(|payload|, max * 4), max);
      var whole := Encode(k, e, id, 0, 1, payload);
      if whole.Success? && |whole.value| <= max {
        FrameDecodes(k, e, id, 0, 1, payload);
        OneCarries(k, id, whole.value, payload, max);
        body, chunks := payload, [payload];
      }
    }
  }

  lemma EnvelopeMeans(k: Coder, payload: Bytes)
    requires Faithful(k) && Payload(payload)
    ensures k.compressed(payload).Some? ==>
              k.compressed(payload).value != [] && |k.compressed(payload).value| < |payload|
    ensures k.valued(payload) != []
  {
  }

  lemma CompressedCarries(k: Coder, id: Identity, payload: Bytes, max: nat) returns (body: Bytes, chunks: seq<Bytes>)
    requires Faithful(k) && k.proper(id) && Payload(payload) && max <= MESHTASTIC_APPLICATION_PAYLOAD_BYTES
    requires ReceiptError(k, id, BinaryV1, 0, 1).None?
    ensures var r := FragmentCompressed(k, id, payload, max);
            r.Success? ==> Carries(k, id, r.value, chunks, body, max) && BodyOf(k, body, payload)
  {
    hide Carries, Faithful, SplitEnvelope, Fragment;
    EnvelopeMeans(k, payload);
    body, chunks := PlainCarries(k, BinaryV1, id, payload, max);
    var whole := k.frame(BinaryV1, id, 0, 1, payload);
    if whole.Success? && |whole.value| <= max {
      FrameDecodes(k, BinaryV1, id, 0, 1, payload);
      OneCarries(k, id, whole.value, payload, max);
      body, chunks := payload, [payload];
    } else if whole.Success? && k.compressed(payload).Some? {
      var envelope := k.compressed(payload).value;
      var candidate := Enveloped(k, MessageV1, id, k.compressed(payload), max);
      var cut := EnvelopeCarries(k, MessageV1, id, envelope, max);
      if candidate.Success? && candidate.value.Some?
         && FragmentCompressed(k, id, payload, max) == Success(candidate.value.value) {
        body, chunks := envelope, cut;
      }
    }
  }

  lemma MethodCarries(k: Coder, id: Identity, payload: Bytes, max: nat) returns (body: Bytes, chunks: seq<Bytes>)
    requires Faithful(k) && k.proper(id) && Payload(payload) && max <= MESHTASTIC_APPLICATION_PAYLOAD_BYTES
    requires ReceiptError(k, id, BinaryV1, 0, 1).None?
    ensures var r := FragmentMethod(k, id, payload, max);
            r.Success? ==> Carries(k, id, r.value, chunks, body, max) && BodyOf(k, body, payload)
  {
    hide Carries, Faithful, SplitEnvelope, FragmentCompressed;
    EnvelopeMeans(k, payload);
    body, chunks := CompressedCarries(k, id, payload, max);
    var previous, whole := k.frame(BinaryV1, id, 0, 1, payload), k.method_(id, payload);
    if previous.Success? && whole.Success? {
      if |previous.value| <= max {
        FrameDecodes(k, BinaryV1, id, 0, 1, payload);
        OneCarries(k, id, previous.value, payload, max);
      }
      if |whole.value| <= max {
        MethodDecodes(k, id, payload);
        OneCarries(k, id, whole.value, payload, max);
      }
      if |previous.value| <= max {
        body, chunks := payload, [payload];
      } else {
        var candidate := MethodCandidate(k, id, payload, whole.value, max);
        if candidate.Success? && candidate.value.Some?
           && FragmentMethod(k, id, payload, max) == Success(candidate.value.value) {
          if |whole.value| <= max {
            body, chunks := payload, [payload];
          } else {
            var cut := EnvelopeCarries(k, MessageV2, id, k.valued(payload), max);
            body, chunks := k.valued(payload), cut;
          }
        }
      }
    }
  }

  /** Whatever the encoding, the frames returned carry the payload or an envelope that restores to it. */
  lemma FragmentCarries(k: Coder, e: Encoding, id: Identity, payload: Bytes, maxFrameBytes: nat)
    returns (body: Bytes, chunks: seq<Bytes>)
    requires Faithful(k) && k.proper(id) && FragmentPayload(k, e, id, payload, maxFrameBytes).Success?
    ensures Carries(k, id, FragmentPayload(k, e, id, payload, maxFrameBytes).value, chunks, body,
                    Min(maxFrameBytes, MESHTASTIC_APPLICATION_PAYLOAD_BYTES))
    ensures BodyOf(k, body, payload) && |body| <= MAX_LINK_MESSAGE_BYTES
    ensures !e.MessageV1? && !e.MessageV2? ==> body == payload
    ensures body != payload || !LikeEnvelope(payload) ==> k.restore(body) == Some(payload)
  {
    hide Carries, FragmentMethod, FragmentCompressed, FaithfulFrames, FaithfulMethod;
    var max := Min(maxFrameBytes, MESHTASTIC_APPLICATION_PAYLOAD_BYTES);
    if e.MessageV2? {
      body, chunks := MethodCarries(k, id, payload, max);
    } else if e.MessageV1? {
      body, chunks := CompressedCarries(k, id, payload, max);
    } else {
      body, chunks := PlainCarries(k, e, id, payload, max);
    }
  }

  // ----- receiving ------------------------------------------------------------------------------------

  predicate Indexes(order: seq<nat>, n: nat) { forall j :: 0 <= j < |order| ==> order[j] < n }

  /** One reassembly fed with the frames named by `order`, until it completes. */
  function Gathered(id: Identity, chunks: seq<Bytes>, order: seq<nat>): Reception
    requires Indexes(order, |chunks|)
  {
    if order == [] then Collecting(Reassembly(id, Table(map[]), |chunks|, 0, 0, 0))
    else
      var i := order[|order| - 1];
      match Gathered(id, chunks, order[..|order| - 1])
      case Collecting(r) =>
        match Accept(r, Frame(id, i, |chunks|, chunks[i]), 0) {
          case Ignored => Collecting(r)
          case Collecting(n) => Collecting(n)
          case Oversized => Oversized
          case Completed(bytes) => Completed(bytes)
        }
      case Ignored => Ignored
      case Oversized => Oversized
      case Completed(bytes) => Completed(bytes)
  }

  function Seen(chunks: seq<Bytes>, order: seq<nat>): map<nat, Bytes>
    requires Indexes(order, |chunks|)
  {
    map i | i in order :: chunks[i]
  }

  lemma {:induction false} JoinAll(chunks: seq<Bytes>, held: Table<nat, Bytes>, n: nat)
    requires n <= |chunks| && forall i: nat :: i < n ==> i in held.m && held.m[i] == chunks[i]
    ensures Join(held, n) == Concat(chunks[..n])
  {
    if n > 0 {
      JoinAll(chunks, held, n - 1);
      assert chunks[..n][..n - 1] == chunks[..n - 1];
    }
  }

  /** Some of the chunks are never longer than all of them. */
  lemma {:induction false} JoinSome(chunks: seq<Bytes>, held: Table<nat, Bytes>, n: nat)
    requires n <= |chunks| && forall i :: i in held.m ==> i < |chunks| && held.m[i] == chunks[i]
    ensures |Join(held, n)| <= |Concat(chunks[..n])|
  {
    if n > 0 {
      JoinSome(chunks, held, n - 1);
      assert chunks[..n][..n - 1] == chunks[..n - 1];
    }
  }

  lemma {:induction false} IndexesBelow(s: set<nat>, n: nat)
    requires forall i <- s :: i < n
    ensures |s| <= n && (|s| == n <==> forall i: nat :: i < n ==> i in s)
  {
    if n > 0 {
      var rest := s - {n - 1};
      IndexesBelow(rest, n - 1);
      assert |s| == |rest| + (if n - 1 in s then 1 else 0) by {
        if n - 1 in s { assert s == rest + {n - 1}; } else { assert s == rest; }
      }
    }
  }

  ghost predicate AllSeen(chunks: seq<Bytes>, order: seq<nat>) { forall i: nat :: i < |chunks| ==> i in order }

  /** The reassembly while chunks are missing. */
  ghost predicate Holding(r: Reception, id: Identity, chunks: seq<Bytes>, order: seq<nat>)
    requires Indexes(order, |chunks|)
  {
    && r.Collecting? && r.reassembly.identity == id && r.reassembly.count == |chunks|
    && r.reassembly.chunks == Table(Seen(chunks, order))
    && r.reassembly.size == |Join(r.reassembly.chunks, |chunks|)|
  }

  lemma SeenMore(chunks: seq<Bytes>, order: seq<nat>, i: nat)
    requires Indexes(order, |chunks|) && i < |chunks|
    ensures Indexes(order + [i], |chunks|)
    ensures Seen(chunks, order + [i]) == Seen(chunks, order)[i := chunks[i]]
    ensures i in order ==> Seen(chunks, order + [i]) == Seen(chunks, order)
  {
    assert forall j :: j in order + [i] <==> j in order || j == i;
  }

  /** Enough chunks have been seen exactly when there are as many as the message has. */
  lemma SeenCount(chunks: seq<Bytes>, order: seq<nat>)
    requires Indexes(order, |chunks|)
    ensures |Seen(chunks, order)| == |chunks| <==> AllSeen(chunks, order)
  {
    var s := Seen(chunks, order);
    assert forall j: nat :: j in order <==> j in s.Keys;
    IndexesBelow(s.Keys, |chunks|);
    assert |s| == |s.Keys|;
  }

  lemma OneMore(r: Reassembly, id: Identity, chunks: seq<Bytes>, order: seq<nat>, i: nat)
    requires Indexes(order, |chunks|) && i < |chunks|
    requires Holding(Collecting(r), id, chunks, order) && !AllSeen(chunks, order)
    requires |Concat(chunks)| <= MAX_LINK_MESSAGE_BYTES
    ensures Indexes(order + [i], |chunks|)
    ensures var a := Accept(r, Frame(id, i, |chunks|, chunks[i]), 0);
            if AllSeen(chunks, order + [i]) then a == Completed(Concat(chunks))
            else if i in order then a == Ignored && Seen(chunks, order + [i]) == Seen(chunks, order)
            else Holding(a, id, chunks, order + [i])
  {
    hide Join, Concat, Seen, AllSeen;
    var next := order + [i];
    SeenMore(chunks, order, i);
    SeenCount(chunks, next);
    SeenKeys(chunks, order);
    SeenKeys(chunks, next);
    if i in order {
      SameSeen(chunks, order, i);
    } else {
      JoinPut(r.chunks, |chunks|, i, chunks[i]);
      JoinSome(chunks, Table(Seen(chunks, next)), |chunks|);
      assert chunks[..|chunks|] == chunks;
      if AllSeen(chunks, next) {
        AllKeys(chunks, next);
        JoinAll(chunks, Table(Seen(chunks, next)), |chunks|);
      }
    }
  }

  lemma SameSeen(chunks: seq<Bytes>, order: seq<nat>, i: nat)
    requires Indexes(order, |chunks|) && i in order
    ensures AllSeen(chunks, order + [i]) == AllSeen(chunks, order)
  {
    assert forall j :: j in order + [i] <==> j in order;
  }

  lemma SeenKeys(chunks: seq<Bytes>, order: seq<nat>)
    requires Indexes(order, |chunks|)
    ensures forall j :: j in Seen(chunks, order) <==> j in order
    ensures forall j :: j in Seen(chunks, order) ==> j < |chunks| && Seen(chunks, order)[j] == chunks[j]
  {
  }

  lemma AllKeys(chunks: seq<Bytes>, order: seq<nat>)
    requires Indexes(order, |chunks|) && AllSeen(chunks, order)
    ensures forall j: nat :: j < |chunks| ==> j in order
  {
  }

  /**
    However the frames are ordered and repeated, the message completes exactly when the last missing one arrives,
    and then with exactly the body that was sent.
    */
  lemma {:induction false} AnyOrderRebuilds(id: Identity, chunks: seq<Bytes>, order: seq<nat>)
    requires Indexes(order, |chunks|) && chunks != [] && forall c <- chunks :: c != []
    requires |Concat(chunks)| <= MAX_LINK_MESSAGE_BYTES
    ensures if AllSeen(chunks, order) then Gathered(id, chunks, order) == Completed(Concat(chunks))
            else Holding(Gathered(id, chunks, order), id, chunks, order)
    decreases |order|
  {
    hide Join, Concat, Accept;
    if order == [] {
      assert 0 !in order;
      NothingHeld(chunks);
    } else {
      var n := |order| - 1;
      var i := order[n];
      AnyOrderRebuilds(id, chunks, order[..n]);
      assert order == order[..n] + [i];
      assert chunks[i] in chunks;
      if !AllSeen(chunks, order[..n]) {
        OneMore(Gathered(id, chunks, order[..n]).reassembly, id, chunks, order[..n], i);
      }
    }
  }

  lemma NothingHeld(chunks: seq<Bytes>)
    ensures Table(Seen(chunks, [])) == Table(map[]) && Join(Table(map[]), |chunks|) == []
  {
    EmptyJoin(|chunks|);
  }

  /** All frames were received, in some order and with any repetition. */
  predicate Received(order: seq<nat>, n: nat) { Indexes(order, n) && forall i: nat :: i < n ==> i in order }

  /** What is received of `frames` completes as `body`. */
  ghost predicate Delivers(k: Coder, id: Identity, frames: seq<Bytes>, order: seq<nat>, body: Bytes)
    requires Indexes(order, |frames|)
  {
    exists chunks: seq<Bytes> ::
      && |chunks| == |frames|
      && (forall i :: 0 <= i < |frames| ==> k.decode(frames[i]) == Some(Frame(id, i, |frames|, chunks[i])))
      && Gathered(id, chunks, order) == Completed(body)
  }

  /**
    The frames of a payload, received in any order with any repetition, complete as one body.  It is restored to exactly
    that payload unless the payload was sent as it is and reads as an envelope of something else.  Only a payload that
    begins like an envelope can do that, and every encoding but the message encodings sends it as it is.
    */
  lemma FragmentsRebuild(k: Coder, e: Encoding, id: Identity, payload: Bytes, maxFrameBytes: nat, order: seq<nat>)
    returns (body: Bytes)
    requires Faithful(k) && k.proper(id) && FragmentPayload(k, e, id, payload, maxFrameBytes).Success?
    requires Received(order, |FragmentPayload(k, e, id, payload, maxFrameBytes).value|)
    ensures var frames := FragmentPayload(k, e, id, payload, maxFrameBytes).value;
            && |frames| <= MAX_LINK_FRAGMENTS
            && (forall f <- frames :: |f| <= Min(maxFrameBytes, MESHTASTIC_APPLICATION_PAYLOAD_BYTES))
            && Delivers(k, id, frames, order, body)
    ensures k.restore(body) == Some(payload) <==> body != payload || k.restore(payload) == Some(payload)
    ensures !LikeEnvelope(payload) ==> k.restore(body) == Some(payload)
    ensures !e.MessageV1? && !e.MessageV2? ==> body == payload
  {
    hide FragmentPayload, Gathered, Faithful;
    var chunks;
    body, chunks := FragmentCarries(k, e, id, payload, maxFrameBytes);
    AnyOrderRebuilds(id, chunks, order);
  }

  /** A payload that is itself the envelope of another is, sent as it is, received as that other one. */
  lemma EnvelopeMistaken(k: Coder, e: Encoding, id: Identity, other: Bytes, payload: Bytes, maxFrameBytes: nat, order: seq<nat>)
    requires Faithful(k) && k.proper(id) && !e.MessageV1? && !e.MessageV2? && Payload(other)
    requires k.compressed(other) == Some(payload) || (k.valued(other) == payload && |payload| < |other|)
    requires FragmentPayload(k, e, id, payload, maxFrameBytes).Success?
    requires Received(order, |FragmentPayload(k, e, id, payload, maxFrameBytes).value|)
    ensures Delivers(k, id, FragmentPayload(k, e, id, payload, maxFrameBytes).value, order, payload)
    ensures k.restore(payload) == Some(other) && other != payload && LikeEnvelope(payload)
  {
    hide FragmentPayload, Gathered, Delivers;
    var _ := FragmentsRebuild(k, e, id, payload, maxFrameBytes, order);
  }
}
