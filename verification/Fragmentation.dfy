/** Splitting a payload into frames that fit a radio packet (frame.ts). */
module Fragmentation {
  import opened Wrappers
  import opened LinkTypes
  import opened LinkReassembly

  const MESHTASTIC_APPLICATION_PAYLOAD_BYTES: nat := 233

  datatype Encoding = CanonicalJson | DeflateV1 | DeflateV2 | DeflateV3 | BinaryV1 | MessageV1 | MessageV2

  datatype FrameError = TypeFailure | RangeFailure

  /**
    The unseen codecs: one frame, the one-packet method frame, the two whole-message envelopes, decoding a frame
    and restoring a message from its envelope; and which names are more than white space.
    */
  datatype Coder = Coder(
    frame: (Encoding, Identity, nat, nat, Bytes) -> Result<Bytes, FrameError>,
    method_: (Identity, Bytes) -> Result<Bytes, FrameError>,
    compressed: Bytes -> Option<Bytes>,
    valued: Bytes -> Bytes,
    decode: Bytes -> Option<Frame>,
    restore: Bytes -> Option<Bytes>,
    proper: Identity -> bool,
    properReceipt: Receipt -> bool)

  function Min(a: nat, b: nat): nat { if a < b then a else b }

  // ----- chunks ---------------------------------------------------------------------------------------

  function ChunkCount(n: nat, size: nat): nat
    requires size > 0
  {
    (n + size - 1) / size
  }

  lemma CountMeans(n: nat, size: nat)
    requires size > 0
    ensures var count := ChunkCount(n, size);
            n <= count * size && (count > 0 ==> (count - 1) * size < n) && (n > 0 ==> count > 0)
  {
    var count := ChunkCount(n, size);
    assert count * size <= n + size - 1 < count * size + size;
    assert (count - 1) * size == count * size - size;
  }

  function ChunkAt(body: Bytes, size: nat, i: nat): Bytes {
    body[Min(i * size, |body|)..Min((i + 1) * size, |body|)]
  }

  function Chunks(body: Bytes, size: nat, count: nat): seq<Bytes> { seq(count, i requires 0 <= i < count => ChunkAt(body, size, i)) }

  function Concat(chunks: seq<Bytes>): Bytes {
    if chunks == [] then [] else Concat(chunks[..|chunks| - 1]) + chunks[|chunks| - 1]
  }

  lemma NextChunk(body: Bytes, from: nat, to: nat)
    requires from <= to
    ensures body[..Min(from, |body|)] + body[Min(from, |body|)..Min(to, |body|)] == body[..Min(to, |body|)]
  {
  }

  lemma {:induction false} ChunksPrefix(body: Bytes, size: nat, count: nat)
    ensures Concat(Chunks(body, size, count)) == body[..Min(count * size, |body|)]
  {
    if count > 0 {
      var all := Chunks(body, size, count);
      ChunksPrefix(body, size, count - 1);
      assert all[..count - 1] == Chunks(body, size, count - 1) && all[count - 1] == ChunkAt(body, size, count - 1);
      Below(count - 1, count, size);
      NextChunk(body, (count - 1) * size, count * size);
    }
  }

  /** Nothing is lost between chunks, and no chunk is empty. */
  lemma ChunksConcat(body: Bytes, size: nat)
    requires size > 0 && body != []
    ensures Concat(Chunks(body, size, ChunkCount(|body|, size))) == body
    ensures forall i :: 0 <= i < ChunkCount(|body|, size) ==> ChunkAt(body, size, i) != []
  {
    var count := ChunkCount(|body|, size);
    CountMeans(|body|, size);
    ChunksPrefix(body, size, count);
    assert body[..|body|] == body;
    forall i | 0 <= i < count ensures ChunkAt(body, size, i) != [] {
      Below(i, count - 1, size);
      assert (i + 1) * size == i * size + size;
    }
  }

  lemma Below(a: nat, b: nat, size: nat)
    requires a <= b
    ensures a * size <= b * size
  {
  }

  // ----- one frame ------------------------------------------------------------------------------------

  /** `validateReceipt` */
  function ReceiptError(k: Coder, id: Identity, e: Encoding, index: nat, count: nat): Option<FrameError> {
    if id.receipt.None? then None
    else if !e.DeflateV3? && !e.BinaryV1? && !e.MessageV1? && !e.MessageV2? then Some(TypeFailure)
    else if !id.kind.ReportKind? || id.dest.None? then Some(TypeFailure)
    else if index != 0 || count != 1 then Some(RangeFailure)
    else if !k.properReceipt(id.receipt.value) then Some(TypeFailure)
    else None
  }

  /** `encodeCompactFrame` */
  function Encode(k: Coder, e: Encoding, id: Identity, index: nat, count: nat, chunk: Bytes): Result<Bytes, FrameError> {
    var error := ReceiptError(k, id, e, index, count);
    if error.Some? then Failure(error.value) else k.frame(e, id, index, count, chunk)
  }

  // ----- fitting and building -------------------------------------------------------------------------

  /** `framesFit` from the frame `i` on. */
  function FitFrom(k: Coder, e: Encoding, id: Identity, body: Bytes, size: nat, count: nat, max: nat, i: nat):
    Result<bool, FrameError>
    requires i <= count
    decreases count - i
  {
    if i == count then Success(true)
    else
      match Encode(k, e, id, i, count, ChunkAt(body, size, i))
      case Failure(error) => Failure(error)
      case Success(b) => if |b| > max then Success(false) else FitFrom(k, e, id, body, size, count, max, i + 1)
  }

  method FramesFit(k: Coder, e: Encoding, id: Identity, body: Bytes, size: nat, count: nat, max: nat)
    returns (r: Result<bool, FrameError>)
    ensures r == FitFrom(k, e, id, body, size, count, max, 0)
  {
    hide Encode, ChunkAt;
    for i := 0 to count
      invariant FitFrom(k, e, id, body, size, count, max, 0) == FitFrom(k, e, id, body, size, count, max, i)
    {
      var b := Encode(k, e, id, i, count, ChunkAt(body, size, i));
      if b.Failure? { return Failure(b.error); }
      if |b.value| > max { return Success(false); }
    }
    return Success(true);
  }

  /** `framesForChunkSize` for the first `n` frames. */
  function FramesUpTo(k: Coder, e: Encoding, id: Identity, body: Bytes, size: nat, count: nat, n: nat):
    Result<seq<Bytes>, FrameError>
  {
    if n == 0 then Success([])
    else
      match FramesUpTo(k, e, id, body, size, count, n - 1)
      case Failure(error) => Failure(error)
      case Success(frames) =>
        match Encode(k, e, id, n - 1, count, ChunkAt(body, size, n - 1))
        case Failure(error) => Failure(error)
        case Success(b) => Success(frames + [b])
  }

  function FramesFor(k: Coder, e: Encoding, id: Identity, body: Bytes, size: nat): Result<seq<Bytes>, FrameError>
    requires size > 0
  {
    FramesUpTo(k, e, id, body, size, ChunkCount(|body|, size), ChunkCount(|body|, size))
  }

  method FramesForChunkSize(k: Coder, e: Encoding, id: Identity, body: Bytes, size: nat)
    returns (r: Result<seq<Bytes>, FrameError>)
    requires size > 0
    ensures r == FramesFor(k, e, id, body, size)
  {
    hide Encode, ChunkAt, ChunkCount;
    var count := ChunkCount(|body|, size);
    var frames := [];
    for i := 0 to count
      invariant FramesUpTo(k, e, id, body, size, count, i) == Success(frames)
    {
      var b := Encode(k, e, id, i, count, ChunkAt(body, size, i));
      if b.Failure? {
        FailureStays(k, e, id, body, size, count, i + 1, count);
        return Failure(b.error);
      }
      frames := frames + [b.value];
    }
    return Success(frames);
  }

  lemma {:induction false} FailureStays(k: Coder, e: Encoding, id: Identity, body: Bytes, size: nat, count: nat, n: nat,
                                        m: nat)
    requires n <= m && FramesUpTo(k, e, id, body, size, count, n).Failure?
    ensures FramesUpTo(k, e, id, body, size, count, m) == FramesUpTo(k, e, id, body, size, count, n)
    decreases m
  {
    hide Encode, ChunkAt;
    if n < m {
      FailureStays(k, e, id, body, size, count, n, m - 1);
    }
  }

  // ----- the search for a chunk size ------------------------------------------------------------------

  /** Whether this chunk size may be used; a failure to encode a frame ends the search. */
  function Feasible(k: Coder, e: Encoding, id: Identity, body: Bytes, size: nat, max: nat): Result<bool, FrameError>
    requires size > 0
  {
    var count := ChunkCount(|body|, size);
    if count > MAX_LINK_FRAGMENTS then Success(false) else FitFrom(k, e, id, body, size, count, max, 0)
  }

  /** The search downwards from `size`. */
  function Search(k: Coder, e: Encoding, id: Identity, body: Bytes, size: nat, max: nat): (r: Result<nat, FrameError>)
    ensures r.Success? ==> 0 < r.value <= size
    decreases size
  {
    if size == 0 then Failure(RangeFailure)
    else
      match Feasible(k, e, id, body, size, max)
      case Failure(error) => Failure(error)
      case Success(fits) => if fits then Success(size) else Search(k, e, id, body, size - 1, max)
  }

  /** The size found is the largest feasible one; a search that finds none has tried and excluded every size. */
  lemma {:induction false} SearchLargest(k: Coder, e: Encoding, id: Identity, body: Bytes, size: nat, max: nat)
    ensures match Search(k, e, id, body, size, max)
            case Success(s) =>
              && 0 < s <= size && Feasible(k, e, id, body, s, max) == Success(true)
              && (forall t :: s < t <= size ==> Feasible(k, e, id, body, t, max) == Success(false))
            case Failure(error) =>
              || (error == RangeFailure && forall t :: 0 < t <= size ==> Feasible(k, e, id, body, t, max) == Success(false))
              || (exists s :: 0 < s <= size && Feasible(k, e, id, body, s, max) == Failure(error)
                              && forall t :: s < t <= size ==> Feasible(k, e, id, body, t, max) == Success(false))
    decreases size
  {
    hide Feasible;
    if size > 0 && Feasible(k, e, id, body, size, max) == Success(false) {
      SearchLargest(k, e, id, body, size - 1, max);
      if Search(k, e, id, body, size, max).Failure? {
        var error := Search(k, e, id, body, size, max).error;
        if s :| 0 < s <= size - 1 && Feasible(k, e, id, body, s, max) == Failure(error)
                && forall t :: s < t <= size - 1 ==> Feasible(k, e, id, body, t, max) == Success(false) {
          assert forall t :: s < t <= size ==> Feasible(k, e, id, body, t, max) == Success(false);
        }
      }
    }
  }

  /** The frames of a found chunk size. */
  function Split(k: Coder, e: Encoding, id: Identity, body: Bytes, start: nat, max: nat): Result<seq<Bytes>, FrameError> {
    match Search(k, e, id, body, start, max)
    case Failure(error) => Failure(error)
    case Success(size) => FramesFor(k, e, id, body, size)
  }

  /** The loop that `fragmentPayload` ends with. */
  method SplitLoop(k: Coder, e: Encoding, id: Identity, body: Bytes, start: nat, max: nat)
    returns (r: Result<seq<Bytes>, FrameError>)
    ensures r == Split(k, e, id, body, start, max)
  {
    hide FitFrom, FramesFor, ChunkCount;
    var size := start;
    while size > 0
      invariant Search(k, e, id, body, start, max) == Search(k, e, id, body, size, max)
    {
      var count := ChunkCount(|body|, size);
      if count <= MAX_LINK_FRAGMENTS {
        var fits := FramesFit(k, e, id, body, size, count, max);
        if fits.Failure? { return Failure(fits.error); }
        if fits.value {
          r := FramesForChunkSize(k, e, id, body, size);
          return;
        }
      }
      size := size - 1;
    }
    return Failure(RangeFailure);
  }

  /** `fragmentEncodedMessage`: range failures only mean that the envelope is not used. */
  function SplitEnvelope(k: Coder, e: Encoding, id: Identity, body: Bytes, max: nat): Result<Option<seq<Bytes>>, FrameError> {
    match Split(k, e, id, body, Min(|body|, max), max)
    case Success(frames) => Success(Some(frames))
    case Failure(RangeFailure) => Success(None)
    case Failure(TypeFailure) => Failure(TypeFailure)
  }

  method FragmentEncodedMessage(k: Coder, e: Encoding, id: Identity, body: Bytes, max: nat)
    returns (r: Result<Option<seq<Bytes>>, FrameError>)
    requires e.MessageV1? || e.MessageV2?
    requires ReceiptError(k, id, e, 0, 1).None?
    ensures r == SplitEnvelope(k, e, id, body, max)
  {
    hide FitFrom, FramesFor, ChunkCount;
    var size := Min(|body|, max);
    while size > 0
      invariant Search(k, e, id, body, Min(|body|, max), max) == Search(k, e, id, body, size, max)
    {
      var count := ChunkCount(|body|, size);
      if id.receipt.Some? && count != 1 {
        ReceiptNeverSplits(k, e, id, body, size, max);
        return Success(None);
      }
      if count <= MAX_LINK_FRAGMENTS {
        var fits := FramesFit(k, e, id, body, size, count, max);
        if fits.Failure? { return if fits.error.RangeFailure? then Success(None) else Failure(TypeFailure); }
        if fits.value {
          var frames := FramesForChunkSize(k, e, id, body, size);
          return match frames
                 case Success(fs) => Success(Some(fs))
                 case Failure(RangeFailure) => Success(None)
                 case Failure(TypeFailure) => Failure(TypeFailure);
        }
      }
      size := size - 1;
    }
    return Success(None);
  }

  /** A message with a receipt that does not fit one frame cannot be split into several. */
  lemma {:induction false} ReceiptNeverSplits(k: Coder, e: Encoding, id: Identity, body: Bytes, size: nat, max: nat)
    requires id.receipt.Some? && ReceiptError(k, id, e, 0, 1).None? && 0 < size <= |body| && ChunkCount(|body|, size) != 1
    ensures Search(k, e, id, body, size, max) == Failure(RangeFailure)
    decreases size
  {
    var count := ChunkCount(|body|, size);
    CountMeans(|body|, size);
    if size > 1 {
      MoreChunks(|body|, size);
      ReceiptNeverSplits(k, e, id, body, size - 1, max);
    }
    hide ChunkCount, ChunkAt;
    assert count > 0;
  }

  lemma MoreChunks(n: nat, size: nat)
    requires size > 1 && n > 0 && ChunkCount(n, size) != 1
    ensures ChunkCount(n, size - 1) != 1
  {
    CountMeans(n, size);
    CountMeans(n, size - 1);
  }

  // ----- choosing among the encodings -----------------------------------------------------------------

  function TotalBytes(frames: seq<Bytes>): nat {
    if frames == [] then 0 else TotalBytes(frames[..|frames| - 1]) + |frames[|frames| - 1]|
  }

  /** A candidate is used when it has no more frames and fewer bytes, or when there is no alternative. */
  function Choose(candidate: Option<seq<Bytes>>, other: Result<seq<Bytes>, FrameError>): Result<seq<Bytes>, FrameError> {
    if candidate.None? then other
    else if other.Failure? then
      if other.error.RangeFailure? then Success(candidate.value) else other
    else if |candidate.value| <= |other.value| && TotalBytes(candidate.value) < TotalBytes(other.value) then
      Success(candidate.value)
    else other
  }

  /** `fragmentPayload` once its arguments have been checked; `max` is already bounded by the packet size. */
  function Fragment(k: Coder, e: Encoding, id: Identity, payload: Bytes, max: nat): Result<seq<Bytes>, FrameError>
    decreases if e.MessageV2? then 2 else if e.MessageV1? then 1 else 0
  {
    match e
    case MessageV2 => FragmentMethod(k, id, payload, max)
    case MessageV1 => FragmentCompressed(k, id, payload, max)
    case CanonicalJson => Split(k, e, id, payload, Min(|payload|, max), max)
    case _ =>
      match Encode(k, e, id, 0, 1, payload)
      case Failure(error) => Failure(error)
      case Success(whole) =>
        if |whole| <= max then Success([whole])
        else if id.receipt.Some? then Failure(RangeFailure)
        else Split(k, e, id, payload, Min(|payload|, max * 4), max)
  }

  /** `fragmentCompressedMessage` */
  function FragmentCompressed(k: Coder, id: Identity, payload: Bytes, max: nat): Result<seq<Bytes>, FrameError>
    decreases 1, 0
  {
    match k.frame(BinaryV1, id, 0, 1, payload)
    case Failure(error) => Failure(error)
    case Success(whole) =>
      if |whole| <= max then Success([whole])
      else
        match Enveloped(k, MessageV1, id, k.compressed(payload), max)
        case Failure(error) => Failure(error)
        case Success(candidate) => Choose(candidate, Fragment(k, BinaryV1, id, payload, max))
  }

  function Enveloped(k: Coder, e: Encoding, id: Identity, body: Option<Bytes>, max: nat): Result<Option<seq<Bytes>>, FrameError> {
    if body.None? then Success(None) else SplitEnvelope(k, e, id, body.value, max)
  }

  /** `fragmentMethodMessage` */
  function FragmentMethod(k: Coder, id: Identity, payload: Bytes, max: nat): Result<seq<Bytes>, FrameError>
    decreases 2, 0
  {
    var previous := k.frame(BinaryV1, id, 0, 1, payload);
    var whole := k.method_(id, payload);
    if previous.Failure? then Failure(previous.error)
    else if whole.Failure? then Failure(whole.error)
    else if |previous.value| <= max then
      Success([if |whole.value| < |previous.value| then whole.value else previous.value])
    else
      match MethodCandidate(k, id, payload, whole.value, max)
      case Failure(error) => Failure(error)
      case Success(candidate) => Choose(candidate, Fragment(k, MessageV1, id, payload, max))
  }

  function MethodCandidate(k: Coder, id: Identity, payload: Bytes, whole: Bytes, max: nat): Result<Option<seq<Bytes>>, FrameError> {
    if |whole| <= max then Success(Some([whole]))
    else if |k.valued(payload)| < |payload| then SplitEnvelope(k, MessageV2, id, k.valued(payload), max)
    else Success(None)
  }

  /** `fragmentPayload` */
  function FragmentPayload(k: Coder, e: Encoding, id: Identity, payload: Bytes, maxFrameBytes: nat):
    Result<seq<Bytes>, FrameError>
  {
    if payload == [] then Failure(TypeFailure)
    else if |payload| > MAX_LINK_MESSAGE_BYTES || maxFrameBytes < 64 then Failure(RangeFailure)
    else if ReceiptError(k, id, e, 0, 1).Some? then Failure(ReceiptError(k, id, e, 0, 1).value)
    else Fragment(k, e, id, payload, Min(maxFrameBytes, MESHTASTIC_APPLICATION_PAYLOAD_BYTES))
  }
}
