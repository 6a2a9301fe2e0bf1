/** A set of codecs that meets every assumption made of the unseen ones, and a payload that it has to split. */
module FrameExample {
  import opened Wrappers
  import opened LinkTypes
  import opened LinkReassembly
  import opened Fragmentation
  import opened FragmentDelivery
  import opened BinaryHeader
  import opened MessageFrame
  import T = TextEncoding
  import C = CompactTokens

  function Zeros(n: nat): Text { seq(n, _ => 0) }

  function LeadingZeros(t: Text): nat { if t == [] || t[0] != 0 then 0 else 1 + LeadingZeros(t[1..]) }

  lemma {:induction false} ZerosLead(n: nat, rest: Text)
    requires rest != [] && rest[0] != 0
    ensures LeadingZeros(Zeros(n) + rest) == n
  {
    if n > 0 {
      assert (Zeros(n) + rest)[1..] == Zeros(n - 1) + rest;
      ZerosLead(n - 1, rest);
    }
  }

  function OpText(o: OpId): Text {
    match o
    case Named(name) => [1] + Utf16(name)
    case Drawn(n) => [2] + Zeros(n)
    case Activation(id, generation) => [3] + Zeros(generation) + [1] + Utf16(id)
  }

  function OpOf(t: Text): Option<OpId> {
    if t == [] then None
    else if t[0] == 1 then
      match FromUtf16(t[1..]) { case None => None case Some(name) => Some(OpId.Named(name)) }
    else if t[0] == 2 then Some(Drawn(|t| - 1))
    else
      var n := LeadingZeros(t[1..]);
      if |t| < 2 + n then None
      else match FromUtf16(t[2 + n..]) { case None => None case Some(id) => Some(Activation(id, n)) }
  }

  lemma OpBack(o: OpId)
    ensures OpOf(OpText(o)) == Some(o)
  {
    hide Utf16, FromUtf16;
    var t := OpText(o);
    match o {
      case Named(name) =>
        Utf16Back(name);
        assert t[1..] == Utf16(name);
      case Drawn(_) =>
      case Activation(id, generation) =>
        Utf16Back(id);
        ZerosLead(generation, [1] + Utf16(id));
        assert t[1..] == Zeros(generation) + ([1] + Utf16(id));
        assert t[2 + generation..] == Utf16(id);
    }
  }

  function MsgText(n: nat): Text { [2] + Zeros(n) }

  function MsgOf(t: Text): Option<nat> { if t == [] then None else Some(|t| - 1) }

  function Same(b: Bytes): Bytes { b }

  function Kept(b: Bytes): Option<Bytes> { Some(b) }

  function Nothing(b: Bytes): Option<Bytes> { None }

  /** Names as above; deflating leaves the bytes as they are, and no payload is repacked. */
  function PlainWire(): Wire { Wire(OpText, OpOf, MsgText, MsgOf, Same, Kept, Nothing, Nothing) }

  lemma PlainLawful()
    ensures Lawful(PlainWire())
  {
    hide OpText, OpOf;
    var w := PlainWire();
    assert w.op == OpText && w.opOf == OpOf;
    forall o ensures w.opOf(w.op(o)) == Some(o) { OpBack(o); }
    forall n: nat ensures w.msgOf(w.msg(n)) == Some(n) { MsgBack(n); }
    forall b: Bytes | b != []
      ensures w.deflate(b) != [] && w.inflate(w.deflate(b)) == Some(b) && |b| <= 1032 * |w.deflate(b)|
    {
      assert w.deflate(b) == Same(b) && w.inflate(b) == Kept(b);
    }
    forall p: Bytes ensures w.pack(p).None? { assert w.pack(p) == Nothing(p); }
  }

  lemma MsgBack(n: nat)
    ensures MsgOf(MsgText(n)) == Some(n)
  {
  }

  /** The older encodings never fit a packet here. */
  function OlderFrame(e: Encoding, id: Identity, i: nat, n: nat, chunk: Bytes): Result<Bytes, FrameError> {
    Success(seq(MESHTASTIC_APPLICATION_PAYLOAD_BYTES + 1, _ => 0))
  }

  function NoMethod(id: Identity, p: Bytes): Result<Bytes, FrameError> { Failure(RangeFailure) }

  function Longer(p: Bytes): Bytes { [0xb3] + p }

  /** An envelope holds the payload behind its marker. */
  function Opened(b: Bytes): Option<Bytes> { Some(if b != [] && b[0] == 0xb3 then b[1..] else b) }

  function NoFrame(b: Bytes): Option<Frame> { None }

  function Base(): Coder {
    Coder(OlderFrame, NoMethod, Nothing, Longer, NoFrame, Opened, (id: Identity) => true, (r: Receipt) => true)
  }

  function PlainCoder(): Coder { Framed(PlainWire(), Base()) }

  /** The assumptions made of the unseen codecs can be met. */
  lemma PlainFaithful()
    ensures Faithful(PlainCoder())
  {
    hide Faithful;
    PlainLawful();
    var k := MessageFrame.Named(PlainWire(), Base());
    forall e ensures FaithfulFrames(k, e) && Unmarked(k, e) {
      NeverSendable(k, e);
    }
    FramedFaithful(PlainWire(), Base());
  }

  lemma NeverSendable(k: Coder, e: Encoding)
    requires k.frame == OlderFrame
    ensures FaithfulFrames(k, e) && Unmarked(k, e)
  {
    forall id, i: nat, n: nat, chunk ensures !Sendable(k, e, id, i, n, chunk) {
      assert Encode(k, e, id, i, n, chunk).Success? ==> Encode(k, e, id, i, n, chunk) == OlderFrame(e, id, i, n, chunk);
    }
  }

  // ----- a payload that is split ----------------------------------------------------------------------

  function Someone(): Identity {
    Identity(StateKind, Node(Asset, "a"), None, 1, "s", 1, OpId.Named("o"), 0, None, LiveState)
  }

  lemma Utf8Short(t: Text)
    ensures |T.Utf8(t)| <= 4 * |t|
    decreases |t|
  {
    if t != [] { Utf8Short(t[T.Width(t)..]); }
  }

  lemma {:induction false} TextsShort(ts: seq<Text>)
    requires forall i :: 0 <= i < |ts| ==> |ts[i]| <= 3
    ensures WriteTexts(ts).Some? && |WriteTexts(ts).value| <= 13 * |ts|
  {
    hide C.Varint, T.Utf8;
    if ts != [] {
      Utf8Short(ts[0]);
      C.VarintShort(|T.Utf8(ts[0])|, 1) by { assert C.Power(1) == 128 by { assert C.Power(0) == 1; } }
      TextsShort(ts[1..]);
    }
  }

  lemma {:induction false} NumbersShort(ns: seq<nat>)
    requires forall i :: 0 <= i < |ns| ==> ns[i] <= MAX_SAFE_INTEGER
    ensures |WriteNumbers(ns)| <= 8 * |ns|
  {
    hide C.Varint;
    if ns != [] {
      assert C.Power(8) == 72_057_594_037_927_936;
      C.VarintShort(ns[0], 8);
      NumbersShort(ns[1..]);
    }
  }

  lemma OneUnit(c: char)
    requires c as nat < 0xd800
    ensures Utf16([c]) == [c as nat]
  {
    assert [c][1..] == [];
  }

  lemma SomeoneHeader(i: nat, n: nat)
    requires i < n <= MAX_LINK_FRAGMENTS
    ensures var h := HeaderBytes(PlainWire(), Someone(), i, n, true); h.Success? && 0 < |h.value| <= 130
  {
    hide WriteTexts, WriteNumbers;
    var h := HeaderOf(PlainWire(), Someone(), i, n, true);
    OneUnit('a');
    OneUnit('s');
    OneUnit('o');
    assert !White(Utf16("a")[0]) && 0x3a !in Utf16("a");
    assert NodeText(Someone().source).value == [0x61, 0x3a, 0x61];
    assert PlainWire().op(Someone().op) == OpText(Someone().op) == [1, 0x6f];
    assert PlainWire().msg(0) == MsgText(0) == [2];
    assert h.value.texts == [[0x61, 0x3a, 0x61], [], [0x73], [1, 0x6f], [2]];
    NumbersShort(h.value.numbers);
    TextsShort(h.value.texts);
    TextsShort([]);
    HeaderNotEmpty(h.value);
  }

  /** A chunk fits a packet exactly when there is room for it behind the header. */
  lemma SomeoneEncodes(i: nat, n: nat, chunk: Bytes)
    requires i < n <= MAX_LINK_FRAGMENTS
    ensures var r := Encode(PlainCoder(), BinaryV1, Someone(), i, n, chunk);
            && r.Success? && (|chunk| <= 1 ==> |r.value| <= MESHTASTIC_APPLICATION_PAYLOAD_BYTES)
            && (|chunk| >= MESHTASTIC_APPLICATION_PAYLOAD_BYTES ==> |r.value| > MESHTASTIC_APPLICATION_PAYLOAD_BYTES)
  {
    hide HeaderBytes, Legacy;
    SomeoneHeader(i, n);
    var w, k := PlainWire(), MessageFrame.Named(PlainWire(), Base());
    assert Encode(PlainCoder(), BinaryV1, Someone(), i, n, chunk) == EncodeAdaptive(w, k, Someone(), i, n, chunk);
    assert Encode(k, DeflateV2, Someone(), i, n, chunk) == OlderFrame(DeflateV2, Someone(), i, n, chunk);
    assert w.pack(chunk) == Nothing(chunk);
    var body := HeaderBytes(w, Someone(), i, n, true).value + chunk;
    assert w.deflate(body) == Same(body);
  }

  lemma {:induction false} SomeoneFits(body: Bytes, size: nat, count: nat, i: nat)
    requires i <= count <= MAX_LINK_FRAGMENTS
    ensures var r := FitFrom(PlainCoder(), BinaryV1, Someone(), body, size, count, MESHTASTIC_APPLICATION_PAYLOAD_BYTES, i);
            r.Success? && (size <= 1 ==> r.value)
    decreases count - i
  {
    hide Encode;
    if i < count {
      SomeoneEncodes(i, count, ChunkAt(body, size, i));
      assert (i + 1) * size == i * size + size;
      SomeoneFits(body, size, count, i + 1);
    }
  }

  lemma {:induction false} SomeoneSearch(body: Bytes, size: nat)
    requires 0 < size && 0 < |body| <= MAX_LINK_FRAGMENTS
    ensures Search(PlainCoder(), BinaryV1, Someone(), body, size, MESHTASTIC_APPLICATION_PAYLOAD_BYTES).Success?
    decreases size
  {
    hide FitFrom, PlainCoder, Someone;
    var count := ChunkCount(|body|, size);
    if count <= MAX_LINK_FRAGMENTS { SomeoneFits(body, size, count, 0); }
    if size > 1 { SomeoneSearch(body, size - 1); }
  }

  lemma OneChunk(body: Bytes, size: nat)
    requires size > 0 && body != []
    ensures ChunkCount(|body|, size) > 0
    ensures ChunkCount(|body|, size) == 1 ==> ChunkAt(body, size, 0) == body
  {
    CountMeans(|body|, size);
  }

  /** Any payload that is larger than a packet, yet has at most 4096 bytes, goes out in several frames. */
  lemma PlainSplits(payload: Bytes)
    requires MESHTASTIC_APPLICATION_PAYLOAD_BYTES <= |payload| <= MAX_LINK_FRAGMENTS
    ensures var r := FragmentPayload(PlainCoder(), BinaryV1, Someone(), payload, MESHTASTIC_APPLICATION_PAYLOAD_BYTES);
            r.Success? && |r.value| > 1
  {
    hide FitFrom, PlainCoder, Encode, ChunkCount;
    var k, id, max := PlainCoder(), Someone(), MESHTASTIC_APPLICATION_PAYLOAD_BYTES;
    var start := Min(|payload|, max * 4);
    SomeoneEncodes(0, 1, payload);
    SomeoneSearch(payload, start);
    SearchLargest(k, BinaryV1, id, payload, start, max);
    var size := Search(k, BinaryV1, id, payload, start, max).value;
    var count := ChunkCount(|payload|, size);
    FitMeans(k, BinaryV1, id, payload, size, count, max, 0);
    FramesMean(k, BinaryV1, id, payload, size, count, count);
    OneChunk(payload, size);
  }

  /** Of a payload that begins with the marker of an envelope, what arrives is only what follows the marker. */
  lemma MarkerLost(payload: Bytes, order: seq<nat>)
    requires MESHTASTIC_APPLICATION_PAYLOAD_BYTES <= |payload| <= MAX_LINK_FRAGMENTS && payload[0] == 0xb3
    requires var r := FragmentPayload(PlainCoder(), BinaryV1, Someone(), payload, MESHTASTIC_APPLICATION_PAYLOAD_BYTES);
             r.Success? ==> Received(order, |r.value|)
    ensures var r := FragmentPayload(PlainCoder(), BinaryV1, Someone(), payload, MESHTASTIC_APPLICATION_PAYLOAD_BYTES);
            r.Success? && Delivers(PlainCoder(), Someone(), r.value, order, payload)
    ensures PlainCoder().restore(payload) == Some(payload[1..])
  {
    hide FragmentPayload, Delivers, Faithful;
    PlainSplits(payload);
    PlainFaithful();
    SomeoneProper();
    var _ := FragmentsRebuild(PlainCoder(), BinaryV1, Someone(), payload, MESHTASTIC_APPLICATION_PAYLOAD_BYTES, order);
    assert PlainCoder().restore(payload) == Opened(payload);
  }

  lemma SomeoneProper()
    ensures PlainCoder().proper(Someone())
  {
    OneUnit('s');
    OneUnit('o');
    var w, id := PlainWire(), Someone();
    assert !White(Utf16(id.session)[0]);
    assert w.op(id.op) == OpText(id.op) && !White(OpText(id.op)[0]);
    assert w.msg(id.msgId) == MsgText(id.msgId) && !White(MsgText(id.msgId)[0]);
  }
}
