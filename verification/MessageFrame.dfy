/** The binary-v1 and message-v1 frames: a deflated header with, inside or behind it, a chunk of a message (frame.ts). */
module MessageFrame {
  import opened Wrappers
  import opened LinkTypes
  import opened LinkReassembly
  import opened Fragmentation
  import opened FragmentDelivery
  import opened BinaryHeader
  import J = Json
  import T = TextEncoding

  type Text = J.Text

  const LINK_PROTOCOL_REVISION: nat := 1
  const BINARY_V1_MARKER: Byte := 0xa5
  const MESSAGE_V1_MARKER: Byte := 0xa6
  const MAX_BINARY_BODY: nat := MAX_LINK_MESSAGE_BYTES * 4 + 7 * 65_538 + 64
  const MAX_MESSAGE_HEADER: nat := 7 * 65_538 + 64

  /** The texts of operation and message identities, and the unseen deflate and JSON repacking. */
  datatype Wire = Wire(
    op: OpId -> Text,
    opOf: Text -> Option<OpId>,
    msg: nat -> Text,
    msgOf: Text -> Option<nat>,
    deflate: Bytes -> Bytes,
    inflate: Bytes -> Option<Bytes>,
    pack: Bytes -> Option<Bytes>,
    unpack: Bytes -> Option<Bytes>)

  /** Deflate and repacking can be undone, and 1032 bytes are the most that a deflated byte stands for. */
  ghost predicate Lawful(w: Wire) {
    && (forall o :: w.opOf(w.op(o)) == Some(o))
    && (forall n: nat :: w.msgOf(w.msg(n)) == Some(n))
    && (forall b :: b != [] ==> w.deflate(b) != [] && w.inflate(w.deflate(b)) == Some(b) && |b| <= 1032 * |w.deflate(b)|)
    && (forall p :: w.pack(p).Some? ==> w.pack(p).value != [] && w.unpack(w.pack(p).value) == Some(p))
  }

  // ----- names ----------------------------------------------------------------------------------------

  /** The code units of a string. */
  function Utf16(s: string): Text { if s == [] then [] else T.UnitsOf(s[0] as nat) + Utf16(s[1..]) }

  function FromUtf16(t: Text): Option<string>
    decreases |t|
  {
    if t == [] then Some([])
    else
      var point := T.CodePoint(t);
      if 0xd800 <= point < 0xe000 then None
      else
        match FromUtf16(t[T.Width(t)..])
        case None => None
        case Some(rest) => Some([point as char] + rest)
  }

  lemma FirstPoint(c: char, rest: Text)
    ensures var t := T.UnitsOf(c as nat) + rest; T.Width(t) == |T.UnitsOf(c as nat)| && T.CodePoint(t) == c as nat
  {
    var point := c as nat;
    var t := T.UnitsOf(point) + rest;
    if point >= 0x10000 {
      assert T.High(t[0]) && T.Low(t[1]);
    } else {
      assert t[0] == point && !T.High(point);
    }
  }

  lemma {:induction false} Utf16Back(s: string)
    ensures FromUtf16(Utf16(s)) == Some(s)
  {
    if s != [] {
      var first, rest := T.UnitsOf(s[0] as nat), Utf16(s[1..]);
      FirstPoint(s[0], rest);
      assert (first + rest)[|first|..] == rest;
      Utf16Back(s[1..]);
      var point := s[0] as nat;
      assert !(0xd800 <= point < 0xe000);
      assert point as char == s[0];
      assert [s[0]] + s[1..] == s;
    }
  }

  /** What `trim` removes. */
  predicate White(u: nat) {
    || 0x09 <= u <= 0x0d || u == 0x20 || u == 0xa0 || u == 0x1680 || 0x2000 <= u <= 0x200a || u == 0x2028 || u == 0x2029
    || u == 0x202f || u == 0x205f || u == 0x3000 || u == 0xfeff
  }

  predicate Blank(t: Text) { forall i :: 0 <= i < |t| ==> White(t[i]) }

  predicate GoodName(t: Text) { !Blank(t) && 0x3a !in t }

  /** `encodeNode` */
  function NodeText(n: Node): Option<Text> {
    if GoodName(Utf16(n.id)) then Some([if n.role.Asset? then 0x61 else 0x67, 0x3a] + Utf16(n.id)) else None
  }

  /** `decodeNode` */
  function NodeOf(t: Text): Option<Node> {
    if |t| < 2 || t[1] != 0x3a || (t[0] != 0x61 && t[0] != 0x67) || !GoodName(t[2..]) then None
    else
      match FromUtf16(t[2..])
      case None => None
      case Some(id) => Some(Node(if t[0] == 0x61 then Asset else Gateway, id))
  }

  lemma NodeBack(n: Node)
    requires NodeText(n).Some?
    ensures NodeOf(NodeText(n).value) == Some(n) && NodeText(n).value != []
  {
    Utf16Back(n.id);
    assert NodeText(n).value[2..] == Utf16(n.id);
  }

  function KindCode(k: Kind): nat {
    match k
    case StateKind => 0x73
    case DeliveryKind => 0x74
    case ReportKind => 0x70
    case RequestKind => 0x71
    case ResponseKind => 0x72
    case OperationKind => 0x6f
    case SubscriptionKind => 0x75
    case ContentKind => 0x62
    case ControlMessageKind => 0x63
  }

  /** `String.fromCharCode` keeps sixteen bits of a code. */
  function KindOfCode(n: nat): Option<Kind> {
    match n % 0x10000
    case 0x73 => Some(StateKind)
    case 0x74 => Some(DeliveryKind)
    case 0x70 => Some(ReportKind)
    case 0x71 => Some(RequestKind)
    case 0x72 => Some(ResponseKind)
    case 0x6f => Some(OperationKind)
    case 0x75 => Some(SubscriptionKind)
    case 0x62 => Some(ContentKind)
    case 0x63 => Some(ControlMessageKind)
    case _ => None
  }

  function PriorityCode(p: Priority): nat {
    match p
    case Safety => 0x73
    case TaskPriority => 0x74
    case Request => 0x71
    case LiveState => 0x6c
    case Resource => 0x72
    case ObjectPriority => 0x6f
  }

  function PriorityOfCode(n: nat): Option<Priority> {
    match n % 0x10000
    case 0x73 => Some(Safety)
    case 0x74 => Some(TaskPriority)
    case 0x71 => Some(Request)
    case 0x6c => Some(LiveState)
    case 0x72 => Some(Resource)
    case 0x6f => Some(ObjectPriority)
    case _ => None
  }

  // ----- headers --------------------------------------------------------------------------------------

  /** The fields of the header; `None` when a node cannot be named. */
  function HeaderOf(w: Wire, id: Identity, i: nat, n: nat, opaque_: bool): Option<Header> {
    var source := NodeText(id.source);
    var dest := if id.dest.None? then Some([]) else NodeText(id.dest.value);
    if source.None? || dest.None? then None
    else
      var receipt := match id.receipt
                     case None => None
                     case Some(r) => Some((w.op(r.op), w.msg(r.msgId)));
      Some(Header([LINK_PROTOCOL_REVISION, KindCode(id.kind), PriorityCode(id.priority), id.generation, id.sequence, i, n],
                  [source.value, dest.value, Utf16(id.session), w.op(id.op), w.msg(id.msgId)], receipt, opaque_))
  }

  /** `encodeBinaryHeader` for an identity. */
  function HeaderBytes(w: Wire, id: Identity, i: nat, n: nat, opaque_: bool): (r: Result<Bytes, FrameError>)
    ensures r.Success? ==>
              var h := HeaderOf(w, id, i, n, opaque_);
              h.Some? && SevenAndFive(h.value) && EncodeHeader(h.value) == Some(r.value)
  {
    var h := HeaderOf(w, id, i, n, opaque_);
    if h.None? || !SevenAndFive(h.value) then Failure(TypeFailure)
    else
      match EncodeHeader(h.value)
      case None => Failure(RangeFailure)
      case Some(b) => Success(b)
  }

  /** What `decodeBinaryBody` and `decodeFrame` make of a header and a payload. */
  function FrameOf(w: Wire, body: Body): Option<Frame> {
    var h := body.header;
    if !SevenAndFive(h) || h.numbers[0] != LINK_PROTOCOL_REVISION then None
    else
      var kind, priority := KindOfCode(h.numbers[1]), PriorityOfCode(h.numbers[2]);
      var source := NodeOf(h.texts[0]);
      var dest := if h.texts[1] == [] then None else NodeOf(h.texts[1]);
      var session, op, msg := FromUtf16(h.texts[2]), w.opOf(h.texts[3]), w.msgOf(h.texts[4]);
      if kind.None? || priority.None? || source.None? || (h.texts[1] != [] && dest.None?) then None
      else if session.None? || op.None? || msg.None? then None
      else if Blank(h.texts[2]) || Blank(h.texts[3]) || Blank(h.texts[4]) then None
      else if !(h.numbers[5] < h.numbers[6] <= MAX_LINK_FRAGMENTS) || !Payload(body.payload) then None
      else
        var receipt := ReceiptOf(w, h);
        if h.receipt.Some? && (receipt.None? || !kind.value.ReportKind? || dest.None? || h.numbers[6] != 1) then None
        else
          var id := Identity(kind.value, source.value, dest, h.numbers[3], session.value, h.numbers[4], op.value, msg.value,
                             receipt, priority.value);
          Some(Frame(id, h.numbers[5], h.numbers[6], body.payload))
  }

  function ReceiptOf(w: Wire, h: Header): Option<Receipt> {
    if h.receipt.None? || Blank(h.receipt.value.0) || Blank(h.receipt.value.1) then None
    else
      var op, msg := w.opOf(h.receipt.value.0), w.msgOf(h.receipt.value.1);
      if op.None? || msg.None? then None else Some(Receipt(op.value, msg.value))
  }

  /** Session, operation and message identity are more than white space. */
  predicate Proper(w: Wire, id: Identity) { !Blank(Utf16(id.session)) && !Blank(w.op(id.op)) && !Blank(w.msg(id.msgId)) }

  predicate ProperReceipt(w: Wire, r: Receipt) { !Blank(w.op(r.op)) && !Blank(w.msg(r.msgId)) }

  predicate ReceiptFits(w: Wire, id: Identity, n: nat) {
    id.receipt.Some? ==> id.kind.ReportKind? && id.dest.Some? && n == 1 && ProperReceipt(w, id.receipt.value)
  }

  /** A header is understood exactly when its names are more than white space. */
  lemma HeaderMeans(w: Wire, id: Identity, i: nat, n: nat, opaque_: bool, payload: Bytes)
    requires Lawful(w) && HeaderBytes(w, id, i, n, opaque_).Success?
    requires i < n <= MAX_LINK_FRAGMENTS && Payload(payload) && ReceiptFits(w, id, n)
    ensures var frame := FrameOf(w, Body(HeaderOf(w, id, i, n, opaque_).value, payload));
            frame == if Proper(w, id) then Some(Frame(id, i, n, payload)) else None
  {
    hide NodeText, NodeOf, FromUtf16, Utf16, Blank, EncodeHeader;
    NodeBack(id.source);
    if id.dest.Some? { NodeBack(id.dest.value); }
    Utf16Back(id.session);
    CodesBack(id.kind, id.priority);
    hide KindOfCode, PriorityOfCode, KindCode, PriorityCode;
  }

  lemma CodesBack(k: Kind, p: Priority)
    ensures KindOfCode(KindCode(k)) == Some(k) && PriorityOfCode(PriorityCode(p)) == Some(p)
  {
  }

  // ----- the two frames -------------------------------------------------------------------------------

  /** `encodeMessageFrame` */
  function EncodeMessage(w: Wire, id: Identity, i: nat, n: nat, chunk: Bytes): Result<Bytes, FrameError> {
    match HeaderBytes(w, id, i, n, true)
    case Failure(error) => Failure(error)
    case Success(header) =>
      var small := w.deflate(header);
      if |small| > 255 then Failure(RangeFailure) else Success([MESSAGE_V1_MARKER, |small|] + small + chunk)
  }

  function Inflated(w: Wire, b: Bytes, limit: nat): Option<Bytes> {
    match w.inflate(b)
    case None => None
    case Some(raw) => if |raw| > limit then None else Some(raw)
  }

  function Understood(w: Wire, body: Option<Body>): Option<Frame> { if body.None? then None else FrameOf(w, body.value) }

  /** `decodeMessageFrame` */
  function DecodeMessage(w: Wire, b: Bytes): Option<Frame>
    requires b != []
  {
    if |b| < 2 || b[1] == 0 || b[1] + 2 >= |b| then None
    else
      match Inflated(w, b[2..2 + b[1]], MAX_MESSAGE_HEADER)
      case None => None
      case Some(raw) => Understood(w, DecodeBody(raw, Some(b[2 + b[1]..]), w.unpack))
  }

  /** `encodeBinaryFrame` */
  function EncodeBinary(w: Wire, id: Identity, i: nat, n: nat, chunk: Bytes): Result<Bytes, FrameError> {
    var packed := w.pack(chunk);
    match HeaderBytes(w, id, i, n, packed.None?)
    case Failure(error) => Failure(error)
    case Success(header) =>
      Success([BINARY_V1_MARKER] + w.deflate(header + (if packed.None? then chunk else packed.value)))
  }

  /** `decodeBinaryFrame` */
  function DecodeBinary(w: Wire, b: Bytes): Option<Frame>
    requires b != []
  {
    match Inflated(w, b[1..], MAX_BINARY_BODY)
    case None => None
    case Some(raw) => Understood(w, DecodeBody(raw, None, w.unpack))
  }

  lemma HeaderNotEmpty(h: Header)
    requires SevenAndFive(h) && EncodeHeader(h).Some?
    ensures EncodeHeader(h).value != []
  {
    hide WriteTexts;
    assert WriteNumbers(h.numbers) != [];
  }

  /** A message frame within the packet size is decoded to what was encoded, unless one of its names is blank. */
  lemma MessageFrameReads(w: Wire, id: Identity, i: nat, n: nat, chunk: Bytes)
    requires Lawful(w) && EncodeMessage(w, id, i, n, chunk).Success?
    requires |EncodeMessage(w, id, i, n, chunk).value| <= MESHTASTIC_APPLICATION_PAYLOAD_BYTES
    requires i < n <= MAX_LINK_FRAGMENTS && Payload(chunk) && ReceiptFits(w, id, n)
    ensures DecodeMessage(w, EncodeMessage(w, id, i, n, chunk).value) ==
            if Proper(w, id) then Some(Frame(id, i, n, chunk)) else None
  {
    hide EncodeHeader, DecodeBody, FrameOf, HeaderOf, Proper, ReceiptFits;
    var h := HeaderOf(w, id, i, n, true).value;
    var header := HeaderBytes(w, id, i, n, true).value;
    HeaderNotEmpty(h);
    var small := w.deflate(header);
    var b := [MESSAGE_V1_MARKER, |small|] + small + chunk;
    assert b[2..2 + |small|] == small && b[2 + |small|..] == chunk;
    OpaqueHeader(w, id, i, n, true);
    BodyRoundTrip(h, chunk, chunk, w.unpack);
    HeaderMeans(w, id, i, n, true, chunk);
  }

  lemma OpaqueHeader(w: Wire, id: Identity, i: nat, n: nat, opaque_: bool)
    requires HeaderOf(w, id, i, n, opaque_).Some?
    ensures HeaderOf(w, id, i, n, opaque_).value.opaque_ == opaque_
  {
  }

  /** A binary frame within the packet size is decoded to what was encoded, unless one of its names is blank. */
  lemma BinaryFrameReads(w: Wire, id: Identity, i: nat, n: nat, chunk: Bytes)
    requires Lawful(w) && EncodeBinary(w, id, i, n, chunk).Success?
    requires |EncodeBinary(w, id, i, n, chunk).value| <= MESHTASTIC_APPLICATION_PAYLOAD_BYTES
    requires i < n <= MAX_LINK_FRAGMENTS && Payload(chunk) && ReceiptFits(w, id, n)
    ensures DecodeBinary(w, EncodeBinary(w, id, i, n, chunk).value) ==
            if Proper(w, id) then Some(Frame(id, i, n, chunk)) else None
  {
    hide EncodeHeader, DecodeBody, FrameOf, HeaderOf, Proper, ReceiptFits;
    var packed := w.pack(chunk);
    var h := HeaderOf(w, id, i, n, packed.None?).value;
    var header := HeaderBytes(w, id, i, n, packed.None?).value;
    HeaderNotEmpty(h);
    var encoded := if packed.None? then chunk else packed.value;
    var b := [BINARY_V1_MARKER] + w.deflate(header + encoded);
    assert b[1..] == w.deflate(header + encoded);
    OpaqueHeader(w, id, i, n, packed.None?);
    BodyRoundTrip(h, chunk, encoded, w.unpack);
    HeaderMeans(w, id, i, n, packed.None?, chunk);
  }

  // ----- both among the other encodings ---------------------------------------------------------------

  /** `legacyHeaderRoundTrips`: no text of the header holds an unpaired surrogate. */
  predicate Legacy(w: Wire, id: Identity) {
    && FromUtf16(w.op(id.op)).Some? && FromUtf16(w.msg(id.msgId)).Some?
    && (id.receipt.Some? ==> FromUtf16(w.op(id.receipt.value.op)).Some? && FromUtf16(w.msg(id.receipt.value.msgId)).Some?)
  }

  /** `encodeAdaptiveBinaryFrame`: the older form is used when it is not longer. */
  function EncodeAdaptive(w: Wire, k: Coder, id: Identity, i: nat, n: nat, chunk: Bytes): Result<Bytes, FrameError> {
    match EncodeBinary(w, id, i, n, chunk)
    case Failure(error) => Failure(error)
    case Success(binary) =>
      if !Legacy(w, id) then Success(binary)
      else
        match Encode(k, if id.receipt.None? then DeflateV2 else DeflateV3, id, i, n, chunk)
        case Failure(error) => Failure(error)
        case Success(fallback) => Success(if |binary| >= |fallback| then fallback else binary)
  }

  /** The codecs of `k` with the two frames of this module in their place. */
  function Framed(w: Wire, k: Coder): Coder {
    k.(frame := (e: Encoding, id: Identity, i: nat, n: nat, chunk: Bytes) =>
         if e.BinaryV1? then EncodeAdaptive(w, Named(w, k), id, i, n, chunk)
         else if e.MessageV1? || e.MessageV2? then EncodeMessage(w, id, i, n, chunk)
         else k.frame(e, id, i, n, chunk),
       decode := (b: Bytes) =>
         if b != [] && b[0] == BINARY_V1_MARKER then DecodeBinary(w, b)
         else if b != [] && b[0] == MESSAGE_V1_MARKER then DecodeMessage(w, b)
         else k.decode(b),
       proper := (id: Identity) => Proper(w, id),
       properReceipt := (r: Receipt) => ProperReceipt(w, r))
  }

  function Named(w: Wire, k: Coder): Coder {
    k.(proper := (id: Identity) => Proper(w, id), properReceipt := (r: Receipt) => ProperReceipt(w, r))
  }

  predicate Marked(b: Bytes) { b != [] && (b[0] == BINARY_V1_MARKER || b[0] == MESSAGE_V1_MARKER) }

  /** The frames of an older encoding do not begin with the markers of this module. */
  ghost predicate Unmarked(k: Coder, e: Encoding) {
    forall id, i: nat, n: nat, chunk :: Sendable(k, e, id, i, n, chunk) ==> !Marked(Encode(k, e, id, i, n, chunk).value)
  }

  predicate Older(e: Encoding) { e.CanonicalJson? || e.DeflateV1? || e.DeflateV2? || e.DeflateV3? }

  /** The unseen codecs that remain are faithful: the older encodings, the method frame and the envelopes. */
  ghost predicate OthersFaithful(k: Coder) {
    && (forall e :: Older(e) ==> FaithfulFrames(k, e) && Unmarked(k, e))
    && FaithfulMethod(k) && FaithfulEnvelopes(k)
    && (forall id, p :: k.method_(id, p).Success? ==> !Marked(k.method_(id, p).value))
  }

  /** With a lawful deflate, the header codec makes faithful frames. */
  lemma FramedFaithful(w: Wire, k: Coder)
    requires Lawful(w) && OthersFaithful(Named(w, k))
    ensures Faithful(Framed(w, k))
  {
    hide FaithfulEnvelopes;
    var g := Framed(w, k);
    forall e ensures FaithfulFrames(g, e) {
      forall id, i: nat, n: nat, chunk | g.proper(id) && Sendable(g, e, id, i, n, chunk)
        ensures g.decode(Encode(g, e, id, i, n, chunk).value) == Some(Frame(id, i, n, chunk))
      {
        FramedReads(w, k, e, id, i, n, chunk);
      }
    }
    FramedMethod(w, k);
    EnvelopesCopied(Named(w, k), g);
  }

  lemma EnvelopesCopied(k: Coder, g: Coder)
    requires FaithfulEnvelopes(k) && g.compressed == k.compressed && g.valued == k.valued && g.restore == k.restore
    ensures FaithfulEnvelopes(g)
  {
  }

  lemma FramedMethod(w: Wire, k: Coder)
    requires OthersFaithful(Named(w, k))
    ensures FaithfulMethod(Framed(w, k))
  {
    hide FaithfulEnvelopes, FaithfulFrames, Unmarked;
    var g, m := Framed(w, k), Named(w, k);
    forall id, p | g.proper(id) && Payload(p) && ReceiptError(g, id, MessageV2, 0, 1).None? && g.method_(id, p).Success?
                   && |g.method_(id, p).value| <= MESHTASTIC_APPLICATION_PAYLOAD_BYTES
      ensures g.decode(g.method_(id, p).value) == Some(Frame(id, 0, 1, p))
    {
      assert m.proper(id) && ReceiptError(m, id, MessageV2, 0, 1).None? && m.method_(id, p) == g.method_(id, p);
      assert !Marked(m.method_(id, p).value);
    }
  }

  lemma FramedReads(w: Wire, k: Coder, e: Encoding, id: Identity, i: nat, n: nat, chunk: Bytes)
    requires Lawful(w) && OthersFaithful(Named(w, k))
    requires Proper(w, id) && Sendable(Framed(w, k), e, id, i, n, chunk)
    ensures Framed(w, k).decode(Encode(Framed(w, k), e, id, i, n, chunk).value) == Some(Frame(id, i, n, chunk))
  {
    hide Lawful, OthersFaithful, EncodeBinary, EncodeMessage, DecodeBinary, DecodeMessage, Proper, Legacy;
    assert ReceiptFits(w, id, n);
    if e.BinaryV1? {
      var binary := EncodeBinary(w, id, i, n, chunk);
      if EncodeAdaptive(w, Named(w, k), id, i, n, chunk) == binary {
        BinaryFrameReads(w, id, i, n, chunk);
        BinaryMarked(w, id, i, n, chunk);
      } else {
        OlderReads(w, k, if id.receipt.None? then DeflateV2 else DeflateV3, id, i, n, chunk);
      }
    } else if e.MessageV1? || e.MessageV2? {
      MessageFrameReads(w, id, i, n, chunk);
      MessageMarked(w, id, i, n, chunk);
    } else {
      OlderReads(w, k, e, id, i, n, chunk);
    }
  }

  lemma BinaryMarked(w: Wire, id: Identity, i: nat, n: nat, chunk: Bytes)
    requires EncodeBinary(w, id, i, n, chunk).Success?
    ensures var b := EncodeBinary(w, id, i, n, chunk).value; b != [] && b[0] == BINARY_V1_MARKER
  {
  }

  lemma MessageMarked(w: Wire, id: Identity, i: nat, n: nat, chunk: Bytes)
    requires EncodeMessage(w, id, i, n, chunk).Success?
    ensures var b := EncodeMessage(w, id, i, n, chunk).value; b != [] && b[0] == MESSAGE_V1_MARKER
  {
  }

  lemma OlderReads(w: Wire, k: Coder, e: Encoding, id: Identity, i: nat, n: nat, chunk: Bytes)
    requires OthersFaithful(Named(w, k)) && Older(e) && Proper(w, id) && Sendable(Named(w, k), e, id, i, n, chunk)
    ensures Framed(w, k).decode(Encode(Named(w, k), e, id, i, n, chunk).value) == Some(Frame(id, i, n, chunk))
  {
    hide Encode;
    assert FaithfulFrames(Named(w, k), e) && Unmarked(Named(w, k), e);
  }
}
