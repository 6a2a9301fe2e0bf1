/** The binary frame header and the body that follows it (frame.ts). */
module BinaryHeader {
  import opened Wrappers
  import opened Json
  import opened TextEncoding
  import opened CompactTokens

  const MAX_HEADER_TEXT: nat := 65_535

  /**
    The numbers are revision, kind and priority codes, generation, sequence, index and count; the texts are source,
    destination (empty for a broadcast), session, operation and message identity.
    */
  datatype Header = Header(numbers: seq<nat>, texts: seq<Text>, receipt: Option<(Text, Text)>, opaque_: bool)

  datatype Body = Body(header: Header, payload: Bytes)

  predicate SevenAndFive(h: Header) {
    |h.numbers| == 7 && |h.texts| == 5 && forall i :: 0 <= i < 7 ==> h.numbers[i] <= MAX_SAFE_INTEGER
  }

  function ReceiptTexts(h: Header): seq<Text> { if h.receipt.None? then [] else [h.receipt.value.0, h.receipt.value.1] }

  function Flag(h: Header): nat { (if h.receipt.None? then 0 else 1) + (if h.opaque_ then 2 else 0) }

  // ----- writing --------------------------------------------------------------------------------------

  function WriteNumbers(ns: seq<nat>): Bytes { if ns == [] then [] else Varint(ns[0]) + WriteNumbers(ns[1..]) }

  /** `writeBinaryHeaderString` for a list of texts; `None` when one of them is too long. */
  function WriteTexts(ts: seq<Text>): Option<Bytes> {
    if ts == [] then Some([])
    else if |Utf8(ts[0])| > MAX_HEADER_TEXT then None
    else
      match WriteTexts(ts[1..])
      case None => None
      case Some(rest) => Some(Varint(|Utf8(ts[0])|) + Utf8(ts[0]) + rest)
  }

  function EncodeHeader(h: Header): Option<Bytes> {
    var texts := WriteTexts(h.texts);
    var receipt := WriteTexts(ReceiptTexts(h));
    if texts.None? || receipt.None? then None
    else Some(WriteNumbers(h.numbers) + texts.value + Varint(Flag(h)) + receipt.value)
  }

  method PushVarint(output: Bytes, n: nat) returns (r: Bytes)
    ensures r == output + Varint(n)
  {
    var value, more := n, true;
    r := output;
    while more
      invariant if more then r + Varint(value) == output + Varint(n) else r == output + Varint(n)
      decreases if more then value + 1 else 0
    {
      var byte := value % 128;
      value := value / 128;
      ghost var before := r;
      r := r + [if value > 0 then byte + 128 else byte];
      if value > 0 {
        assert before + ([byte + 128] + Varint(value)) == r + Varint(value);
      }
      more := value > 0;
    }
  }

  method PushTexts(output: Bytes, ts: seq<Text>) returns (r: Option<Bytes>)
    ensures r == match WriteTexts(ts) { case None => None case Some(b) => Some(output + b) }
  {
    hide Utf8, Varint;
    var fields := output;
    assert ts[0..] == ts;
    for i := 0 to |ts|
      invariant match WriteTexts(ts)
                case None => WriteTexts(ts[i..]).None?
                case Some(b) => WriteTexts(ts[i..]).Some? && output + b == fields + WriteTexts(ts[i..]).value
    {
      assert ts[i..][0] == ts[i] && ts[i..][1..] == ts[i + 1..];
      var bytes := EncodeBinaryUtf8(ts[i]);
      if |bytes| > MAX_HEADER_TEXT { return None; }
      ghost var rest := WriteTexts(ts[i + 1..]);
      if rest.Some? {
        Regroup(fields, Varint(|bytes|), bytes, rest.value);
      }
      fields := PushVarint(fields, |bytes|);
      fields := fields + bytes;
    }
    assert ts[|ts|..] == [] && fields + [] == fields;
    return Some(fields);
  }

  lemma Regroup(a: Bytes, b: Bytes, c: Bytes, d: Bytes)
    ensures a + (b + c + d) == a + b + c + d
  {
  }

  /** `encodeBinaryHeader` */
  method EncodeBinaryHeader(h: Header) returns (r: Option<Bytes>)
    ensures r == EncodeHeader(h)
  {
    hide Varint, WriteTexts;
    var fields := [];
    assert h.numbers[0..] == h.numbers;
    for i := 0 to |h.numbers|
      invariant fields + WriteNumbers(h.numbers[i..]) == WriteNumbers(h.numbers)
    {
      assert h.numbers[i..][0] == h.numbers[i] && h.numbers[i..][1..] == h.numbers[i + 1..];
      assert fields + (Varint(h.numbers[i]) + WriteNumbers(h.numbers[i + 1..]))
          == fields + Varint(h.numbers[i]) + WriteNumbers(h.numbers[i + 1..]);
      fields := PushVarint(fields, h.numbers[i]);
    }
    assert h.numbers[|h.numbers|..] == [] && fields + [] == fields;
    var texts := PushTexts(fields, h.texts);
    if texts.None? { return None; }
    fields := PushVarint(texts.value, Flag(h));
    r := PushTexts(fields, ReceiptTexts(h));
  }

  // ----- reading --------------------------------------------------------------------------------------

  /** The integer reader of frame bodies; unlike the compact one it accepts needless trailing zero bytes. */
  function LooseFrom(b: Bytes, index: nat, power: nat, value: nat): (r: Option<Read<nat>>)
    ensures r.Some? ==> |r.value.rest| < |b|
    decreases |b|
  {
    if index >= 8 || b == [] then None
    else
      var next := value + Scaled(b[0] % 128, power);
      if next > MAX_SAFE_INTEGER then None
      else if b[0] < 128 then Some(Read(next, b[1..]))
      else LooseFrom(b[1..], index + 1, power * 128, next)
  }

  lemma {:induction false} LooseReadsMore(b: Bytes, index: nat, power: nat, value: nat)
    requires power > 0 && value <= MAX_SAFE_INTEGER && VarintFrom(b, index, power, value).Some?
    ensures LooseFrom(b, index, power, value) == VarintFrom(b, index, power, value)
    decreases |b|
  {
    hide Fits, Scaled;
    var chunk: nat := b[0] % 128;
    FitsMeans(chunk, power, value);
    if b[0] >= 128 {
      LooseReadsMore(b[1..], index + 1, power * 128, value + Scaled(chunk, power));
    }
  }

  function ReadInteger(b: Bytes): (r: Option<Read<nat>>)
    ensures r.Some? ==> |r.value.rest| < |b|
  {
    LooseFrom(b, 0, 1, 0)
  }

  lemma IntegerReads(n: nat, rest: Bytes)
    requires n <= MAX_SAFE_INTEGER
    ensures ReadInteger(Varint(n) + rest) == Some(Read(n, rest))
  {
    VarintReads(n, rest, 0, 1, 0);
    LooseReadsMore(Varint(n) + rest, 0, 1, 0);
  }

  function ReadNumbers(count: nat, b: Bytes): Option<Read<seq<nat>>> {
    if count == 0 then Some(Read([], b))
    else
      match ReadInteger(b)
      case None => None
      case Some(first) =>
        match ReadNumbers(count - 1, first.rest)
        case None => None
        case Some(more) => Some(Read([first.value] + more.value, more.rest))
  }

  function ReadTexts(count: nat, b: Bytes): Option<Read<seq<Text>>> {
    if count == 0 then Some(Read([], b))
    else
      match ReadHeaderText(b)
      case None => None
      case Some(first) =>
        match ReadTexts(count - 1, first.rest)
        case None => None
        case Some(more) => Some(Read([first.value] + more.value, more.rest))
  }

  function ReadHeaderText(b: Bytes): Option<Read<Text>> {
    match ReadInteger(b)
    case None => None
    case Some(length) =>
      if length.value > MAX_HEADER_TEXT || length.value > |length.rest| then None
      else
        match FromUtf8(length.rest[..length.value])
        case None => None
        case Some(s) => Some(Read(s, length.rest[length.value..]))
  }

  /** The header part of `decodeBinaryBody`, and the bytes after it. */
  function ReadHeader(b: Bytes): Option<Read<Header>> {
    var numbers := ReadNumbers(7, b);
    if numbers.None? then None
    else
      var texts := ReadTexts(5, numbers.value.rest);
      if texts.None? then None
      else
        var flag := ReadInteger(texts.value.rest);
        if flag.None? || flag.value.value > 3 then None
        else
          match ReadTexts(if flag.value.value % 2 == 1 then 2 else 0, flag.value.rest)
          case None => None
          case Some(receipt) =>
            Some(Read(Header(numbers.value.value, texts.value.value, PairOf(receipt.value), flag.value.value >= 2), receipt.rest))
  }

  function PairOf(ts: seq<Text>): Option<(Text, Text)> { if |ts| == 2 then Some((ts[0], ts[1])) else None }

  /** `decodeBinaryBody`: the payload follows the header or, in a message frame, is given separately. */
  function DecodeBody(b: Bytes, separate: Option<Bytes>, restore: Bytes -> Option<Bytes>): Option<Body> {
    match ReadHeader(b)
    case None => None
    case Some(h) =>
      if separate.Some? then
        if h.rest != [] || !h.value.opaque_ then None else Some(Body(h.value, separate.value))
      else if h.rest == [] then None
      else if h.value.opaque_ then Some(Body(h.value, h.rest))
      else
        match restore(h.rest)
        case None => None
        case Some(payload) => Some(Body(h.value, payload))
  }

  lemma {:induction false} NumbersRead(ns: seq<nat>, rest: Bytes)
    requires forall i :: 0 <= i < |ns| ==> ns[i] <= MAX_SAFE_INTEGER
    ensures ReadNumbers(|ns|, WriteNumbers(ns) + rest) == Some(Read(ns, rest))
    decreases |ns|
  {
    hide Varint, ReadInteger;
    if ns == [] {
      assert [] + rest == rest;
    } else {
      var more := WriteNumbers(ns[1..]);
      Joined(Varint(ns[0]), more, rest);
      IntegerReads(ns[0], more + rest);
      NumbersRead(ns[1..], rest);
      assert [ns[0]] + ns[1..] == ns;
    }
  }

  lemma {:induction false} TextsRead(ts: seq<Text>, rest: Bytes)
    requires WriteTexts(ts).Some?
    ensures ReadTexts(|ts|, WriteTexts(ts).value + rest) == Some(Read(ts, rest))
    decreases |ts|
  {
    hide Varint, ReadInteger, Utf8, FromUtf8;
    if ts == [] {
      assert [] + rest == rest;
    } else {
      var more := WriteTexts(ts[1..]).value;
      var bytes := Utf8(ts[0]);
      Joined(Varint(|bytes|) + bytes, more, rest);
      Joined(Varint(|bytes|), bytes, more + rest);
      IntegerReads(|bytes|, bytes + (more + rest));
      TakeDrop(bytes, more + rest);
      Utf8RoundTrip(ts[0]);
      TextsRead(ts[1..], rest);
      assert [ts[0]] + ts[1..] == ts;
    }
  }

  /** Every header that can be written is read back, and exactly the bytes after it are left. */
  lemma HeaderRoundTrip(h: Header, rest: Bytes)
    requires SevenAndFive(h) && EncodeHeader(h).Some?
    ensures ReadHeader(EncodeHeader(h).value + rest) == Some(Read(h, rest))
  {
    hide Varint, ReadInteger, ReadNumbers, ReadTexts, WriteNumbers, WriteTexts;
    var numbers, texts := WriteNumbers(h.numbers), WriteTexts(h.texts).value;
    var flag, receipt := Varint(Flag(h)), WriteTexts(ReceiptTexts(h)).value;
    Joined(numbers + texts + flag, receipt, rest);
    Joined(numbers + texts, flag, receipt + rest);
    Joined(numbers, texts, flag + (receipt + rest));
    NumbersRead(h.numbers, texts + (flag + (receipt + rest)));
    TextsRead(h.texts, flag + (receipt + rest));
    IntegerReads(Flag(h), receipt + rest);
    TextsRead(ReceiptTexts(h), rest);
  }

  /** A body written with its payload after the header, or beside it, is decoded to that header and payload. */
  lemma BodyRoundTrip(h: Header, payload: Bytes, encoded: Bytes, restore: Bytes -> Option<Bytes>)
    requires SevenAndFive(h) && EncodeHeader(h).Some? && encoded != []
    requires if h.opaque_ then encoded == payload else restore(encoded) == Some(payload)
    ensures DecodeBody(EncodeHeader(h).value + encoded, None, restore) == Some(Body(h, payload))
    ensures h.opaque_ ==> DecodeBody(EncodeHeader(h).value, Some(payload), restore) == Some(Body(h, payload))
  {
    hide EncodeHeader, ReadHeader;
    HeaderRoundTrip(h, encoded);
    HeaderRoundTrip(h, []);
    assert EncodeHeader(h).value + [] == EncodeHeader(h).value;
  }
}
