/** Integers, UUIDs and text tokens of the compact value format (compact-value.ts). */
module CompactTokens {
  import opened Wrappers
  import opened Json
  import opened TextEncoding

  const MAX_CANONICAL_BYTES: nat := 131_072
  const MAX_COMPACT_BYTES: nat := 524_288
  const MAX_DEPTH: nat := 64
  const MAX_NODES: nat := 65_536
  const MAX_STRING_BYTES: nat := 131_072
  const MAX_TABLE_ENTRIES: nat := 32

  // What was read and the bytes after it.
  datatype Read<+T> = Read(value: T, rest: Bytes)

  // ----- integers -------------------------------------------------------------------------------------

  /** `Writer.varint` */
  function Varint(n: nat): (b: Bytes)
    ensures b != []
  {
    if n < 128 then [n] else [n % 128 + 128] + Varint(n / 128)
  }

  function Scaled(chunk: nat, power: nat): nat { chunk * power }

  predicate Fits(chunk: nat, power: nat, value: nat)
    requires power > 0 && value <= MAX_SAFE_INTEGER
  {
    chunk <= (MAX_SAFE_INTEGER - value) / power
  }

  lemma ScaledGrows(a: nat, b: nat, power: nat)
    requires a <= b
    ensures Scaled(a, power) <= Scaled(b, power)
  {
  }

  /** The bound tested without overflow is the bound meant. */
  lemma FitsMeans(chunk: nat, power: nat, value: nat)
    requires power > 0 && value <= MAX_SAFE_INTEGER
    ensures Fits(chunk, power, value) <==> value + Scaled(chunk, power) <= MAX_SAFE_INTEGER
  {
    var room := MAX_SAFE_INTEGER - value;
    var q := room / power;
    assert q * power <= room < (q + 1) * power;
    if chunk <= q {
      ScaledGrows(chunk, q, power);
    } else {
      ScaledGrows(q + 1, chunk, power);
    }
  }

  /** `Reader.varint` from its byte `index` on; `power` is 128 to the `index`. */
  function VarintFrom(b: Bytes, index: nat, power: nat, value: nat): (r: Option<Read<nat>>)
    requires power > 0 && value <= MAX_SAFE_INTEGER
    ensures r.Some? ==> |r.value.rest| < |b| && r.value.value <= MAX_SAFE_INTEGER
    decreases |b|
  {
    if index >= 8 || b == [] then None
    else
      var chunk: nat := b[0] % 128;
      if !Fits(chunk, power, value) then None
      else
        FitsMeans(chunk, power, value);
        var next := value + Scaled(chunk, power);
        if b[0] < 128 then
          if index > 0 && chunk == 0 then None else Some(Read(next, b[1..]))
        else VarintFrom(b[1..], index + 1, power * 128, next)
  }

  function ReadVarint(b: Bytes, maximum: nat): (r: Option<Read<nat>>)
    ensures r.Some? ==> |r.value.rest| < |b| && r.value.value <= maximum
  {
    match VarintFrom(b, 0, 1, 0)
    case None => None
    case Some(r) => if r.value > maximum then None else Some(r)
  }

  function Power(n: nat): nat { if n == 0 then 1 else 128 * Power(n - 1) }

  lemma ScaledSplits(n: nat, power: nat)
    ensures Scaled(n, power) == Scaled(n % 128, power) + Scaled(n / 128, power * 128)
  {
    var low, high := n % 128, n / 128;
    assert n == 128 * high + low;
    assert n * power == 128 * high * power + low * power;
  }

  lemma {:induction false} VarintReads(n: nat, rest: Bytes, index: nat, power: nat, value: nat)
    requires power == Power(index) && power > 0 && value + Scaled(n, power) <= MAX_SAFE_INTEGER
    requires index > 0 ==> n > 0
    ensures VarintFrom(Varint(n) + rest, index, power, value) == Some(Read(value + Scaled(n, power), rest))
    decreases n
  {
    hide Fits, Scaled;
    var b := Varint(n) + rest;
    FewBytes(index, n, power);
    ScaledSplits(n, power);
    if n < 128 {
      assert b[0] == n && b[1..] == rest;
      FitsMeans(n, power, value);
    } else {
      var low, high := n % 128, n / 128;
      assert b[0] == low + 128 && b[1..] == Varint(high) + rest;
      FitsMeans(low, power, value);
      VarintReads(high, rest, index + 1, power * 128, value + Scaled(low, power));
    }
  }

  lemma {:induction false} VarintShort(n: nat, index: nat)
    requires n < Power(index) && index > 0
    ensures |Varint(n)| <= index
    decreases index
  {
    if n >= 128 {
      assert Power(index) == 128 * Power(index - 1);
      assert Power(0) == 1;
      VarintShort(n / 128, index - 1);
    }
  }

  /** A positive safe integer never needs a ninth byte. */
  lemma FewBytes(index: nat, n: nat, power: nat)
    requires power == Power(index) && Scaled(n, power) <= MAX_SAFE_INTEGER && (index > 0 ==> n > 0)
    ensures index < 8
  {
    assert Power(8) == 72_057_594_037_927_936;
    if n > 0 { ScaledGrows(1, n, power); }
    if index >= 8 { PowerGrows(8, index); }
  }

  lemma {:induction false} PowerGrows(a: nat, b: nat)
    requires a <= b
    ensures 0 < Power(a) <= Power(b)
  {
    if b > 0 {
      if a < b { PowerGrows(a, b - 1); } else { PowerGrows(a - 1, b - 1); }
    }
  }

  /** Every safe integer within the bound is read back, whatever follows it. */
  lemma VarintRoundTrip(n: nat, maximum: nat, rest: Bytes)
    requires n <= maximum && n <= MAX_SAFE_INTEGER
    ensures ReadVarint(Varint(n) + rest, maximum) == Some(Read(n, rest))
  {
    VarintReads(n, rest, 0, 1, 0);
  }

  lemma {:induction false} VarintCanonicalFrom(b: Bytes, index: nat, power: nat, value: nat) returns (n: nat)
    requires power > 0 && value <= MAX_SAFE_INTEGER && VarintFrom(b, index, power, value).Some?
    ensures var r := VarintFrom(b, index, power, value).value;
            r.value == value + Scaled(n, power) && b == Varint(n) + r.rest && (index > 0 ==> n > 0)
    decreases |b|
  {
    hide Fits, Scaled;
    var chunk: nat := b[0] % 128;
    FitsMeans(chunk, power, value);
    var r := VarintFrom(b, index, power, value).value;
    if b[0] < 128 {
      n := chunk;
      assert b == Varint(chunk) + r.rest;
    } else {
      var high := VarintCanonicalFrom(b[1..], index + 1, power * 128, value + Scaled(chunk, power));
      n := 128 * high + chunk;
      Digits128(high, chunk);
      ScaledSplits(n, power);
      VarintLonger(b, n, high, r.rest);
    }
  }

  lemma Digits128(high: nat, low: nat)
    requires low < 128
    ensures (128 * high + low) / 128 == high && (128 * high + low) % 128 == low
  {
  }

  lemma VarintLonger(b: Bytes, n: nat, high: nat, rest: Bytes)
    requires b != [] && b[0] >= 128 && n % 128 == b[0] % 128 && n / 128 == high > 0
    requires b[1..] == Varint(high) + rest
    ensures b == Varint(n) + rest
  {
    assert b == [b[0]] + b[1..];
    assert Varint(n) == [b[0]] + Varint(high);
  }

  /** Only the canonical bytes of an integer are accepted. */
  lemma VarintCanonical(b: Bytes, maximum: nat)
    requires ReadVarint(b, maximum).Some?
    ensures var r := ReadVarint(b, maximum).value; b == Varint(r.value) + r.rest
  {
    var n := VarintCanonicalFrom(b, 0, 1, 0);
  }

  // ----- UUIDs ----------------------------------------------------------------------------------------

  predicate IsHex(u: Unit) { 0x30 <= u <= 0x39 || 0x61 <= u <= 0x66 }

  function HexValue(u: Unit): (n: nat)
    requires IsHex(u)
    ensures n < 16 && HexDigit(n) == u
  {
    if u <= 0x39 then u - 0x30 else u - 0x57
  }

  predicate Dashed(s: Text) {
    |s| == 36 && forall i :: 0 <= i < 36 ==> if i in {8, 13, 18, 23} then s[i] == 0x2d else IsHex(s[i])
  }

  /** The position in a UUID of its i-th hexadecimal digit. */
  function HexAt(i: nat): nat { i + (if i < 8 then 0 else if i < 12 then 1 else if i < 16 then 2 else if i < 20 then 3 else 4) }

  /** `packUUID` */
  function PackUuid(s: Text): (b: Option<Bytes>)
    ensures b.Some? ==> |b.value| == 16
  {
    if !Dashed(s) then None
    else Some(seq(16, i requires 0 <= i < 16 => 16 * HexValue(s[HexAt(2 * i)]) + HexValue(s[HexAt(2 * i + 1)])))
  }

  /** The hexadecimal digit written at a position of a UUID that is not a dash. */
  function DigitAt(b: Bytes, i: nat): Unit
    requires |b| == 16 && i < 32
  {
    HexDigit(if i % 2 == 0 then b[i / 2] / 16 else b[i / 2] % 16)
  }

  /** The position among the hexadecimal digits of a position in a UUID that is not a dash. */
  function DigitIndex(i: nat): nat
    requires i < 36
  {
    i - (if i < 9 then 0 else if i < 14 then 1 else if i < 19 then 2 else if i < 24 then 3 else 4)
  }

  function UuidUnit(b: Bytes, i: nat): Unit
    requires |b| == 16 && i < 36
  {
    if i in {8, 13, 18, 23} then 0x2d else DigitAt(b, DigitIndex(i))
  }

  /** `uuidString` */
  function UuidString(b: Bytes): (s: Text)
    requires |b| == 16
    ensures |s| == 36
  {
    seq(36, i requires 0 <= i < 36 => UuidUnit(b, i))
  }

  lemma UuidRoundTrip(s: Text)
    requires PackUuid(s).Some?
    ensures UuidString(PackUuid(s).value) == s
  {
    hide DigitAt, PackUuid;
    Packable(s);
    var b := PackUuid(s).value;
    forall i | 0 <= i < 36 ensures UuidString(b)[i] == s[i] {
      if i !in {8, 13, 18, 23} {
        assert HexAt(DigitIndex(i)) == i;
        PackedDigit(s, DigitIndex(i));
      }
    }
  }

  lemma Packable(s: Text)
    ensures PackUuid(s).Some? <==> Dashed(s)
  {
  }

  lemma PackedDigit(s: Text, d: nat)
    requires Dashed(s) && d < 32
    ensures DigitAt(PackUuid(s).value, d) == s[HexAt(d)]
  {
    hide HexDigit;
    var b := PackUuid(s).value;
    var i := d / 2;
    var high, low := HexValue(s[HexAt(2 * i)]), HexValue(s[HexAt(2 * i + 1)]);
    assert b[i] == 16 * high + low;
    Nibbles(high, low);
    assert d == 2 * i || d == 2 * i + 1;
  }

  lemma Nibbles(high: nat, low: nat)
    requires low < 16
    ensures (16 * high + low) / 16 == high && (16 * high + low) % 16 == low
  {
  }

  // ----- text tokens ----------------------------------------------------------------------------------

  /** The pinned vocabularies for keys and for values, and the unseen JSON text of numbers. */
  datatype Codec = Codec(
    keys: seq<Text>,
    strings: seq<Text>,
    text: Number -> Bytes)

  function Vocabulary(c: Codec, key: bool): seq<Text> { if key then c.keys else c.strings }

  function UuidToken(c: Codec, key: bool): nat { |Vocabulary(c, key)| + MAX_TABLE_ENTRIES + 1 }

  /** Where a map from texts to their positions finds `s`: the last position, for one built from the whole list. */
  function IndexOf(list: seq<Text>, s: Text): (i: Option<nat>)
    ensures i.Some? ==> i.value < |list| && list[i.value] == s
    ensures i.None? <==> s !in list
  {
    if list == [] then None
    else if list[|list| - 1] == s then Some(|list| - 1)
    else IndexOf(list[..|list| - 1], s)
  }

  /** `TextTable.add` */
  function Added(table: seq<Text>, s: Text): seq<Text> {
    if s in table || |table| >= MAX_TABLE_ENTRIES then table else table + [s]
  }

  // The bytes of one text and the table after it.
  datatype Written = Written(bytes: Bytes, table: seq<Text>)

  /** `writeText` */
  function WriteText(c: Codec, s: Text, key: bool, table: seq<Text>): Option<Written> {
    var reference := IndexOf(table, s);
    var word := IndexOf(Vocabulary(c, key), s);
    var uuid := PackUuid(s);
    if reference.Some? then Some(Written(Varint(|Vocabulary(c, key)| + 1 + reference.value), table))
    else if word.Some? then Some(Written(Varint(word.value + 1), Added(table, s)))
    else if uuid.Some? then Some(Written(Varint(UuidToken(c, key)) + uuid.value, Added(table, s)))
    else if |Utf8(s)| > MAX_STRING_BYTES then None
    else Some(Written(Varint(0) + Varint(|Utf8(s)|) + Utf8(s), Added(table, s)))
  }

  datatype TextRead = TextRead(text: Text, table: seq<Text>, rest: Bytes)

  /** `readText` */
  function ReadText(c: Codec, b: Bytes, key: bool, table: seq<Text>): (r: Option<TextRead>)
    ensures r.Some? ==> |r.value.rest| < |b|
  {
    var token := ReadVarint(b, UuidToken(c, key));
    var words := Vocabulary(c, key);
    if token.None? then None
    else
      var Read(t, rest) := token.value;
      if t == 0 then ReadLiteral(rest, table)
      else if t <= |words| then Some(TextRead(words[t - 1], Added(table, words[t - 1]), rest))
      else if t < UuidToken(c, key) then
        if t - (|words| + 1) < |table| then Some(TextRead(table[t - (|words| + 1)], table, rest)) else None
      else if |rest| < 16 then None
      else Some(TextRead(UuidString(rest[..16]), Added(table, UuidString(rest[..16])), rest[16..]))
  }

  function ReadLiteral(b: Bytes, table: seq<Text>): (r: Option<TextRead>)
    ensures r.Some? ==> |r.value.rest| <= |b|
  {
    var length := ReadVarint(b, MAX_STRING_BYTES);
    if length.None? || |length.value.rest| < length.value.value then None
    else
      var n, rest := length.value.value, length.value.rest;
      match FromUtf8(rest[..n])
      case None => None
      case Some(s) => Some(TextRead(s, Added(table, s), rest[n..]))
  }

  /** The vocabularies are small enough for their tokens to be written. */
  predicate Pinned(c: Codec) { UuidToken(c, true) <= MAX_SAFE_INTEGER && UuidToken(c, false) <= MAX_SAFE_INTEGER }

  lemma TakeDrop(a: Bytes, b: Bytes)
    ensures (a + b)[..|a|] == a && (a + b)[|a|..] == b
  {
  }

  lemma Joined(a: Bytes, b: Bytes, c: Bytes)
    ensures (a + b) + c == a + (b + c)
  {
  }

  lemma LiteralReads(s: Text, table: seq<Text>, rest: Bytes)
    requires |Utf8(s)| <= MAX_STRING_BYTES
    ensures ReadLiteral(Varint(|Utf8(s)|) + Utf8(s) + rest, table) == Some(TextRead(s, Added(table, s), rest))
  {
    hide Varint, ReadVarint, FromUtf8, Utf8, Added;
    Joined(Varint(|Utf8(s)|), Utf8(s), rest);
    VarintRoundTrip(|Utf8(s)|, MAX_STRING_BYTES, Utf8(s) + rest);
    TakeDrop(Utf8(s), rest);
    Utf8RoundTrip(s);
  }

  /** Reader and writer agree on every text and, after it, on the table. */
  lemma TextRoundTrip(c: Codec, s: Text, key: bool, table: seq<Text>, rest: Bytes)
    requires Pinned(c) && |table| <= MAX_TABLE_ENTRIES && WriteText(c, s, key, table).Some?
    ensures var w := WriteText(c, s, key, table).value;
            ReadText(c, w.bytes + rest, key, table) == Some(TextRead(s, w.table, rest))
  {
    hide Varint, ReadVarint, PackUuid, UuidString, ReadLiteral, Utf8, Added;
    var words := Vocabulary(c, key);
    var reference := IndexOf(table, s);
    var word := IndexOf(words, s);
    if reference.Some? {
      VarintRoundTrip(|words| + 1 + reference.value, UuidToken(c, key), rest);
    } else if word.Some? {
      VarintRoundTrip(word.value + 1, UuidToken(c, key), rest);
    } else if PackUuid(s).Some? {
      var uuid := PackUuid(s).value;
      Joined(Varint(UuidToken(c, key)), uuid, rest);
      VarintRoundTrip(UuidToken(c, key), UuidToken(c, key), uuid + rest);
      TakeDrop(uuid, rest);
      UuidRoundTrip(s);
    } else {
      var n := Varint(|Utf8(s)|);
      Joined(Varint(0) + n, Utf8(s), rest);
      Joined(Varint(0), n, Utf8(s) + rest);
      Joined(n, Utf8(s), rest);
      VarintRoundTrip(0, UuidToken(c, key), n + Utf8(s) + rest);
      LiteralReads(s, table, rest);
    }
  }
}
