/** The compact form of JSON values, its reader, and the canonical byte budget (compact-value.ts). */
module CompactValue {
  import opened Wrappers
  import opened Doubles
  import opened Json
  import opened TextEncoding
  import opened CompactTokens

  const COMPACT_VALUE_VERSION: Byte := 1

  const TAG_NULL: Byte := 0
  const TAG_FALSE: Byte := 1
  const TAG_TRUE: Byte := 2
  const TAG_INTEGER_POSITIVE: Byte := 3
  const TAG_INTEGER_NEGATIVE: Byte := 4
  const TAG_FLOAT32: Byte := 5
  const TAG_FLOAT64: Byte := 6
  const TAG_STRING: Byte := 7
  const TAG_ARRAY: Byte := 8
  const TAG_OBJECT: Byte := 9

  // The nodes visited and the texts seen so far, the same for writer and reader.
  datatype Progress = Progress(count: nat, table: seq<Text>)

  datatype Output = Output(bytes: Bytes, progress: Progress)

  /** `visit` */
  function Visit(p: Progress, depth: nat): Option<Progress> {
    if depth > MAX_DEPTH || p.count + 1 > MAX_NODES then None else Some(p.(count := p.count + 1))
  }

  // ----- writing --------------------------------------------------------------------------------------

  /** `writeNumber` */
  function WriteNumber(n: Number): Bytes {
    match n
    case Whole(i) => if i < 0 then [TAG_INTEGER_NEGATIVE] + Varint(-i) else [TAG_INTEGER_POSITIVE] + Varint(i)
    case Fraction(f) =>
      match Narrowed(Split64(f))
      case Some(p) => [TAG_FLOAT32] + Little(Join32(p), 4)
      case None => [TAG_FLOAT64] + Little(f, 8)
  }

  /** `writeValue` */
  function WriteValue(c: Codec, v: Json, depth: nat, p: Progress): (o: Option<Output>)
    ensures o.Some? ==> p.count < o.value.progress.count <= MAX_NODES
    decreases v, 1, 0
  {
    match Visit(p, depth)
    case None => None
    case Some(q) =>
      match v
      case Null => Some(Output([TAG_NULL], q))
      case Bool(b) => Some(Output([if b then TAG_TRUE else TAG_FALSE], q))
      case Num(n) => Some(Output(WriteNumber(n), q))
      case Str(s) => Texted([TAG_STRING], WriteText(c, s, false, q.table), q.count)
      case Arr(items) => After([TAG_ARRAY] + Varint(|items|), WriteItems(c, v, 0, depth + 1, q))
      case Obj(fields) =>
        var keys := Ordered(false, fields.Keys);
        After([TAG_OBJECT] + Varint(|keys|), WriteFields(c, v, keys, depth + 1, q))
  }

  function Texted(before: Bytes, text: Option<Written>, count: nat): Option<Output> {
    if text.None? then None else Some(Output(before + text.value.bytes, Progress(count, text.value.table)))
  }

  function After(before: Bytes, o: Option<Output>): Option<Output> {
    if o.None? then None else Some(o.value.(bytes := before + o.value.bytes))
  }

  function WriteItems(c: Codec, v: Json, i: nat, depth: nat, p: Progress): (r: Option<Output>)
    requires v.Arr? && i <= |v.items|
    ensures r.Some? && p.count <= MAX_NODES ==> p.count + |v.items| - i <= r.value.progress.count <= MAX_NODES
    decreases v, 0, |v.items| - i
  {
    if i == |v.items| then Some(Output([], p))
    else
      match WriteValue(c, v.items[i], depth, p)
      case None => None
      case Some(o) => After(o.bytes, WriteItems(c, v, i + 1, depth, o.progress))
  }

  function WriteFields(c: Codec, v: Json, keys: seq<Text>, depth: nat, p: Progress): (r: Option<Output>)
    requires v.Obj? && forall k <- keys :: k in v.fields
    ensures r.Some? && p.count <= MAX_NODES ==> p.count + |keys| <= r.value.progress.count <= MAX_NODES
    decreases v, 0, |keys|
  {
    if keys == [] then Some(Output([], p))
    else
      match WriteField(c, v, keys[0], depth, p)
      case None => None
      case Some(o) => After(o.bytes, WriteFields(c, v, keys[1..], depth, o.progress))
  }

  function WriteField(c: Codec, v: Json, k: Text, depth: nat, p: Progress): (r: Option<Output>)
    requires v.Obj? && k in v.fields
    ensures r.Some? ==> p.count < r.value.progress.count <= MAX_NODES
    decreases v, 0, 0
  {
    match WriteText(c, k, true, p.table)
    case None => None
    case Some(t) => After(t.bytes, WriteValue(c, v.fields[k], depth, Progress(p.count, t.table)))
  }

  // ----- reading --------------------------------------------------------------------------------------

  // A value read, the bytes after it, and the progress and canonical bytes so far.
  datatype Parsed<+T> = Parsed(value: T, rest: Bytes, progress: Progress, total: nat)

  /** `CanonicalBudget.assertWithinBound`; without a limit everything is within it. */
  predicate InBudget(limit: Option<nat>, total: nat) { limit.Some? ==> total <= limit.value }

  function Scalar(limit: Option<nat>, v: Json, size: nat, rest: Bytes, p: Progress, total: nat): Option<Parsed<Json>> {
    if InBudget(limit, total + size) then Some(Parsed(v, rest, p, total + size)) else None
  }

  function ReadWhole(c: Codec, negative: bool, limit: Option<nat>, b: Bytes, p: Progress, total: nat):
    (r: Option<Parsed<Json>>)
    ensures r.Some? ==> |r.value.rest| < |b| && r.value.total >= total
  {
    match ReadVarint(b, MAX_SAFE_INTEGER)
    case None => None
    case Some(m) =>
      if negative && m.value == 0 then None
      else
        var magnitude: int := m.value;
        var n := Whole(if negative then -magnitude else magnitude);
        Scalar(limit, Num(n), |c.text(n)|, m.rest, p, total)
  }

  /** `float32` */
  function Float32At(b: Bytes): Option<Number>
    requires |b| == 4
  {
    LittleFits(b);
    NumberOf(Join64(Widened(Split32(FromLittle(b)))))
  }

  /** `float64` */
  function Float64At(b: Bytes): Option<Number>
    requires |b| == 8
  {
    LittleFits(b);
    NumberOf(FromLittle(b))
  }

  function ReadFloat(c: Codec, size: nat, limit: Option<nat>, b: Bytes, p: Progress, total: nat): (r: Option<Parsed<Json>>)
    requires size == 4 || size == 8
    ensures r.Some? ==> |r.value.rest| < |b| && r.value.total >= total
  {
    if |b| < size then None
    else
      match if size == 4 then Float32At(b[..4]) else Float64At(b[..8])
      case None => None
      case Some(n) => Scalar(limit, Num(n), |c.text(n)|, b[size..], p, total)
  }

  /** `readValue` */
  function ReadValue(c: Codec, b: Bytes, depth: nat, p: Progress, limit: Option<nat>, total: nat):
    (r: Option<Parsed<Json>>)
    ensures r.Some? ==> |r.value.rest| < |b| && r.value.total >= total
    decreases |b|, 1
  {
    match Visit(p, depth)
    case None => None
    case Some(q) =>
      if b == [] then None
      else
        var tag, rest := b[0], b[1..];
        if tag == TAG_NULL then Scalar(limit, Null, 4, rest, q, total)
        else if tag == TAG_FALSE then Scalar(limit, Bool(false), 5, rest, q, total)
        else if tag == TAG_TRUE then Scalar(limit, Bool(true), 4, rest, q, total)
        else if tag == TAG_INTEGER_POSITIVE then ReadWhole(c, false, limit, rest, q, total)
        else if tag == TAG_INTEGER_NEGATIVE then ReadWhole(c, true, limit, rest, q, total)
        else if tag == TAG_FLOAT32 then ReadFloat(c, 4, limit, rest, q, total)
        else if tag == TAG_FLOAT64 then ReadFloat(c, 8, limit, rest, q, total)
        else if tag == TAG_STRING then ReadString(c, rest, q, limit, total)
        else if tag == TAG_ARRAY then ReadArray(c, rest, depth, q, limit, total)
        else if tag == TAG_OBJECT then ReadObject(c, rest, depth, q, limit, total)
        else None
  }

  function ReadString(c: Codec, b: Bytes, p: Progress, limit: Option<nat>, total: nat): (r: Option<Parsed<Json>>)
    ensures r.Some? ==> |r.value.rest| < |b| && r.value.total >= total
  {
    match ReadText(c, b, false, p.table)
    case None => None
    case Some(t) => Scalar(limit, Str(t.text), |JsonString(t.text)|, t.rest, Progress(p.count, t.table), total)
  }

  function ReadArray(c: Codec, b: Bytes, depth: nat, p: Progress, limit: Option<nat>, total: nat):
    (r: Option<Parsed<Json>>)
    ensures r.Some? ==> |r.value.rest| < |b| && r.value.total >= total
    decreases |b|, 0
  {
    var count := ReadVarint(b, MAX_NODES);
    if !InBudget(limit, total + 1) || count.None? then None
    else
      match ReadItems(c, count.value.value, [], count.value.rest, depth + 1, p, limit, total + 1)
      case None => None
      case Some(r) => Scalar(limit, Arr(r.value), 1, r.rest, r.progress, r.total)
  }

  function ReadItems(c: Codec, n: nat, read: seq<Json>, b: Bytes, depth: nat, p: Progress, limit: Option<nat>, total: nat):
    (r: Option<Parsed<seq<Json>>>)
    requires |read| <= n
    ensures r.Some? ==> |r.value.rest| <= |b| && r.value.total >= total
    decreases |b|, 2, n - |read|
  {
    if |read| == n then Some(Parsed(read, b, p, total))
    else
      var before := total + (if read == [] then 0 else 1);
      if read != [] && !InBudget(limit, before) then None
      else
        match ReadValue(c, b, depth, p, limit, before)
        case None => None
        case Some(v) => ReadItems(c, n, read + [v.value], v.rest, depth, v.progress, limit, v.total)
  }

  function ReadObject(c: Codec, b: Bytes, depth: nat, p: Progress, limit: Option<nat>, total: nat):
    (r: Option<Parsed<Json>>)
    ensures r.Some? ==> |r.value.rest| < |b| && r.value.total >= total
    decreases |b|, 0
  {
    var count := ReadVarint(b, MAX_NODES);
    if !InBudget(limit, total + 1) || count.None? then None
    else
      match ReadFields(c, count.value.value, 0, map[], count.value.rest, depth + 1, p, limit, total + 1)
      case None => None
      case Some(r) => Scalar(limit, Obj(r.value), 1, r.rest, r.progress, r.total)
  }

  function ReadFields(c: Codec, n: nat, i: nat, read: map<Text, Json>, b: Bytes, depth: nat, p: Progress,
                      limit: Option<nat>, total: nat): (r: Option<Parsed<map<Text, Json>>>)
    requires i <= n
    ensures r.Some? ==> |r.value.rest| <= |b| && r.value.total >= total
    decreases |b|, 2, n - i
  {
    if i == n then Some(Parsed(read, b, p, total))
    else
      var before := total + (if i == 0 then 0 else 1);
      if i > 0 && !InBudget(limit, before) then None
      else
        match ReadField(c, read, b, depth, p, limit, before)
        case None => None
        case Some(f) => ReadFields(c, n, i + 1, f.value, f.rest, depth, f.progress, limit, f.total)
  }

  /** One key and its value, added to the fields read before. */
  function ReadField(c: Codec, read: map<Text, Json>, b: Bytes, depth: nat, p: Progress, limit: Option<nat>, total: nat):
    (r: Option<Parsed<map<Text, Json>>>)
    ensures r.Some? ==> |r.value.rest| < |b| && r.value.total >= total
    decreases |b|, 1
  {
    match ReadText(c, b, true, p.table)
    case None => None
    case Some(t) =>
      var after := total + |JsonString(t.text)| + 1;
      if !InBudget(limit, after) || t.text in read then None
      else
        match ReadValue(c, t.rest, depth, Progress(p.count, t.table), limit, after)
        case None => None
        case Some(v) => Some(Parsed(read[t.text := v.value], v.rest, v.progress, v.total))
  }

  // ----- canonical text -------------------------------------------------------------------------------

  /** The canonical JSON text of a value, in UTF-8 (canonical-json.ts). */
  function Canonical(c: Codec, v: Json): Bytes
    decreases v, 1, 0
  {
    match v
    case Null => [0x6e, 0x75, 0x6c, 0x6c]
    case Bool(b) => if b then [0x74, 0x72, 0x75, 0x65] else [0x66, 0x61, 0x6c, 0x73, 0x65]
    case Num(n) => c.text(n)
    case Str(s) => JsonString(s)
    case Arr(items) => [0x5b] + JoinItems(c, v, |items|) + [0x5d]
    case Obj(fields) => [0x7b] + JoinFields(c, v, Ordered(true, fields.Keys)) + [0x7d]
  }

  /** The first `n` items, separated by commas. */
  function JoinItems(c: Codec, v: Json, n: nat): Bytes
    requires v.Arr? && n <= |v.items|
    decreases v, 0, n
  {
    if n == 0 then []
    else JoinItems(c, v, n - 1) + (if n == 1 then [] else [0x2c]) + Canonical(c, v.items[n - 1])
  }

  /** The fields in the order of `keys`, separated by commas. */
  function JoinFields(c: Codec, v: Json, keys: seq<Text>): Bytes
    requires v.Obj? && forall k <- keys :: k in v.fields
    decreases v, 0, |keys|
  {
    if keys == [] then []
    else
      JsonString(keys[0]) + [0x3a] + Canonical(c, v.fields[keys[0]])
      + (if |keys| == 1 then [] else [0x2c]) + JoinFields(c, v, keys[1..])
  }

  // ----- the whole message ----------------------------------------------------------------------------

  /** `encodeCompactValue` for the value a payload parses to, if it does. */
  function EncodeCompact(c: Codec, payload: Bytes, parsed: Option<Json>): Option<Bytes> {
    if |payload| > MAX_CANONICAL_BYTES then None
    else if parsed.None? || Canonical(c, parsed.value) != payload then None
    else
      match WriteValue(c, parsed.value, 0, Progress(0, []))
      case None => None
      case Some(o) =>
        var bytes := [COMPACT_VALUE_VERSION] + o.bytes;
        if |bytes| > MAX_COMPACT_BYTES then None else Some(bytes)
  }

  /** `decodeCompactValue`; `None` stands for its exceptions. */
  function DecodeCompact(c: Codec, b: Bytes, limit: Option<nat>): Option<Json> {
    if |b| > MAX_COMPACT_BYTES || b == [] || b[0] != COMPACT_VALUE_VERSION then None
    else
      match ReadValue(c, b[1..], 0, Progress(0, []), limit, 0)
      case None => None
      case Some(r) => if r.rest == [] then Some(r.value) else None
  }
}
