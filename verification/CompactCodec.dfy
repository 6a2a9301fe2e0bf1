/** The compact value writer and reader as the objects that carry their state (compact-value.ts). */
module CompactCodec {
  import opened Wrappers
  import opened Doubles
  import opened Json
  import opened TextEncoding
  import opened CompactTokens
  import opened CompactValue

  class NodeState {
    var count: nat

    constructor ()
      ensures count == 0
    {
      count := 0;
    }
  }

  class CanonicalBudget {
    var total: nat

    constructor ()
      ensures total == 0
    {
      total := 0;
    }

    /** `bytes`: false stands for the exception. */
    method Spend(size: nat) returns (ok: bool)
      modifies this
      ensures total == old(total) + size && ok == InBudget(Some(MAX_CANONICAL_BYTES), total)
    {
      total := total + size;
      ok := total <= MAX_CANONICAL_BYTES;
    }

    /** `string` */
    method SpendString(s: Text) returns (ok: bool)
      modifies this
      ensures total == old(total) + |JsonString(s)| && ok == InBudget(Some(MAX_CANONICAL_BYTES), total)
    {
      var size := CanonicalJSONStringBytes(s);
      ok := Spend(size);
    }
  }

  class TextTable {
    var values: seq<Text>
    var indexes: map<Text, nat>

    ghost predicate Valid()
      reads this
    {
      && |values| <= MAX_TABLE_ENTRIES && (forall s :: s in indexes <==> s in values)
      && forall i :: 0 <= i < |values| ==> indexes[values[i]] == i
    }

    constructor ()
      ensures Valid() && values == []
    {
      values, indexes := [], map[];
    }

    /** `index` */
    method Index(s: Text) returns (i: Option<nat>)
      requires Valid()
      ensures i == IndexOf(values, s)
    {
      if s in indexes { return Some(indexes[s]); }
      return None;
    }

    /** `add` */
    method Add(s: Text)
      requires Valid()
      modifies this
      ensures Valid() && values == Added(old(values), s)
    {
      if s in indexes || |values| >= MAX_TABLE_ENTRIES { return; }
      indexes := indexes[s := |values|];
      values := values + [s];
    }
  }

  class Writer {
    var output: Bytes

    ghost predicate Valid()
      reads this
    {
      |output| <= MAX_COMPACT_BYTES
    }

    constructor ()
      ensures output == []
    {
      output := [];
    }

    /** `byte` */
    method PutByte(b: Byte) returns (ok: bool)
      requires Valid()
      modifies this
      ensures Valid() && ok == (|old(output)| + 1 <= MAX_COMPACT_BYTES) && (ok ==> output == old(output) + [b])
    {
      ok := |output| + 1 <= MAX_COMPACT_BYTES;
      if ok { output := output + [b]; }
    }

    /** `bytes` */
    method PutBytes(b: Bytes) returns (ok: bool)
      requires Valid()
      modifies this
      ensures Valid() && ok == (|old(output)| + |b| <= MAX_COMPACT_BYTES) && (ok ==> output == old(output) + b)
    {
      ok := |output| + |b| <= MAX_COMPACT_BYTES;
      if ok { output := output + b; }
    }

    /** `varint` */
    method PutVarint(n: nat) returns (ok: bool)
      requires Valid()
      modifies this
      ensures Valid() && ok == (|old(output)| + |Varint(n)| <= MAX_COMPACT_BYTES)
      ensures ok ==> output == old(output) + Varint(n)
    {
      var value, more := n, true;
      ghost var whole := output + Varint(n);
      while more
        invariant Valid() && (if more then output + Varint(value) == whole else output == whole)
        decreases if more then value + 1 else 0
      {
        var remainder := value % 128;
        value := value / 128;
        ghost var before := output;
        ok := PutByte(if value > 0 then remainder + 128 else remainder);
        if !ok { return; }
        if value > 0 {
          assert before + ([remainder + 128] + Varint(value)) == output + Varint(value);
        }
        more := value > 0;
      }
      ok := true;
    }
  }

  class Reader {
    const input: Bytes
    var position: nat

    ghost predicate Valid()
      reads this
    {
      position <= |input|
    }

    ghost function Rest(): Bytes
      requires Valid()
      reads this
    {
      input[position..]
    }

    constructor (input: Bytes)
      ensures Valid() && this.input == input && Rest() == input
    {
      this.input := input;
      position := 0;
    }

    /** `byte`; `None` stands for the exception. */
    method TakeByte() returns (b: Option<Byte>)
      requires Valid()
      modifies `position
      ensures Valid() && b.Some? == (old(Rest()) != [])
      ensures b.Some? ==> b.value == old(Rest())[0] && Rest() == old(Rest())[1..]
    {
      if position == |input| { return None; }
      b := Some(input[position]);
      position := position + 1;
    }

    /** `bytes` */
    method TakeBytes(n: nat) returns (b: Option<Bytes>)
      requires Valid()
      modifies `position
      ensures Valid() && b.Some? == (n <= |old(Rest())|)
      ensures b.Some? ==> b.value == old(Rest())[..n] && Rest() == old(Rest())[n..]
    {
      if position + n > |input| { return None; }
      b := Some(input[position..position + n]);
      position := position + n;
    }

    /** `varint` */
    method TakeVarint(maximum: nat) returns (r: Option<nat>)
      requires Valid()
      modifies `position
      ensures Valid()
      ensures match ReadVarint(old(Rest()), maximum)
              case None => r == None
              case Some(v) => r == Some(v.value) && Rest() == v.rest
    {
      hide Fits, Scaled;
      var value: nat, power: nat := 0, 1;
      for index := 0 to 8
        invariant Valid() && power > 0 && value <= MAX_SAFE_INTEGER
        invariant VarintFrom(old(Rest()), 0, 1, 0) == VarintFrom(Rest(), index, power, value)
      {
        var byte := TakeByte();
        if byte.None? { return None; }
        var chunk: nat := byte.value % 128;
        if !Fits(chunk, power, value) { return None; }
        FitsMeans(chunk, power, value);
        value := value + Scaled(chunk, power);
        if byte.value < 128 {
          if index > 0 && chunk == 0 { return None; }
          if value > maximum { return None; }
          return Some(value);
        }
        power := power * 128;
      }
      return None;
    }
  }

  // ----- writing --------------------------------------------------------------------------------------

  /** The output of the specification fits after what has been written. */
  ghost predicate Room(bytes: Bytes, written: Bytes) { |written| + |bytes| <= MAX_COMPACT_BYTES }

  method WriteText(c: Codec, writer: Writer, s: Text, key: bool, table: TextTable) returns (ok: bool)
    requires writer.Valid() && table.Valid()
    modifies writer, table
    ensures writer.Valid() && table.Valid()
    ensures var w := CompactTokens.WriteText(c, s, key, old(table.values));
            && (ok <==> w.Some? && Room(w.value.bytes, old(writer.output)))
            && (ok ==> writer.output == old(writer.output) + w.value.bytes && table.values == w.value.table)
  {
    hide Varint, PackUuid, Utf8, Added;
    var reference := table.Index(s);
    if reference.Some? {
      ok := writer.PutVarint(|Vocabulary(c, key)| + 1 + reference.value);
      return;
    }
    var word := IndexOf(Vocabulary(c, key), s);
    if word.Some? {
      ok := writer.PutVarint(word.value + 1);
      table.Add(s);
      return;
    }
    var uuid := PackUuid(s);
    if uuid.Some? {
      ok := writer.PutVarint(UuidToken(c, key));
      if ok { ok := writer.PutBytes(uuid.value); }
      table.Add(s);
      return;
    }
    var encoded := EncodeBinaryUtf8(s);
    if |encoded| > MAX_STRING_BYTES { return false; }
    ok := writer.PutVarint(0);
    if ok { ok := writer.PutVarint(|encoded|); }
    if ok { ok := writer.PutBytes(encoded); }
    table.Add(s);
  }

  method WriteNumber(writer: Writer, n: Number) returns (ok: bool)
    requires writer.Valid()
    modifies writer
    ensures writer.Valid()
    ensures var b := CompactValue.WriteNumber(n);
            && (ok <==> Room(b, old(writer.output)))
            && (ok ==> writer.output == old(writer.output) + b)
  {
    hide Varint, Narrowed, Little, Join32, Finite64, SafeValue;
    match n {
      case Whole(i) =>
        if i < 0 {
          ok := writer.PutByte(TAG_INTEGER_NEGATIVE);
          if ok { ok := writer.PutVarint(-i); }
        } else {
          ok := writer.PutByte(TAG_INTEGER_POSITIVE);
          if ok { ok := writer.PutVarint(i); }
        }
      case Fraction(f) =>
        var narrow := Narrowed(Split64(f));
        if narrow.Some? {
          ok := writer.PutByte(TAG_FLOAT32);
          if ok { ok := writer.PutBytes(Little(Join32(narrow.value), 4)); }
        } else {
          ok := writer.PutByte(TAG_FLOAT64);
          if ok { ok := writer.PutBytes(Little(f, 8)); }
        }
    }
  }

  /** What a writing method has done, against its specification. */
  ghost predicate Wrote(ok: bool, o: Option<Output>, before: Bytes, output: Bytes, p: Progress) {
    && (ok <==> o.Some? && Room(o.value.bytes, before))
    && (ok ==> output == before + o.value.bytes && p == o.value.progress)
  }

  lemma AfterAfter(a: Bytes, b: Bytes, o: Option<Output>)
    ensures After(a, After(b, o)) == After(a + b, o)
  {
    if o.Some? {
      assert a + (b + o.value.bytes) == a + b + o.value.bytes;
    }
  }

  lemma AfterNothing(o: Option<Output>)
    ensures After([], o) == o
  {
    if o.Some? {
      assert [] + o.value.bytes == o.value.bytes;
    }
  }

  lemma FieldsUnfold(c: Codec, v: Json, keys: seq<Text>, i: nat, depth: nat, p: Progress)
    requires v.Obj? && i < |keys| && forall k <- keys :: k in v.fields
    ensures WriteFields(c, v, keys[i..], depth, p) ==
            match WriteField(c, v, keys[i], depth, p)
            case None => None
            case Some(o) => After(o.bytes, WriteFields(c, v, keys[i + 1..], depth, o.progress))
  {
    assert keys[i..][1..] == keys[i + 1..] && keys[i..][0] == keys[i];
  }

  lemma FieldsDone(c: Codec, v: Json, keys: seq<Text>, depth: nat, p: Progress)
    requires v.Obj?
    ensures WriteFields(c, v, keys[|keys|..], depth, p) == Some(Output([], p))
  {
  }

  /** `writeValue` */
  method WriteValue(c: Codec, writer: Writer, v: Json, depth: nat, state: NodeState, table: TextTable) returns (ok: bool)
    requires writer.Valid() && table.Valid()
    modifies writer, state, table
    ensures writer.Valid() && table.Valid()
    ensures Wrote(ok, CompactValue.WriteValue(c, v, depth, Progress(old(state.count), old(table.values))),
                  old(writer.output), writer.output, Progress(state.count, table.values))
    decreases v, 1, 0
  {
    hide Varint, WriteItems, WriteFields, CompactTokens.WriteText, CompactValue.WriteNumber;
    if depth > MAX_DEPTH { return false; }
    state.count := state.count + 1;
    if state.count > MAX_NODES { return false; }
    match v {
      case Null => ok := writer.PutByte(TAG_NULL);
      case Bool(b) => ok := writer.PutByte(if b then TAG_TRUE else TAG_FALSE);
      case Num(n) => ok := WriteNumber(writer, n);
      case Str(s) => ok := WriteString(c, writer, s, table);
      case Arr(_) => ok := WriteArray(c, writer, v, depth, state, table);
      case Obj(_) => ok := WriteObject(c, writer, v, depth, state, table);
    }
  }

  method WriteString(c: Codec, writer: Writer, s: Text, table: TextTable) returns (ok: bool)
    requires writer.Valid() && table.Valid()
    modifies writer, table
    ensures writer.Valid() && table.Valid()
    ensures Wrote(ok, Texted([TAG_STRING], CompactTokens.WriteText(c, s, false, old(table.values)), 0),
                  old(writer.output), writer.output, Progress(0, table.values))
  {
    hide CompactTokens.WriteText;
    ok := writer.PutByte(TAG_STRING);
    if ok { ok := WriteText(c, writer, s, false, table); }
  }

  method WriteArray(c: Codec, writer: Writer, v: Json, depth: nat, state: NodeState, table: TextTable)
    returns (ok: bool)
    requires writer.Valid() && table.Valid() && v.Arr?
    modifies writer, state, table
    ensures writer.Valid() && table.Valid()
    ensures Wrote(ok, After([TAG_ARRAY] + Varint(|v.items|),
                            WriteItems(c, v, 0, depth + 1, Progress(old(state.count), old(table.values)))),
                  old(writer.output), writer.output, Progress(state.count, table.values))
    decreases v, 0, 2
  {
    hide Varint, WriteItems;
    ok := writer.PutByte(TAG_ARRAY);
    if ok { ok := writer.PutVarint(|v.items|); }
    if ok { ok := WriteItemsOf(c, writer, v, depth + 1, state, table); }
  }

  method WriteObject(c: Codec, writer: Writer, v: Json, depth: nat, state: NodeState, table: TextTable)
    returns (ok: bool)
    requires writer.Valid() && table.Valid() && v.Obj?
    modifies writer, state, table
    ensures writer.Valid() && table.Valid()
    ensures var keys := Ordered(false, v.fields.Keys);
            Wrote(ok, After([TAG_OBJECT] + Varint(|keys|),
                            WriteFields(c, v, keys, depth + 1, Progress(old(state.count), old(table.values)))),
                  old(writer.output), writer.output, Progress(state.count, table.values))
    decreases v, 0, 2
  {
    hide Varint, WriteFields;
    ok := writer.PutByte(TAG_OBJECT);
    if ok { ok := writer.PutVarint(|Ordered(false, v.fields.Keys)|); }
    if ok { ok := WriteFieldsOf(c, writer, v, depth + 1, state, table); }
  }

  method WriteItemsOf(c: Codec, writer: Writer, v: Json, depth: nat, state: NodeState, table: TextTable)
    returns (ok: bool)
    requires writer.Valid() && table.Valid() && v.Arr?
    modifies writer, state, table
    ensures writer.Valid() && table.Valid()
    ensures Wrote(ok, WriteItems(c, v, 0, depth, Progress(old(state.count), old(table.values))),
                  old(writer.output), writer.output, Progress(state.count, table.values))
    decreases v, 0, 0
  {
    hide CompactValue.WriteValue;
    ghost var whole := WriteItems(c, v, 0, depth, Progress(state.count, table.values));
    ghost var before, part: Bytes := writer.output, [];
    AfterNothing(whole);
    assert before + [] == before;
    for i := 0 to |v.items|
      invariant writer.Valid() && table.Valid() && writer.output == before + part
      invariant whole == After(part, WriteItems(c, v, i, depth, Progress(state.count, table.values)))
    {
      ghost var o := CompactValue.WriteValue(c, v.items[i], depth, Progress(state.count, table.values));
      ok := WriteValue(c, writer, v.items[i], depth, state, table);
      if !ok { return; }
      AfterAfter(part, o.value.bytes, WriteItems(c, v, i + 1, depth, o.value.progress));
      part := part + o.value.bytes;
    }
    ok := true;
  }

  method WriteFieldsOf(c: Codec, writer: Writer, v: Json, depth: nat, state: NodeState, table: TextTable)
    returns (ok: bool)
    requires writer.Valid() && table.Valid() && v.Obj?
    modifies writer, state, table
    ensures writer.Valid() && table.Valid()
    ensures Wrote(ok, WriteFields(c, v, Ordered(false, v.fields.Keys), depth, Progress(old(state.count), old(table.values))),
                  old(writer.output), writer.output, Progress(state.count, table.values))
    decreases v, 0, 1
  {
    hide WriteField, WriteFields, Ordered;
    var keys := Ordered(false, v.fields.Keys);
    ghost var whole := WriteFields(c, v, keys, depth, Progress(state.count, table.values));
    ghost var before, part: Bytes := writer.output, [];
    AfterNothing(whole);
    assert before + [] == before && keys[0..] == keys;
    for i := 0 to |keys|
      invariant writer.Valid() && table.Valid() && writer.output == before + part
      invariant whole == After(part, WriteFields(c, v, keys[i..], depth, Progress(state.count, table.values)))
    {
      FieldsUnfold(c, v, keys, i, depth, Progress(state.count, table.values));
      ghost var o := WriteField(c, v, keys[i], depth, Progress(state.count, table.values));
      ok := WriteOneField(c, writer, v, keys[i], depth, state, table);
      if !ok { return; }
      AfterAfter(part, o.value.bytes, WriteFields(c, v, keys[i + 1..], depth, o.value.progress));
      part := part + o.value.bytes;
    }
    FieldsDone(c, v, keys, depth, Progress(state.count, table.values));
    ok := true;
  }

  method WriteOneField(c: Codec, writer: Writer, v: Json, k: Text, depth: nat, state: NodeState, table: TextTable)
    returns (ok: bool)
    requires writer.Valid() && table.Valid() && v.Obj? && k in v.fields
    modifies writer, state, table
    ensures writer.Valid() && table.Valid()
    ensures Wrote(ok, WriteField(c, v, k, depth, Progress(old(state.count), old(table.values))),
                  old(writer.output), writer.output, Progress(state.count, table.values))
    decreases v, 0, 0
  {
    hide CompactValue.WriteValue, CompactTokens.WriteText;
    ok := WriteText(c, writer, k, true, table);
    if ok { ok := WriteValue(c, writer, v.fields[k], depth, state, table); }
  }

  /** `encodeCompactValue` */
  method EncodeCompactValue(c: Codec, payload: Bytes, parsed: Option<Json>) returns (r: Option<Bytes>)
    ensures r == EncodeCompact(c, payload, parsed)
  {
    hide CompactValue.WriteValue, Canonical;
    if |payload| > MAX_CANONICAL_BYTES { return None; }
    if parsed.None? || Canonical(c, parsed.value) != payload { return None; }
    var writer := new Writer();
    var state := new NodeState();
    var table := new TextTable();
    var ok := writer.PutByte(COMPACT_VALUE_VERSION);
    assert writer.output == [COMPACT_VALUE_VERSION];
    ok := WriteValue(c, writer, parsed.value, 0, state, table);
    if !ok { return None; }
    return Some(writer.output);
  }

  // ----- reading --------------------------------------------------------------------------------------

  const BUDGET: Option<nat> := Some(MAX_CANONICAL_BYTES)

  method ReadLiteral(reader: Reader, table: TextTable) returns (r: Option<Text>)
    requires reader.Valid() && table.Valid()
    modifies reader`position, table
    ensures reader.Valid() && table.Valid()
    ensures match CompactTokens.ReadLiteral(old(reader.Rest()), old(table.values))
            case None => r == None
            case Some(t) => r == Some(t.text) && reader.Rest() == t.rest && table.values == t.table
  {
    hide ReadVarint, FromUtf8, Added;
    var length := reader.TakeVarint(MAX_STRING_BYTES);
    if length.None? { return None; }
    var bytes := reader.TakeBytes(length.value);
    if bytes.None? { return None; }
    r := DecodeBinaryUtf8(bytes.value);
    if r.Some? { table.Add(r.value); }
  }

  /** `readText` */
  method ReadText(c: Codec, reader: Reader, key: bool, table: TextTable) returns (r: Option<Text>)
    requires reader.Valid() && table.Valid()
    modifies reader`position, table
    ensures reader.Valid() && table.Valid()
    ensures match CompactTokens.ReadText(c, old(reader.Rest()), key, old(table.values))
            case None => r == None
            case Some(t) => r == Some(t.text) && reader.Rest() == t.rest && table.values == t.table
  {
    hide ReadVarint, CompactTokens.ReadLiteral, Added, UuidString;
    var token := reader.TakeVarint(UuidToken(c, key));
    if token.None? { return None; }
    var t := token.value;
    if t == 0 {
      r := ReadLiteral(reader, table);
      return;
    }
    var words := Vocabulary(c, key);
    if t <= |words| {
      table.Add(words[t - 1]);
      return Some(words[t - 1]);
    }
    if t < UuidToken(c, key) {
      var i := t - (|words| + 1);
      return if i < |table.values| then Some(table.values[i]) else None;
    }
    var bytes := reader.TakeBytes(16);
    if bytes.None? { return None; }
    table.Add(UuidString(bytes.value));
    return Some(UuidString(bytes.value));
  }

  /** What a reading method has done, against its specification. */
  ghost predicate Took<T>(r: Option<T>, s: Option<Parsed<T>>, rest: Bytes, p: Progress, total: nat) {
    if s.None? then r == None
    else r == Some(s.value.value) && s.value == Parsed(s.value.value, rest, p, total)
  }

  method ReadNumber(c: Codec, reader: Reader, tag: Byte, budget: CanonicalBudget, ghost p: Progress)
    returns (r: Option<Json>)
    requires reader.Valid() && TAG_INTEGER_POSITIVE <= tag <= TAG_FLOAT64
    modifies reader`position, budget
    ensures reader.Valid()
    ensures Took(r,
                 if tag <= TAG_INTEGER_NEGATIVE then
                   ReadWhole(c, tag == TAG_INTEGER_NEGATIVE, BUDGET, old(reader.Rest()), p, old(budget.total))
                 else ReadFloat(c, if tag == TAG_FLOAT32 then 4 else 8, BUDGET, old(reader.Rest()), p, old(budget.total)),
                 reader.Rest(), p, budget.total)
  {
    hide ReadVarint;
    var n;
    if tag <= TAG_INTEGER_NEGATIVE {
      var magnitude := reader.TakeVarint(MAX_SAFE_INTEGER);
      if magnitude.None? || (tag == TAG_INTEGER_NEGATIVE && magnitude.value == 0) { return None; }
      var m: int := magnitude.value;
      n := Whole(if tag == TAG_INTEGER_NEGATIVE then -m else m);
    } else {
      var bytes := reader.TakeBytes(if tag == TAG_FLOAT32 then 4 else 8);
      if bytes.None? { return None; }
      var number := if tag == TAG_FLOAT32 then Float32At(bytes.value) else Float64At(bytes.value);
      if number.None? { return None; }
      n := number.value;
    }
    var ok := budget.Spend(|c.text(n)|);
    return if ok then Some(Num(n)) else None;
  }

  /** `readValue` */
  method ReadValue(c: Codec, reader: Reader, depth: nat, state: NodeState, table: TextTable, budget: CanonicalBudget)
    returns (r: Option<Json>)
    requires reader.Valid() && table.Valid()
    modifies reader`position, state, table, budget
    ensures reader.Valid() && table.Valid()
    ensures Took(r, CompactValue.ReadValue(c, old(reader.Rest()), depth, Progress(old(state.count), old(table.values)),
                                           BUDGET, old(budget.total)),
                 reader.Rest(), Progress(state.count, table.values), budget.total)
    ensures r.Some? ==> |reader.Rest()| < |old(reader.Rest())|
    decreases |reader.Rest()|, 1
  {
    hide CompactTokens.ReadText, ReadWhole, ReadFloat, CompactValue.ReadArray, CompactValue.ReadObject, JsonString;
    if depth > MAX_DEPTH { return None; }
    state.count := state.count + 1;
    if state.count > MAX_NODES { return None; }
    var tag := reader.TakeByte();
    if tag.None? { return None; }
    if tag.value == TAG_NULL || tag.value == TAG_FALSE || tag.value == TAG_TRUE {
      r := ReadConstant(tag.value, budget);
    } else if TAG_INTEGER_POSITIVE <= tag.value <= TAG_FLOAT64 {
      r := ReadNumber(c, reader, tag.value, budget, Progress(state.count, table.values));
    } else if tag.value == TAG_STRING {
      r := ReadStringValue(c, reader, state, table, budget);
    } else if tag.value == TAG_ARRAY {
      r := ReadArrayValue(c, reader, depth, state, table, budget);
    } else if tag.value == TAG_OBJECT {
      r := ReadObjectValue(c, reader, depth, state, table, budget);
    } else {
      r := None;
    }
  }

  method ReadConstant(tag: Byte, budget: CanonicalBudget) returns (r: Option<Json>)
    requires tag == TAG_NULL || tag == TAG_FALSE || tag == TAG_TRUE
    modifies budget
    ensures budget.total == old(budget.total) + (if tag == TAG_FALSE then 5 else 4)
    ensures r == if InBudget(BUDGET, budget.total)
                 then Some(if tag == TAG_NULL then Null else Bool(tag == TAG_TRUE)) else None
  {
    var ok := budget.Spend(if tag == TAG_FALSE then 5 else 4);
    if !ok { return None; }
    return Some(if tag == TAG_NULL then Null else Bool(tag == TAG_TRUE));
  }

  method ReadStringValue(c: Codec, reader: Reader, state: NodeState, table: TextTable, budget: CanonicalBudget)
    returns (r: Option<Json>)
    requires reader.Valid() && table.Valid()
    modifies reader`position, table, budget
    ensures reader.Valid() && table.Valid()
    ensures Took(r, ReadString(c, old(reader.Rest()), Progress(state.count, old(table.values)), BUDGET,
                               old(budget.total)),
                 reader.Rest(), Progress(state.count, table.values), budget.total)
  {
    hide CompactTokens.ReadText, JsonString;
    var s := ReadText(c, reader, false, table);
    if s.None? { return None; }
    var ok := budget.SpendString(s.value);
    return if ok then Some(Str(s.value)) else None;
  }

  method ReadArrayValue(c: Codec, reader: Reader, depth: nat, state: NodeState, table: TextTable,
                        budget: CanonicalBudget) returns (r: Option<Json>)
    requires reader.Valid() && table.Valid()
    modifies reader`position, state, table, budget
    ensures reader.Valid() && table.Valid()
    ensures Took(r, ReadArray(c, old(reader.Rest()), depth, Progress(old(state.count), old(table.values)), BUDGET,
                              old(budget.total)),
                 reader.Rest(), Progress(state.count, table.values), budget.total)
    decreases |reader.Rest()|, 3
  {
    hide ReadVarint, ReadItems;
    var ok := budget.Spend(1);
    if !ok { return None; }
    var count := reader.TakeVarint(MAX_NODES);
    if count.None? { return None; }
    var items := ReadItemsOf(c, reader, count.value, depth + 1, state, table, budget);
    if items.None? { return None; }
    ok := budget.Spend(1);
    return if ok then Some(Arr(items.value)) else None;
  }

  method ReadItemsOf(c: Codec, reader: Reader, n: nat, depth: nat, state: NodeState, table: TextTable,
                     budget: CanonicalBudget) returns (r: Option<seq<Json>>)
    requires reader.Valid() && table.Valid()
    modifies reader`position, state, table, budget
    ensures reader.Valid() && table.Valid()
    ensures Took(r, ReadItems(c, n, [], old(reader.Rest()), depth, Progress(old(state.count), old(table.values)), BUDGET,
                              old(budget.total)),
                 reader.Rest(), Progress(state.count, table.values), budget.total)
    decreases |reader.Rest()|, 2
  {
    hide CompactValue.ReadValue;
    var value := [];
    ghost var whole := ReadItems(c, n, [], reader.Rest(), depth, Progress(state.count, table.values), BUDGET, budget.total);
    while |value| < n
      invariant |value| <= n && reader.Valid() && table.Valid() && |reader.Rest()| <= |old(reader.Rest())|
      invariant whole == ReadItems(c, n, value, reader.Rest(), depth, Progress(state.count, table.values), BUDGET,
                                   budget.total)
      decreases n - |value|
    {
      if |value| > 0 {
        var ok := budget.Spend(1);
        if !ok { return None; }
      }
      var v := ReadValue(c, reader, depth, state, table, budget);
      if v.None? { return None; }
      value := value + [v.value];
    }
    return Some(value);
  }

  method ReadObjectValue(c: Codec, reader: Reader, depth: nat, state: NodeState, table: TextTable,
                         budget: CanonicalBudget) returns (r: Option<Json>)
    requires reader.Valid() && table.Valid()
    modifies reader`position, state, table, budget
    ensures reader.Valid() && table.Valid()
    ensures Took(r, ReadObject(c, old(reader.Rest()), depth, Progress(old(state.count), old(table.values)), BUDGET,
                               old(budget.total)),
                 reader.Rest(), Progress(state.count, table.values), budget.total)
    decreases |reader.Rest()|, 3
  {
    hide ReadVarint, ReadFields;
    var ok := budget.Spend(1);
    if !ok { return None; }
    var count := reader.TakeVarint(MAX_NODES);
    if count.None? { return None; }
    var fields := ReadFieldsOf(c, reader, count.value, depth + 1, state, table, budget);
    if fields.None? { return None; }
    ok := budget.Spend(1);
    return if ok then Some(Obj(fields.value)) else None;
  }

  method ReadFieldsOf(c: Codec, reader: Reader, n: nat, depth: nat, state: NodeState, table: TextTable,
                      budget: CanonicalBudget) returns (r: Option<map<Text, Json>>)
    requires reader.Valid() && table.Valid()
    modifies reader`position, state, table, budget
    ensures reader.Valid() && table.Valid()
    ensures Took(r, ReadFields(c, n, 0, map[], old(reader.Rest()), depth, Progress(old(state.count), old(table.values)),
                               BUDGET, old(budget.total)),
                 reader.Rest(), Progress(state.count, table.values), budget.total)
    decreases |reader.Rest()|, 2
  {
    hide ReadField;
    var value: map<Text, Json> := map[];
    ghost var whole :=
      ReadFields(c, n, 0, map[], reader.Rest(), depth, Progress(state.count, table.values), BUDGET, budget.total);
    for i := 0 to n
      invariant reader.Valid() && table.Valid() && |reader.Rest()| <= |old(reader.Rest())|
      invariant whole == ReadFields(c, n, i, value, reader.Rest(), depth, Progress(state.count, table.values), BUDGET,
                                    budget.total)
    {
      if i > 0 {
        var ok := budget.Spend(1);
        if !ok { return None; }
      }
      var f := ReadOneField(c, reader, value, depth, state, table, budget);
      if f.None? { return None; }
      value := f.value;
    }
    return Some(value);
  }

  method ReadOneField(c: Codec, reader: Reader, read: map<Text, Json>, depth: nat, state: NodeState, table: TextTable,
                      budget: CanonicalBudget) returns (r: Option<map<Text, Json>>)
    requires reader.Valid() && table.Valid()
    modifies reader`position, state, table, budget
    ensures reader.Valid() && table.Valid()
    ensures Took(r, ReadField(c, read, old(reader.Rest()), depth, Progress(old(state.count), old(table.values)), BUDGET,
                              old(budget.total)),
                 reader.Rest(), Progress(state.count, table.values), budget.total)
    ensures r.Some? ==> |reader.Rest()| < |old(reader.Rest())|
    decreases |reader.Rest()|, 1
  {
    hide CompactTokens.ReadText, CompactValue.ReadValue, JsonString;
    var key := ReadText(c, reader, true, table);
    if key.None? { return None; }
    var ok := budget.SpendString(key.value);
    if !ok { return None; }
    ok := budget.Spend(1);
    if !ok || key.value in read { return None; }
    var v := ReadValue(c, reader, depth, state, table, budget);
    if v.None? { return None; }
    return Some(read[key.value := v.value]);
  }

  method ReadMessage(c: Codec, reader: Reader) returns (r: Option<Json>)
    requires reader.Valid()
    modifies reader`position
    ensures reader.Valid()
    ensures match CompactValue.ReadValue(c, old(reader.Rest()), 0, Progress(0, []), BUDGET, 0)
            case None => r == None
            case Some(s) => r == if s.rest == [] then Some(s.value) else None
  {
    hide CompactValue.ReadValue;
    var state := new NodeState();
    var table := new TextTable();
    var budget := new CanonicalBudget();
    r := ReadValue(c, reader, 0, state, table, budget);
    if r.Some? && reader.position != |reader.input| { r := None; }
  }

  /** `decodeCompactValue`: the canonical text of the value read. */
  method DecodeCompactValue(c: Codec, payload: Bytes) returns (r: Option<Bytes>)
    ensures r == match DecodeCompact(c, payload, BUDGET) { case None => None case Some(v) => Some(Canonical(c, v)) }
  {
    hide CompactValue.ReadValue, Canonical;
    if |payload| > MAX_COMPACT_BYTES { return None; }
    var reader := new Reader(payload);
    var version := reader.TakeByte();
    if version.None? || version.value != COMPACT_VALUE_VERSION { return None; }
    assert reader.Rest() == payload[1..];
    var v := ReadMessage(c, reader);
    if v.None? { return None; }
    return Some(Canonical(c, v.value));
  }
}
