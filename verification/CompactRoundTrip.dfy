/** What the compact writer writes is read back, and the byte budget is the canonical length (compact-value.ts). */
module CompactRoundTrip {
  import opened Wrappers
  import opened Doubles
  import opened Json
  import opened TextEncoding
  import opened CompactTokens
  import opened CompactValue

  predicate SmallTable(p: Progress) { |p.table| <= MAX_TABLE_ENTRIES }

  /** The reader returned `v`, left `rest` and stands where the writer stood. */
  ghost predicate Reads<T>(r: Option<Parsed<T>>, v: T, rest: Bytes, p: Progress) {
    r.Some? && r.value.value == v && r.value.rest == rest && r.value.progress == p
  }

  lemma TextKeepsSmall(c: Codec, s: Text, key: bool, table: seq<Text>)
    requires |table| <= MAX_TABLE_ENTRIES && WriteText(c, s, key, table).Some?
    ensures |WriteText(c, s, key, table).value.table| <= MAX_TABLE_ENTRIES
  {
    hide PackUuid, Utf8, Varint, IndexOf;
  }

  /** A single is read back as the double it was made from. */
  lemma FloatReads(f: Bits64)
    requires Fractional(f)
    ensures match Narrowed(Split64(f))
            case Some(p) => Float32At(Little(Join32(p), 4)) == Some(Fraction(f))
            case None => Float64At(Little(f, 8)) == Some(Fraction(f))
  {
    hide SafeValue, Widened, Narrowed;
    PartsSplit(f, 0);
    match Narrowed(Split64(f)) {
      case Some(p) =>
        LittleReads(Join32(p), 4);
        PartsJoin(p);
        NarrowedWidens(Split64(f));
      case None => LittleReads(f, 8);
    }
  }

  lemma FloatValueReads(c: Codec, f: Bits64, rest: Bytes, depth: nat, p: Progress, total: nat)
    requires Visit(p, depth).Some? && Fractional(f)
    ensures Reads(ReadValue(c, WriteNumber(Fraction(f)) + rest, depth, p, None, total), Num(Fraction(f)), rest,
                  Visit(p, depth).value)
  {
    hide ReadWhole, ReadText, ReadArray, ReadObject, Narrowed, Float32At, Float64At, Fractional, Little, Join32;
    var b := WriteNumber(Fraction(f)) + rest;
    FloatReads(f);
    assert b[1..] == WriteNumber(Fraction(f))[1..] + rest;
    TakeDrop(WriteNumber(Fraction(f))[1..], rest);
  }

  lemma NumberReads(c: Codec, n: Number, rest: Bytes, depth: nat, p: Progress, total: nat)
    requires Visit(p, depth).Some?
    ensures Reads(ReadValue(c, WriteNumber(n) + rest, depth, p, None, total), Num(n), rest, Visit(p, depth).value)
  {
    hide Varint, ReadVarint, ReadFloat, ReadText, ReadArray, ReadObject, Narrowed, SafeValue;
    match n {
      case Whole(i) =>
        var b := WriteNumber(n) + rest;
        VarintRoundTrip(if i < 0 then -i else i, MAX_SAFE_INTEGER, rest);
        assert b[1..] == Varint(if i < 0 then -i else i) + rest;
      case Fraction(f) => FloatValueReads(c, f, rest, depth, p, total);
    }
  }

  lemma StringReads(c: Codec, s: Text, rest: Bytes, depth: nat, p: Progress, total: nat)
    requires Pinned(c) && SmallTable(p) && Visit(p, depth).Some? && WriteText(c, s, false, p.table).Some?
    ensures var w := WriteText(c, s, false, p.table).value;
            Reads(ReadValue(c, [TAG_STRING] + w.bytes + rest, depth, p, None, total), Str(s), rest,
                  Progress(Visit(p, depth).value.count, w.table))
  {
    hide ReadText, WriteText, JsonString;
    var w := WriteText(c, s, false, p.table).value;
    var b := [TAG_STRING] + w.bytes + rest;
    assert b[1..] == w.bytes + rest;
    TextRoundTrip(c, s, false, p.table, rest);
  }

  /** The reader reads back what the writer wrote, whatever follows, and both texts tables are equal after it. */
  lemma {:induction false} ValueReads(c: Codec, v: Json, rest: Bytes, depth: nat, p: Progress, total: nat)
    requires Pinned(c) && SmallTable(p) && WriteValue(c, v, depth, p).Some?
    ensures var o := WriteValue(c, v, depth, p).value;
            SmallTable(o.progress)
            && Reads(ReadValue(c, o.bytes + rest, depth, p, None, total), v, rest, o.progress)
    decreases v, 1, 0
  {
    hide ReadValue, ReadItems, WriteItems, ReadFields, WriteFields, WriteText, Varint;
    match v {
      case Null => ConstantReads(c, v, rest, depth, p, total);
      case Bool(_) => ConstantReads(c, v, rest, depth, p, total);
      case Num(n) => NumberReads(c, n, rest, depth, p, total);
      case Str(s) =>
        StringReads(c, s, rest, depth, p, total);
        TextKeepsSmall(c, s, false, p.table);
      case Arr(_) => ArrayValueReads(c, v, rest, depth, p, total);
      case Obj(_) => ObjectValueReads(c, v, rest, depth, p, total);
    }
  }

  lemma ArrayValueReads(c: Codec, v: Json, rest: Bytes, depth: nat, p: Progress, total: nat)
    requires Pinned(c) && SmallTable(p) && v.Arr? && WriteValue(c, v, depth, p).Some?
    ensures var o := WriteValue(c, v, depth, p).value;
            SmallTable(o.progress)
            && Reads(ReadValue(c, o.bytes + rest, depth, p, None, total), v, rest, o.progress)
    decreases v, 0, |v.items| + 1
  {
    hide ReadValue, ReadItems, WriteItems, Varint;
    var q := Visit(p, depth).value;
    var o := WriteItems(c, v, 0, depth + 1, q).value;
    ItemsRead(c, v, 0, rest, depth + 1, q, total + 1);
    assert v.items[..0] == [];
    ArrayReads(c, v, o, rest, depth, p, total);
  }

  lemma ObjectValueReads(c: Codec, v: Json, rest: Bytes, depth: nat, p: Progress, total: nat)
    requires Pinned(c) && SmallTable(p) && v.Obj? && WriteValue(c, v, depth, p).Some?
    ensures var o := WriteValue(c, v, depth, p).value;
            SmallTable(o.progress)
            && Reads(ReadValue(c, o.bytes + rest, depth, p, None, total), v, rest, o.progress)
    decreases v, 0, |v.fields| + 1
  {
    hide ReadValue, ReadFields, WriteFields, Varint, ReadVarint, WriteNumber, WriteItems, WriteText, UnitsBefore;
    var q := Visit(p, depth).value;
    var keys := Ordered(false, v.fields.Keys);
    assert |v.fields| == |v.fields.Keys|;
    OrderedSorts(false, v.fields.Keys);
    var o := WriteFields(c, v, keys, depth + 1, q).value;
    FieldsRead(c, v, keys, map[], |keys|, 0, rest, depth + 1, q, total + 1);
    assert map[] + FieldsOf(v, keys) == v.fields;
    ObjectReads(c, v, keys, o, rest, depth, p, total);
  }

  lemma ConstantReads(c: Codec, v: Json, rest: Bytes, depth: nat, p: Progress, total: nat)
    requires (v.Null? || v.Bool?) && SmallTable(p) && WriteValue(c, v, depth, p).Some?
    ensures var o := WriteValue(c, v, depth, p).value;
            SmallTable(o.progress)
            && Reads(ReadValue(c, o.bytes + rest, depth, p, None, total), v, rest, o.progress)
  {
    var o := WriteValue(c, v, depth, p).value;
    assert (o.bytes + rest)[1..] == rest;
  }

  lemma ArrayReads(c: Codec, v: Json, o: Output, rest: Bytes, depth: nat, p: Progress, total: nat)
    requires v.Arr? && Visit(p, depth).Some? && |v.items| <= MAX_NODES
    requires Reads(ReadItems(c, |v.items|, [], o.bytes + rest, depth + 1, Visit(p, depth).value, None, total + 1),
                   v.items, rest, o.progress)
    ensures Reads(ReadValue(c, [TAG_ARRAY] + Varint(|v.items|) + o.bytes + rest, depth, p, None, total), v, rest,
                  o.progress)
  {
    hide ReadItems, Varint, ReadVarint;
    var b := [TAG_ARRAY] + Varint(|v.items|) + o.bytes + rest;
    assert b[1..] == Varint(|v.items|) + (o.bytes + rest);
    VarintRoundTrip(|v.items|, MAX_NODES, o.bytes + rest);
  }

  lemma ObjectReads(c: Codec, v: Json, keys: seq<Text>, o: Output, rest: Bytes, depth: nat, p: Progress, total: nat)
    requires v.Obj? && Visit(p, depth).Some? && |keys| <= MAX_NODES
    requires Reads(ReadFields(c, |keys|, 0, map[], o.bytes + rest, depth + 1, Visit(p, depth).value, None, total + 1),
                   v.fields, rest, o.progress)
    ensures Reads(ReadValue(c, [TAG_OBJECT] + Varint(|keys|) + o.bytes + rest, depth, p, None, total), v, rest, o.progress)
  {
    hide ReadFields, Varint, ReadVarint;
    var b := [TAG_OBJECT] + Varint(|keys|) + o.bytes + rest;
    assert b[1..] == Varint(|keys|) + (o.bytes + rest);
    VarintRoundTrip(|keys|, MAX_NODES, o.bytes + rest);
  }

  lemma {:induction false} ItemsRead(c: Codec, v: Json, i: nat, rest: Bytes, depth: nat, p: Progress, total: nat)
    requires Pinned(c) && SmallTable(p) && v.Arr? && i <= |v.items| && WriteItems(c, v, i, depth, p).Some?
    ensures var o := WriteItems(c, v, i, depth, p).value;
            SmallTable(o.progress)
            && Reads(ReadItems(c, |v.items|, v.items[..i], o.bytes + rest, depth, p, None, total), v.items, rest, o.progress)
    decreases v, 0, |v.items| - i
  {
    hide ReadValue, WriteValue;
    if i == |v.items| {
      assert v.items[..i] == v.items && [] + rest == rest;
    } else {
      var first := WriteValue(c, v.items[i], depth, p).value;
      var o := WriteItems(c, v, i + 1, depth, first.progress).value;
      assert (first.bytes + o.bytes) + rest == first.bytes + (o.bytes + rest);
      var before := total + (if v.items[..i] == [] then 0 else 1);
      ValueReads(c, v.items[i], o.bytes + rest, depth, p, before);
      var r := ReadValue(c, first.bytes + (o.bytes + rest), depth, p, None, before).value;
      assert v.items[..i] + [v.items[i]] == v.items[..i + 1];
      ItemsRead(c, v, i + 1, rest, depth, first.progress, r.total);
    }
  }

  function FieldsOf(v: Json, keys: seq<Text>): map<Text, Json>
    requires v.Obj? && forall k <- keys :: k in v.fields
  {
    map k | k in keys :: v.fields[k]
  }

  lemma FieldReads(c: Codec, v: Json, k: Text, read: map<Text, Json>, rest: Bytes, depth: nat, p: Progress, total: nat)
    requires Pinned(c) && SmallTable(p) && v.Obj? && k in v.fields && k !in read && WriteField(c, v, k, depth, p).Some?
    ensures var o := WriteField(c, v, k, depth, p).value;
            SmallTable(o.progress)
            && Reads(ReadField(c, read, o.bytes + rest, depth, p, None, total), read[k := v.fields[k]], rest, o.progress)
    decreases v, 0, 0
  {
    hide ReadValue, WriteValue, ReadText, WriteText, JsonString;
    var t := WriteText(c, k, true, p.table).value;
    TextKeepsSmall(c, k, true, p.table);
    var q := Progress(p.count, t.table);
    var o := WriteValue(c, v.fields[k], depth, q).value;
    assert (t.bytes + o.bytes) + rest == t.bytes + (o.bytes + rest);
    TextRoundTrip(c, k, true, p.table, o.bytes + rest);
    ValueReads(c, v.fields[k], rest, depth, q, total + |JsonString(k)| + 1);
  }

  lemma {:induction false} FieldsRead(c: Codec, v: Json, keys: seq<Text>, read: map<Text, Json>, n: nat, i: nat,
                                      rest: Bytes, depth: nat, p: Progress, total: nat)
    requires Pinned(c) && SmallTable(p) && v.Obj? && (forall k <- keys :: k in v.fields && k !in read)
    requires Unrepeated(keys) && n == i + |keys| && WriteFields(c, v, keys, depth, p).Some?
    ensures var o := WriteFields(c, v, keys, depth, p).value;
            SmallTable(o.progress)
            && Reads(ReadFields(c, n, i, read, o.bytes + rest, depth, p, None, total), read + FieldsOf(v, keys), rest,
                     o.progress)
    decreases v, 0, |keys|
  {
    hide ReadField, WriteField;
    if keys == [] {
      assert read + FieldsOf(v, keys) == read && [] + rest == rest;
    } else {
      var k := keys[0];
      assert k !in keys[1..];
      var first := WriteField(c, v, k, depth, p).value;
      var o := WriteFields(c, v, keys[1..], depth, first.progress).value;
      assert (first.bytes + o.bytes) + rest == first.bytes + (o.bytes + rest);
      var before := total + (if i == 0 then 0 else 1);
      FieldReads(c, v, k, read, o.bytes + rest, depth, p, before);
      var r := ReadField(c, read, first.bytes + (o.bytes + rest), depth, p, None, before).value;
      FieldsRead(c, v, keys[1..], read[k := v.fields[k]], n, i + 1, rest, depth, first.progress, r.total);
      FieldsStep(v, keys, read);
    }
  }

  lemma FieldsStep(v: Json, keys: seq<Text>, read: map<Text, Json>)
    requires v.Obj? && keys != [] && forall k <- keys :: k in v.fields
    ensures read[keys[0] := v.fields[keys[0]]] + FieldsOf(v, keys[1..]) == read + FieldsOf(v, keys)
  {
    assert forall q :: q in keys <==> q == keys[0] || q in keys[1..];
  }

  // ----- the budget is the canonical length ------------------------------------------------------------

  function Weight(c: Codec, k: Text, v: Json): nat { |JsonString(k)| + 1 + |Canonical(c, v)| }

  function Weights(c: Codec, fields: map<Text, Json>): map<Text, nat> { map k | k in fields :: Weight(c, k, fields[k]) }

  function Commas(n: nat): nat { if n == 0 then 0 else n - 1 }

  ghost function FieldsSize(c: Codec, fields: map<Text, Json>): nat { Sum(Weights(c, fields)) }

  lemma FieldsSizeAdd(c: Codec, fields: map<Text, Json>, k: Text, v: Json)
    requires k !in fields
    ensures FieldsSize(c, fields[k := v]) == FieldsSize(c, fields) + Weight(c, k, v)
  {
    hide Weight;
    var w := Weights(c, fields[k := v]);
    SumDrop(w, k);
    assert w - {k} == Weights(c, fields);
  }

  lemma {:induction false} JoinedSize(c: Codec, v: Json, keys: seq<Text>)
    requires v.Obj? && Unrepeated(keys) && forall k <- keys :: k in v.fields
    ensures |JoinFields(c, v, keys)| == FieldsSize(c, FieldsOf(v, keys)) + Commas(|keys|)
    decreases |keys|
  {
    hide FieldsSize, JsonString, Canonical;
    if keys == [] {
      assert FieldsOf(v, keys) == map[];
      NothingSize(c);
    } else {
      var k := keys[0];
      assert k !in keys[1..];
      JoinedSize(c, v, keys[1..]);
      FieldsSizeAdd(c, FieldsOf(v, keys[1..]), k, v.fields[k]);
      FieldsStep(v, keys, map[]);
      assert map[][k := v.fields[k]] + FieldsOf(v, keys[1..]) == FieldsOf(v, keys[1..])[k := v.fields[k]];
      assert map[] + FieldsOf(v, keys) == FieldsOf(v, keys);
    }
  }

  lemma NothingSize(c: Codec)
    ensures FieldsSize(c, map[]) == 0
  {
    assert Weights(c, map[]) == map[];
  }

  /** The canonical length of an object does not depend on the order in which its fields are listed. */
  lemma ObjectSize(c: Codec, fields: map<Text, Json>)
    ensures |Canonical(c, Obj(fields))| == 2 + FieldsSize(c, fields) + Commas(|fields|)
  {
    hide FieldsSize, JoinFields;
    var keys := Ordered(true, fields.Keys);
    OrderedSorts(true, fields.Keys);
    JoinedSize(c, Obj(fields), keys);
    assert FieldsOf(Obj(fields), keys) == fields;
    assert |fields| == |fields.Keys|;
    hide JsonString;
  }

  /** After reading a value the budget has grown by exactly the length of its canonical text. */
  lemma {:induction false} BudgetExact(c: Codec, b: Bytes, depth: nat, p: Progress, limit: Option<nat>, total: nat)
    requires ReadValue(c, b, depth, p, limit, total).Some?
    ensures var r := ReadValue(c, b, depth, p, limit, total).value; r.total == total + |Canonical(c, r.value)|
    decreases |b|, 1
  {
    hide ReadText, ReadVarint, JsonString, ReadItems, ReadFields, Visit, InBudget, Float32At, Float64At;
    var r := ReadValue(c, b, depth, p, limit, total).value;
    var q := Visit(p, depth).value;
    if b[0] == TAG_ARRAY {
      var n := ReadVarint(b[1..], MAX_NODES).value;
      ItemsBudget(c, n.value, [], n.rest, depth + 1, q, limit, total + 1);
    } else if b[0] == TAG_OBJECT {
      var n := ReadVarint(b[1..], MAX_NODES).value;
      FieldsBudget(c, n.value, 0, map[], n.rest, depth + 1, q, limit, total + 1);
      NothingSize(c);
      ObjectSize(c, r.value.fields);
    }
  }

  lemma {:induction false} ItemsBudget(c: Codec, n: nat, read: seq<Json>, b: Bytes, depth: nat, p: Progress,
                                       limit: Option<nat>, total: nat)
    requires |read| <= n && ReadItems(c, n, read, b, depth, p, limit, total).Some?
    ensures var r := ReadItems(c, n, read, b, depth, p, limit, total).value;
            && |r.value| == n && read == r.value[..|read|]
            && r.total + |JoinItems(c, Arr(r.value), |read|)| == total + |JoinItems(c, Arr(r.value), n)|
    decreases |b|, 2, n - |read|
  {
    hide ReadValue, Canonical;
    if |read| < n {
      var before := total + (if read == [] then 0 else 1);
      BudgetExact(c, b, depth, p, limit, before);
      var v := ReadValue(c, b, depth, p, limit, before).value;
      ItemsBudget(c, n, read + [v.value], v.rest, depth, v.progress, limit, v.total);
      var r := ReadItems(c, n, read, b, depth, p, limit, total).value;
      assert r.value[|read|] == (read + [v.value])[|read|] == v.value;
      assert read == (read + [v.value])[..|read|] == r.value[..|read|];
    }
  }

  lemma {:induction false} FieldsBudget(c: Codec, n: nat, i: nat, read: map<Text, Json>, b: Bytes, depth: nat, p: Progress,
                                        limit: Option<nat>, total: nat)
    requires i <= n && |read| == i && ReadFields(c, n, i, read, b, depth, p, limit, total).Some?
    ensures var r := ReadFields(c, n, i, read, b, depth, p, limit, total).value;
            && |r.value| == n
            && r.total + FieldsSize(c, read) + Commas(i) == total + FieldsSize(c, r.value) + Commas(n)
    decreases |b|, 2, n - i
  {
    hide ReadField, FieldsSize;
    if i < n {
      var before := total + (if i == 0 then 0 else 1);
      FieldBudget(c, read, b, depth, p, limit, before);
      var f := ReadField(c, read, b, depth, p, limit, before).value;
      FieldsBudget(c, n, i + 1, f.value, f.rest, depth, f.progress, limit, f.total);
    }
  }

  lemma FieldBudget(c: Codec, read: map<Text, Json>, b: Bytes, depth: nat, p: Progress, limit: Option<nat>, total: nat)
    requires ReadField(c, read, b, depth, p, limit, total).Some?
    ensures var f := ReadField(c, read, b, depth, p, limit, total).value;
            && |f.value| == |read| + 1 && f.total + FieldsSize(c, read) == total + FieldsSize(c, f.value)
    decreases |b|, 1
  {
    hide ReadText, ReadValue, JsonString, FieldsSize, Canonical;
    var t := ReadText(c, b, true, p.table).value;
    var after := total + |JsonString(t.text)| + 1;
    BudgetExact(c, t.rest, depth, Progress(p.count, t.table), limit, after);
    var v := ReadValue(c, t.rest, depth, Progress(p.count, t.table), limit, after).value;
    FieldsSizeAdd(c, read, t.text, v.value);
    assert read[t.text := v.value].Keys == read.Keys + {t.text};
    assert |read[t.text := v.value]| == |read[t.text := v.value].Keys| && |read| == |read.Keys|;
  }

  // ----- the limit only cuts ---------------------------------------------------------------------------

  /** A reading without a limit, cut off where it exceeds one. */
  function Cut<T>(r: Option<Parsed<T>>, limit: nat): Option<Parsed<T>> {
    if r.Some? && r.value.total <= limit then r else None
  }

  /** A limit on the canonical bytes rejects exactly the values whose canonical text exceeds it. */
  lemma {:induction false} LimitCuts(c: Codec, b: Bytes, depth: nat, p: Progress, limit: nat, total: nat)
    ensures ReadValue(c, b, depth, p, Some(limit), total) == Cut(ReadValue(c, b, depth, p, None, total), limit)
    decreases |b|, 1
  {
    hide ReadText, ReadVarint, JsonString, ReadItems, ReadFields, ReadArray, ReadObject, Visit;
    var q := Visit(p, depth);
    if q.Some? && b != [] {
      if b[0] == TAG_ARRAY {
        ArrayCuts(c, b[1..], depth, q.value, limit, total);
      } else if b[0] == TAG_OBJECT {
        ObjectCuts(c, b[1..], depth, q.value, limit, total);
      }
    }
  }

  lemma ArrayCuts(c: Codec, b: Bytes, depth: nat, p: Progress, limit: nat, total: nat)
    ensures ReadArray(c, b, depth, p, Some(limit), total) == Cut(ReadArray(c, b, depth, p, None, total), limit)
    decreases |b|, 3
  {
    hide ReadVarint, ReadItems;
    var n := ReadVarint(b, MAX_NODES);
    if n.Some? && total + 1 <= limit {
      ItemsCut(c, n.value.value, [], n.value.rest, depth + 1, p, limit, total + 1);
    }
  }

  lemma ObjectCuts(c: Codec, b: Bytes, depth: nat, p: Progress, limit: nat, total: nat)
    ensures ReadObject(c, b, depth, p, Some(limit), total) == Cut(ReadObject(c, b, depth, p, None, total), limit)
    decreases |b|, 3
  {
    hide ReadVarint, ReadFields;
    var n := ReadVarint(b, MAX_NODES);
    if n.Some? && total + 1 <= limit {
      FieldsCut(c, n.value.value, 0, map[], n.value.rest, depth + 1, p, limit, total + 1);
    }
  }

  lemma {:induction false} ItemsCut(c: Codec, n: nat, read: seq<Json>, b: Bytes, depth: nat, p: Progress, limit: nat,
                                    total: nat)
    requires |read| <= n && total <= limit
    ensures ReadItems(c, n, read, b, depth, p, Some(limit), total) ==
            Cut(ReadItems(c, n, read, b, depth, p, None, total), limit)
    decreases |b|, 2, n - |read|
  {
    hide ReadValue;
    if |read| < n {
      var before := total + (if read == [] then 0 else 1);
      LimitCuts(c, b, depth, p, limit, before);
      var v := ReadValue(c, b, depth, p, None, before);
      if v.Some? && v.value.total <= limit {
        ItemsCut(c, n, read + [v.value.value], v.value.rest, depth, v.value.progress, limit, v.value.total);
      }
    }
  }

  lemma {:induction false} FieldsCut(c: Codec, n: nat, i: nat, read: map<Text, Json>, b: Bytes, depth: nat, p: Progress,
                                     limit: nat, total: nat)
    requires i <= n && total <= limit
    ensures ReadFields(c, n, i, read, b, depth, p, Some(limit), total) ==
            Cut(ReadFields(c, n, i, read, b, depth, p, None, total), limit)
    decreases |b|, 2, n - i
  {
    hide ReadField;
    if i < n {
      var before := total + (if i == 0 then 0 else 1);
      FieldCuts(c, read, b, depth, p, limit, before);
      var f := ReadField(c, read, b, depth, p, None, before);
      if f.Some? && f.value.total <= limit {
        FieldsCut(c, n, i + 1, f.value.value, f.value.rest, depth, f.value.progress, limit, f.value.total);
      }
    }
  }

  lemma FieldCuts(c: Codec, read: map<Text, Json>, b: Bytes, depth: nat, p: Progress, limit: nat, total: nat)
    ensures ReadField(c, read, b, depth, p, Some(limit), total) ==
            Cut(ReadField(c, read, b, depth, p, None, total), limit)
    decreases |b|, 1
  {
    hide ReadText, ReadValue, JsonString;
    var t := ReadText(c, b, true, p.table);
    if t.Some? {
      LimitCuts(c, t.value.rest, depth, Progress(p.count, t.value.table), limit, total + |JsonString(t.value.text)| + 1);
    }
  }

  // ----- the results ----------------------------------------------------------------------------------

  /** Decoding rejects exactly what cannot be read and what has a canonical text of more than 128 KiB. */
  lemma DecodeRejectsExactly(c: Codec, b: Bytes)
    ensures DecodeCompact(c, b, Some(MAX_CANONICAL_BYTES)) ==
            match DecodeCompact(c, b, None)
            case None => None
            case Some(v) => if |Canonical(c, v)| <= MAX_CANONICAL_BYTES then Some(v) else None
  {
    hide ReadValue, Canonical;
    if b != [] {
      LimitCuts(c, b[1..], 0, Progress(0, []), MAX_CANONICAL_BYTES, 0);
      if ReadValue(c, b[1..], 0, Progress(0, []), None, 0).Some? {
        BudgetExact(c, b[1..], 0, Progress(0, []), None, 0);
      }
    }
  }

  /**
    Every payload the encoder accepts is decoded to a value whose canonical text is exactly that payload, and the
    compact form is never over its own limit.
    */
  lemma CompactRoundTrips(c: Codec, payload: Bytes, parsed: Option<Json>)
    requires Pinned(c) && EncodeCompact(c, payload, parsed).Some?
    ensures var b := EncodeCompact(c, payload, parsed).value;
            && |b| <= MAX_COMPACT_BYTES
            && DecodeCompact(c, b, Some(MAX_CANONICAL_BYTES)) == parsed
            && parsed.Some? && Canonical(c, parsed.value) == payload
  {
    hide ReadValue, WriteValue, Canonical;
    var v := parsed.value;
    var o := WriteValue(c, v, 0, Progress(0, [])).value;
    var b := [COMPACT_VALUE_VERSION] + o.bytes;
    ValueReads(c, v, [], 0, Progress(0, []), 0);
    assert o.bytes + [] == o.bytes && b[1..] == o.bytes;
    DecodeRejectsExactly(c, b);
  }

  lemma NumberShort(n: Number)
    ensures |WriteNumber(n)| <= 9
  {
    assert Power(8) == 72_057_594_037_927_936;
    match n {
      case Whole(i) => VarintShort(if i < 0 then -i else i, 8);
      case Fraction(_) =>
    }
  }

  /** The encoder does accept payloads: the text of any number and of any array of one number, for one. */
  lemma NumbersEncode(c: Codec, n: Number)
    requires |Canonical(c, Arr([Num(n)]))| <= MAX_CANONICAL_BYTES
    ensures EncodeCompact(c, Canonical(c, Arr([Num(n)])), Some(Arr([Num(n)]))).Some?
  {
    hide Canonical;
    var v := Arr([Num(n)]);
    NumberShort(n);
    assert WriteItems(c, v, 1, 1, Progress(2, [])) == Some(Output([], Progress(2, [])));
    assert WriteValue(c, v.items[0], 1, Progress(1, [])) == Some(Output(WriteNumber(n), Progress(2, [])));
    assert WriteItems(c, v, 0, 1, Progress(1, [])).Some?;
  }

  /** No two payloads share a compact form. */
  lemma CompactInjective(c: Codec, payload: Bytes, parsed: Option<Json>, other: Bytes, reparsed: Option<Json>)
    requires Pinned(c) && EncodeCompact(c, payload, parsed).Some?
    requires EncodeCompact(c, other, reparsed) == EncodeCompact(c, payload, parsed)
    ensures payload == other
  {
    CompactRoundTrips(c, payload, parsed);
    CompactRoundTrips(c, other, reparsed);
  }
}
