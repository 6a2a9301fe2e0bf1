/** Which values have a compact form: depth, number and texts of a value against the limits (compact-value.ts). */
module CompactEncodes {
  import opened Wrappers
  import opened Json
  import opened TextEncoding
  import opened CompactTokens
  import opened CompactValue

  /** The value and all values within it. */
  function Nodes(v: Json): nat
    decreases v, 1, 0
  {
    match v
    case Arr(items) => 1 + NodesFrom(v, 0)
    case Obj(fields) => 1 + NodesUnder(v, Ordered(false, fields.Keys))
    case _ => 1
  }

  function NodesFrom(v: Json, i: nat): nat
    requires v.Arr? && i <= |v.items|
    decreases v, 0, |v.items| - i
  {
    if i == |v.items| then 0 else Nodes(v.items[i]) + NodesFrom(v, i + 1)
  }

  function NodesUnder(v: Json, keys: seq<Text>): nat
    requires v.Obj? && forall k <- keys :: k in v.fields
    decreases v, 0, |keys|
  {
    if keys == [] then 0 else Nodes(v.fields[keys[0]]) + NodesUnder(v, keys[1..])
  }

  /** No value lies deeper than 64 levels below the outermost. */
  predicate Shallow(v: Json, depth: nat) {
    && depth <= 64
    && (v.Arr? ==> forall i :: 0 <= i < |v.items| ==> Shallow(v.items[i], depth + 1))
    && (v.Obj? ==> forall k :: k in v.fields ==> Shallow(v.fields[k], depth + 1))
  }

  predicate ShortText(s: Text) { |Utf8(s)| <= 131_072 }

  /** No text is longer than 128 KiB. */
  predicate ShortTexts(v: Json) {
    match v
    case Str(s) => ShortText(s)
    case Arr(items) => forall i :: 0 <= i < |items| ==> ShortTexts(items[i])
    case Obj(fields) => forall k :: k in fields ==> ShortText(k) && ShortTexts(fields[k])
    case _ => true
  }

  lemma TextWrites(c: Codec, s: Text, key: bool, table: seq<Text>)
    requires ShortText(s)
    ensures WriteText(c, s, key, table).Some?
  {
    hide PackUuid, Utf8, Varint;
  }

  lemma {:induction false} ValueWrites(c: Codec, v: Json, depth: nat, p: Progress)
    requires ShortTexts(v) && p.count <= 65_536
    ensures WriteValue(c, v, depth, p).Some? <==> Shallow(v, depth) && p.count + Nodes(v) <= 65_536
    ensures WriteValue(c, v, depth, p).Some? ==> WriteValue(c, v, depth, p).value.progress.count == p.count + Nodes(v)
    decreases v, 1, 0
  {
    hide WriteText, WriteNumber, WriteItems, WriteFields, NodesFrom, NodesUnder, Varint, ShortText, Ordered;
    if depth <= 64 && p.count + 1 <= 65_536 {
      var q := p.(count := p.count + 1);
      match v
      case Str(s) => TextWrites(c, s, false, p.table);
      case Arr(items) => ItemsWrite(c, v, 0, depth + 1, q);
      case Obj(fields) => FieldsWrite(c, v, Ordered(false, fields.Keys), depth + 1, q);
      case _ =>
    }
  }

  lemma {:induction false} ItemsWrite(c: Codec, v: Json, i: nat, depth: nat, p: Progress)
    requires v.Arr? && i <= |v.items| && p.count <= 65_536 && forall j :: 0 <= j < |v.items| ==> ShortTexts(v.items[j])
    ensures var o := WriteItems(c, v, i, depth, p);
            && (o.Some? <==> (forall j :: i <= j < |v.items| ==> Shallow(v.items[j], depth)) && p.count + NodesFrom(v, i) <= 65_536)
            && (o.Some? ==> o.value.progress.count == p.count + NodesFrom(v, i))
    decreases v, 0, |v.items| - i
  {
    hide WriteValue, Shallow, Nodes, ShortTexts;
    if i < |v.items| {
      ValueWrites(c, v.items[i], depth, p);
      var o := WriteValue(c, v.items[i], depth, p);
      if o.Some? { ItemsWrite(c, v, i + 1, depth, o.value.progress); }
    }
  }

  lemma {:induction false} FieldsWrite(c: Codec, v: Json, keys: seq<Text>, depth: nat, p: Progress)
    requires v.Obj? && p.count <= 65_536 && (forall k <- keys :: k in v.fields)
    requires forall k :: k in v.fields ==> ShortText(k) && ShortTexts(v.fields[k])
    ensures var o := WriteFields(c, v, keys, depth, p);
            && (o.Some? <==> (forall k <- keys :: Shallow(v.fields[k], depth)) && p.count + NodesUnder(v, keys) <= 65_536)
            && (o.Some? ==> o.value.progress.count == p.count + NodesUnder(v, keys))
    decreases v, 0, |keys|
  {
    hide WriteValue, Shallow, Nodes, ShortTexts, WriteText, ShortText;
    if keys != [] {
      var k := keys[0];
      TextWrites(c, k, true, p.table);
      var t := WriteText(c, k, true, p.table).value;
      ValueWrites(c, v.fields[k], depth, Progress(p.count, t.table));
      var o := WriteField(c, v, k, depth, p);
      if o.Some? { FieldsWrite(c, v, keys[1..], depth, o.value.progress); }
      assert forall x :: x in keys <==> x == k || x in keys[1..];
    }
  }

  // ----- texts of a payload ---------------------------------------------------------------------------

  lemma {:induction false} TextWithin(s: Text)
    ensures |Utf8(s)| <= |Utf8(Escaped(s))|
    decreases |s|
  {
    if s != [] {
      EscapedBytes(s);
      TextWithin(s[Width(s)..]);
      EncodedSize(CodePoint(s));
    }
  }

  lemma {:induction false} ItemWithin(c: Codec, v: Json, n: nat, i: nat)
    requires v.Arr? && i < n <= |v.items|
    ensures |Canonical(c, v.items[i])| <= |JoinItems(c, v, n)|
    decreases n
  {
    hide Canonical;
    if i < n - 1 { ItemWithin(c, v, n - 1, i); }
  }

  lemma {:induction false} FieldWithin(c: Codec, v: Json, keys: seq<Text>, k: Text)
    requires v.Obj? && (forall x <- keys :: x in v.fields) && k in keys
    ensures |JsonString(k)| <= |JoinFields(c, v, keys)| && |Canonical(c, v.fields[k])| <= |JoinFields(c, v, keys)|
  {
    hide Canonical, JsonString;
    if k != keys[0] { FieldWithin(c, v, keys[1..], k); }
  }

  /** No text is longer than the canonical text it is part of. */
  lemma {:induction false} TextsWithin(c: Codec, v: Json)
    requires |Canonical(c, v)| <= 131_072
    ensures ShortTexts(v)
  {
    hide JsonString, JoinItems, JoinFields, Utf8, Escaped, Ordered;
    match v
    case Str(s) =>
      QuotedBytes(s);
      TextWithin(s);
    case Arr(items) =>
      forall i | 0 <= i < |items| ensures ShortTexts(items[i]) {
        ItemWithin(c, v, |items|, i);
        TextsWithin(c, items[i]);
      }
    case Obj(fields) =>
      forall k | k in fields ensures ShortText(k) && ShortTexts(fields[k]) {
        FieldWithin(c, v, Ordered(true, fields.Keys), k);
        QuotedBytes(k);
        TextWithin(k);
        TextsWithin(c, fields[k]);
      }
    case _ =>
  }

  /**
    A payload is encoded exactly if it is the canonical text of the value it parses to, fits into a message, its values
    are neither too deep nor too many, and what is written for it fits; its texts are then never too long.
    */
  lemma EncodesExactly(c: Codec, payload: Bytes, parsed: Option<Json>)
    ensures EncodeCompact(c, payload, parsed).Some? <==>
            && parsed.Some? && payload == Canonical(c, parsed.value) && |payload| <= 131_072
            && Shallow(parsed.value, 0) && Nodes(parsed.value) <= 65_536
            && var o := WriteValue(c, parsed.value, 0, Progress(0, [])); o.Some? && 1 + |o.value.bytes| <= 524_288
    ensures parsed.Some? && |Canonical(c, parsed.value)| <= 131_072 && Shallow(parsed.value, 0) && Nodes(parsed.value) <= 65_536 ==>
              WriteValue(c, parsed.value, 0, Progress(0, [])).Some?
  {
    hide Canonical, WriteValue, Shallow, Nodes;
    if parsed.Some? && |Canonical(c, parsed.value)| <= 131_072 {
      TextsWithin(c, parsed.value);
      ValueWrites(c, parsed.value, 0, Progress(0, []));
    }
  }
}
