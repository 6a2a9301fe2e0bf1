/** JSON values over UTF-16 strings, and the orders in which their keys are listed (canonical-json.ts). */
module Json {
  import opened Wrappers
  import opened Doubles

  // A UTF-16 code unit; strings may hold unpaired surrogates.
  type Unit = u: nat | u < 65536
  type Text = seq<Unit>

  /** The pattern of a finite double that is no safe integer. */
  predicate Fractional(n: Bits64) { Finite64(Split64(n)) && SafeValue(Split64(n)).None? }

  type FractionBits = n: Bits64 | Fractional(n) witness 0x3FE0_0000_0000_0000

  // A finite JavaScript number; minus zero is zero, as its JSON text is.
  datatype Number = Whole(i: SafeInteger) | Fraction(bits: FractionBits)

  /** The number with a bit pattern, if it is finite. */
  function NumberOf(n: Bits64): Option<Number> {
    if !Finite64(Split64(n)) then None
    else
      match SafeValue(Split64(n))
      case Some(i) => Some(Whole(i))
      case None => Some(Fraction(n))
  }

  datatype Json =
    | Null
    | Bool(b: bool)
    | Num(n: Number)
    | Str(s: Text)
    | Arr(items: seq<Json>)
    | Obj(fields: map<Text, Json>)

  /** Code unit order, as `Array.prototype.sort` compares strings. */
  predicate UnitsBefore(a: Text, b: Text)
    decreases |a|
  {
    if a == [] || b == [] then a == [] && b != []
    else a[0] < b[0] || (a[0] == b[0] && UnitsBefore(a[1..], b[1..]))
  }

  predicate Digits(s: Text) { forall i :: 0 <= i < |s| ==> 0x30 <= s[i] <= 0x39 }

  const LAST_INDEX: Text := [0x34, 0x32, 0x39, 0x34, 0x39, 0x36, 0x37, 0x32, 0x39, 0x34]

  /** A property name that is an array index, hence listed before every other name. */
  predicate IsIndex(s: Text) {
    && s != [] && Digits(s) && (s[0] == 0x30 ==> |s| == 1)
    && (|s| < 10 || (|s| == 10 && !UnitsBefore(LAST_INDEX, s)))
  }

  /** The order in which an object lists names that were added in code unit order. */
  predicate ListedBefore(a: Text, b: Text) {
    if IsIndex(a) != IsIndex(b) then IsIndex(a)
    else if IsIndex(a) then |a| < |b| || (|a| == |b| && UnitsBefore(a, b))
    else UnitsBefore(a, b)
  }

  /** Code unit order, or the order in which an object lists its names. */
  predicate Before(listing: bool, a: Text, b: Text) { if listing then ListedBefore(a, b) else UnitsBefore(a, b) }

  lemma {:induction false} UnitsTotal(a: Text, b: Text)
    ensures !UnitsBefore(a, a)
    ensures a == b || UnitsBefore(a, b) || UnitsBefore(b, a)
    ensures !(UnitsBefore(a, b) && UnitsBefore(b, a))
    decreases |a|
  {
    if a != [] && b != [] {
      UnitsTotal(a[1..], b[1..]);
      assert a == [a[0]] + a[1..] && b == [b[0]] + b[1..];
    } else if a != [] {
      UnitsTotal(a[1..], []);
    }
  }

  lemma {:induction false} UnitsTransitive(a: Text, b: Text, c: Text)
    requires UnitsBefore(a, b) && UnitsBefore(b, c)
    ensures UnitsBefore(a, c)
    decreases |a|
  {
    if a != [] && a[0] == b[0] == c[0] {
      UnitsTransitive(a[1..], b[1..], c[1..]);
    }
  }

  lemma BeforeTotal(listing: bool, a: Text, b: Text)
    ensures !Before(listing, a, a)
    ensures a == b || Before(listing, a, b) || Before(listing, b, a)
    ensures !(Before(listing, a, b) && Before(listing, b, a))
  {
    UnitsTotal(a, b);
    hide IsIndex;
  }

  lemma BeforeTransitive(listing: bool, a: Text, b: Text, c: Text)
    requires Before(listing, a, b) && Before(listing, b, c)
    ensures Before(listing, a, c)
  {
    if UnitsBefore(a, b) && UnitsBefore(b, c) {
      UnitsTransitive(a, b, c);
    }
    hide IsIndex;
  }

  predicate First(listing: bool, k: Text, keys: set<Text>) {
    k in keys && forall q :: q in keys && q != k ==> Before(listing, k, q)
  }

  lemma {:induction false} FirstExists(listing: bool, keys: set<Text>)
    requires keys != {}
    ensures exists k :: First(listing, k, keys)
    decreases |keys|
  {
    var k :| k in keys;
    if keys == {k} {
      assert First(listing, k, keys);
    } else {
      var rest := keys - {k};
      FirstExists(listing, rest);
      var m :| First(listing, m, rest);
      BeforeTotal(listing, k, m);
      if Before(listing, k, m) {
        forall q | q in keys && q != k ensures Before(listing, k, q) {
          if q != m { BeforeTransitive(listing, k, m, q); }
        }
        assert First(listing, k, keys);
      } else {
        assert First(listing, m, keys);
      }
    }
  }

  lemma FirstUnique(listing: bool, keys: set<Text>)
    ensures forall a, b :: First(listing, a, keys) && First(listing, b, keys) ==> a == b
  {
    forall a, b | First(listing, a, keys) && First(listing, b, keys) ensures a == b {
      BeforeTotal(listing, a, b);
    }
  }

  /** The names of a set, in order. */
  function Ordered(listing: bool, keys: set<Text>): (order: seq<Text>)
    ensures forall k :: k in order <==> k in keys
    ensures |order| == |keys|
    decreases |keys|
  {
    if keys == {} then [] else
      FirstExists(listing, keys);
      FirstUnique(listing, keys);
      var k :| First(listing, k, keys);
      [k] + Ordered(listing, keys - {k})
  }

  predicate Unrepeated(keys: seq<Text>) { forall i, j :: 0 <= i < j < |keys| ==> keys[i] != keys[j] }

  ghost predicate Sorted(listing: bool, keys: seq<Text>) {
    forall i, j :: 0 <= i < j < |keys| ==> Before(listing, keys[i], keys[j])
  }

  lemma SortedFirst(listing: bool, k: Text, rest: seq<Text>)
    requires Sorted(listing, rest) && forall q <- rest :: Before(listing, k, q)
    ensures Sorted(listing, [k] + rest)
  {
    hide Before;
  }

  lemma SortedUnrepeated(listing: bool, keys: seq<Text>)
    requires Sorted(listing, keys)
    ensures Unrepeated(keys)
  {
    forall i, j | 0 <= i < j < |keys| ensures keys[i] != keys[j] {
      BeforeTotal(listing, keys[i], keys[i]);
    }
  }

  lemma {:induction false} OrderedSorts(listing: bool, keys: set<Text>)
    ensures Sorted(listing, Ordered(listing, keys)) && Unrepeated(Ordered(listing, keys))
    decreases |keys|
  {
    hide Before, Sorted, Unrepeated;
    if keys != {} {
      FirstExists(listing, keys);
      FirstUnique(listing, keys);
      var k := Ordered(listing, keys)[0];
      var rest := Ordered(listing, keys - {k});
      assert Ordered(listing, keys) == [k] + rest;
      OrderedSorts(listing, keys - {k});
      SortedFirst(listing, k, rest);
    } else {
      SortedNothing(listing);
    }
    SortedUnrepeated(listing, Ordered(listing, keys));
  }

  lemma SortedNothing(listing: bool)
    ensures Sorted(listing, [])
  {
  }
}
