/** The order of queued Task deliveries: cancellations first, then creation time and identity (gateway.ts). */
module TaskOrder {

  /** An RFC 3339 instant (section 5.6): whole milliseconds, and the digits of the fraction beyond them. */
  datatype Timestamp = Timestamp(ms: int, digits: seq<nat>) {
    predicate Valid() { forall d :: d in digits ==> d < 10 }
  }

  datatype Item = Item(id: string, created: Timestamp, cancellation: bool, revision: nat)

  // ----- comparing timestamps -------------------------------------------------------------------------

  function Pad(digits: seq<nat>, precision: nat): (r: seq<nat>)
    ensures |r| == if |digits| < precision then precision else |digits|
    decreases precision - |digits|
  {
    if |digits| < precision then Pad(digits + [0], precision) else digits
  }

  function Max(a: nat, b: nat): nat { if a < b then b else a }

  /** Text comparison of equally long digit strings. */
  predicate TextLess(a: seq<nat>, b: seq<nat>)
    decreases |a|
  {
    if a == [] || b == [] then a == [] && b != []
    else a[0] < b[0] || (a[0] == b[0] && TextLess(a[1..], b[1..]))
  }

  /** `compareRFC3339Timestamps` is negative. */
  predicate Earlier(a: Timestamp, b: Timestamp) {
    a.ms < b.ms
    || (a.ms == b.ms && var p := Max(|a.digits|, |b.digits|); TextLess(Pad(a.digits, p), Pad(b.digits, p)))
  }

  function Pow10(n: nat): nat { if n == 0 then 1 else 10 * Pow10(n - 1) }

  /** The digits read as a number. */
  function Number(digits: seq<nat>): nat {
    if digits == [] then 0 else digits[0] * Pow10(|digits| - 1) + Number(digits[1..])
  }

  /** The instant in units of ten to the minus `precision` milliseconds. */
  function Instant(t: Timestamp, precision: nat): int
    requires |t.digits| <= precision
  {
    t.ms * Pow10(precision) + Number(Pad(t.digits, precision))
  }

  lemma {:induction false} NumberBound(digits: seq<nat>)
    requires forall d :: d in digits ==> d < 10
    ensures Number(digits) < Pow10(|digits|)
  {
    if digits != [] {
      assert digits[0] in digits;
      assert forall d :: d in digits[1..] ==> d in digits;
      NumberBound(digits[1..]);
      assert digits[0] * Pow10(|digits| - 1) <= 9 * Pow10(|digits| - 1);
    }
  }

  lemma {:induction false} TextIsNumber(a: seq<nat>, b: seq<nat>)
    requires |a| == |b| && (forall d :: d in a ==> d < 10) && forall d :: d in b ==> d < 10
    ensures TextLess(a, b) <==> Number(a) < Number(b)
    ensures a == b <==> Number(a) == Number(b)
  {
    if a != [] {
      var x, y := a[1..], b[1..];
      assert forall d :: d in x ==> d in a;
      assert forall d :: d in y ==> d in b;
      TextIsNumber(x, y);
      NumberBound(x);
      NumberBound(y);
      var p := Pow10(|a| - 1);
      LeadingDigit(a[0], b[0], Number(x), Number(y), p);
      assert a == [a[0]] + x && b == [b[0]] + y;
    }
  }

  lemma LeadingDigit(a: nat, b: nat, x: nat, y: nat, p: nat)
    requires x < p && y < p
    ensures a * p + x < b * p + y <==> a < b || (a == b && x < y)
    ensures a * p + x == b * p + y <==> a == b && x == y
  {
    if a < b {
      assert (a + 1) * p <= b * p;
    } else if b < a {
      assert (b + 1) * p <= a * p;
    }
  }

  lemma {:induction false} PadDigits(digits: seq<nat>, precision: nat)
    requires forall d :: d in digits ==> d < 10
    ensures forall d :: d in Pad(digits, precision) ==> d < 10
    decreases precision - |digits|
  {
    if |digits| < precision {
      PadDigits(digits + [0], precision);
    }
  }

  /** Comparing timestamps is comparing instants, however many fraction digits each was written with. */
  lemma EarlierIsInstant(a: Timestamp, b: Timestamp)
    requires a.Valid() && b.Valid()
    ensures var p := Max(|a.digits|, |b.digits|);
            Earlier(a, b) <==> Instant(a, p) < Instant(b, p)
  {
    var p := Max(|a.digits|, |b.digits|);
    var x, y := Pad(a.digits, p), Pad(b.digits, p);
    PadDigits(a.digits, p);
    PadDigits(b.digits, p);
    TextIsNumber(x, y);
    NumberBound(x);
    NumberBound(y);
    Milliseconds(a.ms, b.ms, Number(x), Number(y), Pow10(p));
  }

  lemma Milliseconds(a: int, b: int, x: nat, y: nat, p: nat)
    requires x < p && y < p
    ensures a * p + x < b * p + y <==> a < b || (a == b && x < y)
  {
    if a < b {
      assert (a + 1) * p <= b * p;
    } else if b < a {
      assert (b + 1) * p <= a * p;
    }
  }

  // ----- comparing deliveries -------------------------------------------------------------------------

  /** Identities in text order. */
  predicate IdLess(a: string, b: string)
    decreases |a|
  {
    if a == [] || b == [] then a == [] && b != []
    else a[0] < b[0] || (a[0] == b[0] && IdLess(a[1..], b[1..]))
  }

  /** `compareTasks` is negative: `a` must stand before `b`. */
  predicate Before(a: Item, b: Item) {
    if a.cancellation != b.cancellation then a.cancellation
    else !a.cancellation
         && (Earlier(a.created, b.created) || (!Earlier(b.created, a.created) && IdLess(a.id, b.id)))
  }

  /** No item has to stand before an earlier one. */
  ghost predicate Sorted(q: seq<Item>) { forall i, j :: 0 <= i < j < |q| ==> !Before(q[j], q[i]) }

  lemma {:induction false} TextLessTotal(a: seq<nat>, b: seq<nat>, c: seq<nat>)
    requires |a| == |b| == |c|
    ensures !TextLess(a, a)
    ensures TextLess(a, b) && TextLess(b, c) ==> TextLess(a, c)
    ensures !TextLess(b, a) && !TextLess(c, b) ==> !TextLess(c, a)
    decreases |a|
  {
    if a != [] {
      TextLessTotal(a[1..], b[1..], c[1..]);
    }
  }

  lemma {:induction false} IdNotLess(a: string)
    ensures !IdLess(a, a)
  {
    if a != [] {
      IdNotLess(a[1..]);
    }
  }

  lemma {:induction false} IdLessTotal(a: string, b: string, c: string)
    ensures IdLess(a, b) && IdLess(b, c) ==> IdLess(a, c)
    ensures !IdLess(b, a) && !IdLess(c, b) ==> !IdLess(c, a)
    decreases |a|
  {
    if a != [] && b != [] && c != [] {
      IdLessTotal(a[1..], b[1..], c[1..]);
    }
  }

  lemma {:induction false} PadAgain(digits: seq<nat>, p: nat, q: nat)
    requires p <= q
    ensures Pad(digits, q) == Pad(Pad(digits, p), q)
    decreases p - |digits|
  {
    if |digits| < p {
      PadAgain(digits + [0], p, q);
    }
  }

  lemma {:induction false} PadSame(a: seq<nat>, b: seq<nat>, p: nat)
    requires |a| == |b|
    ensures TextLess(Pad(a, p), Pad(b, p)) <==> TextLess(a, b)
    decreases p - |a|
  {
    if |a| < p {
      PadSame(a + [0], b + [0], p);
      AppendSame(a, b);
    }
  }

  lemma {:induction false} AppendSame(a: seq<nat>, b: seq<nat>)
    requires |a| == |b|
    ensures TextLess(a + [0], b + [0]) <==> TextLess(a, b)
  {
    if a == [] {
      assert a + [0] == [0] && b + [0] == [0];
      assert [0][1..] == [];
    } else {
      assert (a + [0])[1..] == a[1..] + [0] && (b + [0])[1..] == b[1..] + [0];
      AppendSame(a[1..], b[1..]);
    }
  }

  /** The digits may be compared at any common precision. */
  lemma EarlierAt(a: Timestamp, b: Timestamp, p: nat)
    requires |a.digits| <= p && |b.digits| <= p
    ensures Earlier(a, b) <==> a.ms < b.ms || (a.ms == b.ms && TextLess(Pad(a.digits, p), Pad(b.digits, p)))
  {
    var m := Max(|a.digits|, |b.digits|);
    PadAgain(a.digits, m, p);
    PadAgain(b.digits, m, p);
    PadSame(Pad(a.digits, m), Pad(b.digits, m), p);
  }

  lemma EarlierTotal(a: Timestamp, b: Timestamp, c: Timestamp)
    ensures !Earlier(a, a)
    ensures Earlier(a, b) && Earlier(b, c) ==> Earlier(a, c)
    ensures !Earlier(b, a) && !Earlier(c, b) ==> !Earlier(c, a)
  {
    var p := Max(|a.digits|, Max(|b.digits|, |c.digits|));
    EarlierAt(a, a, p);
    EarlierAt(a, b, p);
    EarlierAt(b, c, p);
    EarlierAt(a, c, p);
    EarlierAt(b, a, p);
    EarlierAt(c, b, p);
    EarlierAt(c, a, p);
    TextLessTotal(Pad(a.digits, p), Pad(b.digits, p), Pad(c.digits, p));
    hide Earlier, TextLess, Pad;
  }

  /** `compareTasks` is consistent: never both ways, and not standing before is transitive. */
  lemma BeforeTotal(a: Item, b: Item, c: Item)
    ensures Before(a, b) ==> !Before(b, a)
    ensures !Before(b, a) && !Before(c, b) ==> !Before(c, a)
  {
    EarlierTotal(a.created, b.created, c.created);
    EarlierTotal(c.created, b.created, a.created);
    EarlierTotal(a.created, b.created, a.created);
    EarlierTotal(b.created, a.created, c.created);
    EarlierTotal(a.created, c.created, b.created);
    EarlierTotal(c.created, a.created, b.created);
    EarlierTotal(b.created, c.created, a.created);
    IdNotLess(a.id);
    IdLessTotal(a.id, b.id, c.id);
    IdLessTotal(a.id, b.id, a.id);
    IdLessTotal(c.id, b.id, a.id);
    hide Earlier, IdLess;
  }

  /** `a` comes before `b` in a dictionary: up to some place they agree, and there `a` has ended or the lower letter. */
  ghost predicate Precedes(a: string, b: string) { exists n: nat :: SplitsAt(a, b, n) }

  predicate SplitsAt(a: string, b: string, n: nat) {
    n <= |a| && n < |b| && a[..n] == b[..n] && (n == |a| || a[n] < b[n])
  }

  lemma {:induction false} PrecedesExactly(a: string, b: string)
    ensures IdLess(a, b) <==> Precedes(a, b)
    decreases |a|
  {
    if a != [] && b != [] {
      PrecedesExactly(a[1..], b[1..]);
      if a[0] == b[0] && IdLess(a[1..], b[1..]) {
        var n: nat :| SplitsAt(a[1..], b[1..], n);
        assert a[..n + 1] == [a[0]] + a[1..][..n] && b[..n + 1] == [b[0]] + b[1..][..n];
        assert SplitsAt(a, b, n + 1);
      } else if a[0] < b[0] {
        assert SplitsAt(a, b, 0);
      }
      forall n: nat | SplitsAt(a, b, n) ensures IdLess(a, b) {
        if n > 0 {
          assert a[0] == a[..n][0] == b[..n][0] == b[0];
          assert a[1..][..n - 1] == a[..n][1..] && b[1..][..n - 1] == b[..n][1..];
          assert SplitsAt(a[1..], b[1..], n - 1);
        }
      }
    } else if b != [] {
      assert SplitsAt(a, b, 0);
    }
  }

  /** Cancellations before assignments, and assignments by the instant of creation and then by identity. */
  lemma BeforeExactly(a: Item, b: Item)
    requires a.created.Valid() && b.created.Valid()
    ensures var p := Max(|a.created.digits|, |b.created.digits|);
            var x, y := Instant(a.created, p), Instant(b.created, p);
            Before(a, b) <==>
            || (a.cancellation && !b.cancellation)
            || (!a.cancellation && !b.cancellation && (x < y || (x == y && Precedes(a.id, b.id))))
  {
    EarlierIsInstant(a.created, b.created);
    EarlierIsInstant(b.created, a.created);
    PrecedesExactly(a.id, b.id);
    hide Earlier, IdLess, Instant, Precedes;
  }

  // ----- sorting --------------------------------------------------------------------------------------

  /** Puts `x` behind everything it does not have to precede. */
  function Insert(q: seq<Item>, x: Item): (r: seq<Item>)
    ensures |r| == |q| + 1 && forall y :: y in r <==> y in q || y == x
  {
    if q == [] || !Before(x, q[|q| - 1]) then q + [x] else Insert(q[..|q| - 1], x) + [q[|q| - 1]]
  }

  /** `queue.sort(compareTasks)`, which keeps the order of equals. */
  function Sort(q: seq<Item>): (r: seq<Item>)
    ensures |r| == |q| && forall y :: y in r <==> y in q
  {
    if q == [] then [] else Insert(Sort(q[..|q| - 1]), q[|q| - 1])
  }

  lemma {:induction false} InsertSorted(q: seq<Item>, x: Item)
    requires Sorted(q)
    ensures Sorted(Insert(q, x))
  {
    if q != [] && Before(x, q[|q| - 1]) {
      var last := q[|q| - 1];
      InsertSorted(q[..|q| - 1], x);
      var r := Insert(q[..|q| - 1], x);
      forall i | 0 <= i < |r| ensures !Before(last, r[i]) {
        assert r[i] in r;
        BeforeTotal(x, last, x);
        if r[i] != x {
          var k :| 0 <= k < |q| - 1 && q[k] == r[i];
        }
      }
      hide Before;
    } else if q != [] {
      forall i | 0 <= i < |q| ensures !Before(x, q[i]) {
        BeforeTotal(q[i], q[|q| - 1], x);
      }
      hide Before;
    }
  }

  lemma {:induction false} SortSorts(q: seq<Item>)
    ensures Sorted(Sort(q))
  {
    if q != [] {
      SortSorts(q[..|q| - 1]);
      InsertSorted(Sort(q[..|q| - 1]), q[|q| - 1]);
    }
  }

  ghost predicate DistinctIds(q: seq<Item>) { forall i, j :: 0 <= i < j < |q| ==> q[i].id != q[j].id }

  lemma {:induction false} InsertDistinct(q: seq<Item>, x: Item)
    requires DistinctIds(q) && forall y :: y in q ==> y.id != x.id
    ensures DistinctIds(Insert(q, x))
  {
    if q != [] && Before(x, q[|q| - 1]) {
      var rest := q[..|q| - 1];
      assert forall y :: y in rest ==> y in q;
      InsertDistinct(rest, x);
      var r := Insert(rest, x);
      hide Before;
      forall i | 0 <= i < |r| ensures r[i].id != q[|q| - 1].id {
        assert r[i] in r;
      }
    }
  }

  lemma {:induction false} SortDistinct(q: seq<Item>)
    requires DistinctIds(q)
    ensures DistinctIds(Sort(q))
  {
    if q != [] {
      var rest := q[..|q| - 1];
      SortDistinct(rest);
      forall y | y in Sort(rest) ensures y.id != q[|q| - 1].id {
        assert y in rest;
      }
      InsertDistinct(Sort(rest), q[|q| - 1]);
    }
  }
}
