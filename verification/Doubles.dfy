/**
  IEEE 754 numbers as bit patterns: which double has a single of the same value, which one is a safe integer, and their
  little-endian bytes (compact-value.ts, `DataView`, `Math.fround` and `Number.isSafeInteger`).
  */
module Doubles {
  import opened Wrappers

  type Bits64 = n: nat | n < 0x1_0000_0000_0000_0000
  type Bits32 = n: nat | n < 0x1_0000_0000

  // ----- the fields of a pattern ----------------------------------------------------------------------

  datatype Parts = Parts(negative: bool, exponent: nat, mantissa: nat)

  predicate Double(p: Parts) { p.exponent < 2048 && p.mantissa < 0x10_0000_0000_0000 }

  predicate Single(p: Parts) { p.exponent < 256 && p.mantissa < 0x80_0000 }

  predicate Finite64(p: Parts) { Double(p) && p.exponent < 2047 }

  predicate Finite32(p: Parts) { Single(p) && p.exponent < 255 }

  function Split64(n: Bits64): (p: Parts)
    ensures Double(p)
  {
    Parts(n >= 0x8000_0000_0000_0000, n / 0x10_0000_0000_0000 % 2048, n % 0x10_0000_0000_0000)
  }

  function Join64(p: Parts): Bits64
    requires Double(p)
  {
    (if p.negative then 0x8000_0000_0000_0000 else 0) + p.exponent * 0x10_0000_0000_0000 + p.mantissa
  }

  function Split32(n: Bits32): (p: Parts)
    ensures Single(p)
  {
    Parts(n >= 0x8000_0000, n / 0x80_0000 % 256, n % 0x80_0000)
  }

  function Join32(p: Parts): Bits32
    requires Single(p)
  {
    (if p.negative then 0x8000_0000 else 0) + p.exponent * 0x80_0000 + p.mantissa
  }

  lemma PartsJoin(p: Parts)
    ensures Double(p) ==> Split64(Join64(p)) == p
    ensures Single(p) ==> Split32(Join32(p)) == p
  {
  }

  lemma PartsSplit(n: Bits64, m: Bits32)
    ensures Join64(Split64(n)) == n && Join32(Split32(m)) == m
  {
  }

  // ----- powers of two --------------------------------------------------------------------------------

  function PowerOfTwo(n: nat): (r: nat)
    ensures r > 0
  {
    if n == 0 then 1 else 2 * PowerOfTwo(n - 1)
  }

  lemma {:induction false} PowerAdds(a: nat, b: nat)
    ensures PowerOfTwo(a + b) == PowerOfTwo(a) * PowerOfTwo(b)
  {
    if a > 0 {
      PowerAdds(a - 1, b);
      assert PowerOfTwo(a + b) == 2 * PowerOfTwo(a - 1 + b);
      assert 2 * (PowerOfTwo(a - 1) * PowerOfTwo(b)) == PowerOfTwo(a) * PowerOfTwo(b);
    }
  }

  lemma KnownPowers()
    ensures PowerOfTwo(23) == 0x80_0000 && PowerOfTwo(29) == 0x2000_0000 && PowerOfTwo(52) == 0x10_0000_0000_0000
  {
    assert PowerOfTwo(10) == 1024;
    PowerAdds(10, 10);
    PowerAdds(10, 13);
    PowerAdds(10, 19);
    PowerAdds(23, 29);
  }

  /** The position of the highest bit. */
  function Top(m: nat): (k: nat)
    requires m > 0
    ensures PowerOfTwo(k) <= m < 2 * PowerOfTwo(k)
  {
    if m == 1 then 0 else Top(m / 2) + 1
  }

  lemma {:induction false} TopUnique(m: nat, k: nat)
    requires PowerOfTwo(k) <= m < 2 * PowerOfTwo(k)
    ensures Top(m) == k
  {
    var t := Top(m);
    if t < k {
      PowerGrows(t + 1, k);
    } else if k < t {
      PowerGrows(k + 1, t);
    }
  }

  lemma {:induction false} PowerGrows(a: nat, b: nat)
    requires a <= b
    ensures PowerOfTwo(a) <= PowerOfTwo(b)
  {
    if a < b { PowerGrows(a, b - 1); }
  }

  // ----- singles and doubles --------------------------------------------------------------------------

  /** The double with the value of a finite single; a subnormal single becomes a normal double. */
  function Widened(p: Parts): (d: Parts)
    requires Single(p)
    ensures Double(d) && (Finite32(p) ==> Finite64(d))
  {
    if p.exponent == 255 then Parts(p.negative, 2047, p.mantissa * 0x2000_0000)
    else if p.exponent > 0 then Parts(p.negative, p.exponent + 896, p.mantissa * 0x2000_0000)
    else if p.mantissa == 0 then p
    else
      SubnormalFits(p.mantissa);
      Parts(p.negative, Top(p.mantissa) + 874, Raised(p.mantissa))
  }

  /** The mantissa of a normal double with the digits of a subnormal single. */
  function Raised(m: nat): int
    requires 0 < m < 0x80_0000
  {
    TopFits(m);
    (m - PowerOfTwo(Top(m))) * PowerOfTwo(52 - Top(m))
  }

  lemma TopFits(m: nat)
    requires 0 < m < 0x80_0000
    ensures Top(m) < 23
  {
    KnownPowers();
    if Top(m) >= 23 { PowerGrows(23, Top(m)); }
  }

  lemma SubnormalFits(m: nat)
    requires 0 < m < 0x80_0000
    ensures Top(m) < 23 && 0 <= Raised(m) < 0x10_0000_0000_0000
  {
    hide PowerOfTwo, Top;
    var k := Top(m);
    KnownPowers();
    TopFits(m);
    PowerAdds(k, 52 - k);
    var spread := PowerOfTwo(52 - k);
    ScaledLess(m - PowerOfTwo(k), PowerOfTwo(k), spread);
  }

  lemma ScaledLess(a: int, b: int, c: nat)
    requires a < b && c > 0
    ensures a * c < b * c
  {
  }

  /** The finite single with the value of a finite double, if there is one: when `Math.fround` changes nothing. */
  function Narrowed(d: Parts): (p: Option<Parts>)
    requires Finite64(d)
    ensures p.Some? ==> Finite32(p.value)
  {
    if 897 <= d.exponent <= 1150 then
      if d.mantissa % 0x2000_0000 != 0 then None
      else Some(Parts(d.negative, d.exponent - 896, d.mantissa / 0x2000_0000))
    else if 874 <= d.exponent <= 896 then
      var k := d.exponent - 874;
      if d.mantissa % PowerOfTwo(52 - k) != 0 then None
      else
        HighFits(d.mantissa, k);
        Some(Parts(d.negative, 0, PowerOfTwo(k) + d.mantissa / PowerOfTwo(52 - k)))
    else if d.exponent == 0 && d.mantissa == 0 then Some(d)
    else None
  }

  lemma HighFits(m: nat, k: nat)
    requires m < 0x10_0000_0000_0000 && k < 23
    ensures m / PowerOfTwo(52 - k) < PowerOfTwo(k) && PowerOfTwo(k) + m / PowerOfTwo(52 - k) < 0x80_0000
  {
    KnownPowers();
    PowerAdds(k, 52 - k);
    Quotient(m, PowerOfTwo(k), PowerOfTwo(52 - k));
    PowerGrows(k + 1, 23);
  }

  lemma Quotient(m: nat, a: nat, b: nat)
    requires b > 0 && m < a * b
    ensures m / b < a
  {
    assert m == b * (m / b) + m % b;
    if m / b >= a { Monotone(m / b, a, b); }
  }

  lemma Monotone(a: nat, b: nat, c: nat)
    requires a >= b
    ensures c * a >= c * b
  {
  }

  /** A double is narrowed exactly when it is a single widened, and to that single. */
  lemma NarrowedExactly(d: Parts, p: Parts)
    requires Finite64(d) && Finite32(p)
    ensures Narrowed(d) == Some(p) <==> Widened(p) == d
  {
    if Narrowed(d) == Some(p) { NarrowedWidens(d); }
    if Widened(p) == d { WidenedNarrows(p); }
  }

  lemma NarrowedWidens(d: Parts)
    requires Finite64(d) && Narrowed(d).Some?
    ensures Widened(Narrowed(d).value) == d
  {
    if 874 <= d.exponent <= 896 {
      var k := d.exponent - 874;
      HighFits(d.mantissa, k);
      TopUnique(PowerOfTwo(k) + d.mantissa / PowerOfTwo(52 - k), k);
      Divides(d.mantissa, PowerOfTwo(52 - k));
    }
  }

  lemma WidenedNarrows(p: Parts)
    requires Finite32(p)
    ensures Narrowed(Widened(p)) == Some(p)
  {
    if p.exponent == 0 && p.mantissa > 0 {
      var k := Top(p.mantissa);
      SubnormalFits(p.mantissa);
      Multiple(p.mantissa - PowerOfTwo(k), PowerOfTwo(52 - k));
    }
  }

  lemma Divides(m: nat, b: nat)
    requires b > 0 && m % b == 0
    ensures m / b * b == m
  {
  }

  lemma Multiple(a: nat, b: nat)
    requires b > 0
    ensures a * b % b == 0 && a * b / b == a
  {
    var q := a * b / b;
    assert a * b == b * q + a * b % b;
    if q > a { Monotone(q, a + 1, b); }
    if q < a { Monotone(a, q + 1, b); }
  }

  // ----- values ---------------------------------------------------------------------------------------

  /** The magnitude of a finite double, in units of the smallest one. */
  function Magnitude64(d: Parts): nat {
    if d.exponent == 0 then d.mantissa else (0x10_0000_0000_0000 + d.mantissa) * PowerOfTwo(d.exponent - 1)
  }

  /** The magnitude of a finite single, in units of the smallest one. */
  function Magnitude32(p: Parts): nat {
    if p.exponent == 0 then p.mantissa else (0x80_0000 + p.mantissa) * PowerOfTwo(p.exponent - 1)
  }

  lemma Shift(x: nat, a: nat, b: nat)
    ensures x * PowerOfTwo(a) * PowerOfTwo(b) == x * PowerOfTwo(a + b)
  {
    PowerAdds(a, b);
    Regroup(x, PowerOfTwo(a), PowerOfTwo(b));
  }

  lemma Regroup(a: nat, b: nat, c: nat)
    ensures a * b * c == a * (b * c)
  {
  }

  /** Widening keeps sign and value, in whatever unit: the smallest single is `2^925` times the smallest double. */
  lemma WidenedKeepsValue(p: Parts, unit: nat)
    requires Finite32(p)
    ensures Widened(p).negative == p.negative
    ensures Magnitude64(Widened(p)) * PowerOfTwo(unit) == Magnitude32(p) * PowerOfTwo(unit + 925)
  {
    hide PowerOfTwo;
    KnownPowers();
    if p.exponent > 0 {
      var m := 0x80_0000 + p.mantissa;
      assert 0x10_0000_0000_0000 + Widened(p).mantissa == m * PowerOfTwo(29);
      Shift(m, 29, p.exponent + 895);
      Shift(m, p.exponent + 924, unit);
      Shift(m, p.exponent - 1, unit + 925);
    } else if p.mantissa > 0 {
      var k := Top(p.mantissa);
      SubnormalFits(p.mantissa);
      assert Magnitude64(Widened(p)) == (PowerOfTwo(52) + (p.mantissa - PowerOfTwo(k)) * PowerOfTwo(52 - k)) * PowerOfTwo(k + 873);
      PowerAdds(k, 52 - k);
      Distribute(PowerOfTwo(k), p.mantissa - PowerOfTwo(k), PowerOfTwo(52 - k));
      Shift(p.mantissa, 52 - k, k + 873);
      Shift(p.mantissa, 925, unit);
    }
  }

  lemma Distribute(a: nat, b: nat, c: nat)
    ensures a * c + b * c == (a + b) * c
  {
  }

  /** The safe integer a finite double stands for, if it is one. */
  function SafeValue(d: Parts): (i: Option<SafeInteger>)
    requires Finite64(d)
  {
    if d.exponent == 0 && d.mantissa == 0 then Some(0)
    else if 1023 <= d.exponent <= 1075 && (0x10_0000_0000_0000 + d.mantissa) % PowerOfTwo(1075 - d.exponent) == 0 then
      var i: int := (0x10_0000_0000_0000 + d.mantissa) / PowerOfTwo(1075 - d.exponent);
      Smaller(0x10_0000_0000_0000 + d.mantissa, PowerOfTwo(1075 - d.exponent));
      Some(if d.negative then -i else i)
    else None
  }

  lemma Smaller(m: nat, b: nat)
    requires b > 0
    ensures m / b <= m
  {
    Quotient(m, m + 1, b) by { Monotone(b, 1, m + 1); }
  }

  /** In whatever unit, the magnitude of a double is the integer `n`: `2^1074` smallest doubles make one. */
  predicate Worth(d: Parts, n: nat, unit: nat) { Magnitude64(d) * PowerOfTwo(unit) == n * PowerOfTwo(unit + 1074) }

  /** A double stands for a safe integer exactly when that is its value. */
  lemma SafeValueMeans(d: Parts, i: SafeInteger, unit: nat)
    requires Finite64(d)
    ensures SafeValue(d) == Some(i) <==>
            Worth(d, if i < 0 then -i else i, unit) && (i < 0 ==> d.negative) && (i > 0 ==> !d.negative)
  {
    hide SafeValue, PowerOfTwo, Worth;
    if SafeValue(d) == Some(i) {
      SafeMagnitude(d, unit);
    }
    if Worth(d, if i < 0 then -i else i, unit) && (i < 0 ==> d.negative) && (i > 0 ==> !d.negative) {
      MagnitudeIsSafe(d, i, unit);
    }
  }

  lemma SafeMagnitude(d: Parts, unit: nat)
    requires Finite64(d) && SafeValue(d).Some?
    ensures var i: int := SafeValue(d).value;
            Worth(d, if i < 0 then -i else i, unit) && (i < 0 ==> d.negative) && (i > 0 ==> !d.negative)
  {
    hide PowerOfTwo;
    if d.exponent > 0 {
      var m, s := 0x10_0000_0000_0000 + d.mantissa, 1075 - d.exponent;
      var q := m / PowerOfTwo(s);
      Divides(m, PowerOfTwo(s));
      Shift(q, s, d.exponent - 1);
      Shift(q, 1074, unit);
    }
  }

  lemma Cancel(a: nat, b: nat, c: nat)
    requires c > 0 && a * c == b * c
    ensures a == b
  {
  }

  lemma MagnitudeIsSafe(d: Parts, i: SafeInteger, unit: nat)
    requires Finite64(d) && Worth(d, if i < 0 then -i else i, unit)
    requires (i < 0 ==> d.negative) && (i > 0 ==> !d.negative)
    ensures SafeValue(d) == Some(i)
  {
    hide PowerOfTwo;
    var n: nat := if i < 0 then -i else i;
    Shift(n, 1074, unit);
    Cancel(Magnitude64(d), n * PowerOfTwo(1074), PowerOfTwo(unit));
    if d.exponent == 0 {
      SmallIsZero(d.mantissa, n, 1074);
    } else if d.exponent > 1075 {
      Shift(0x10_0000_0000_0000 + d.mantissa, d.exponent - 1075, 1074);
      Cancel((0x10_0000_0000_0000 + d.mantissa) * PowerOfTwo(d.exponent - 1075), n, PowerOfTwo(1074));
      EvenPower(d.exponent - 1075);
      Monotone(PowerOfTwo(d.exponent - 1075), 2, 0x10_0000_0000_0000 + d.mantissa);
    } else {
      UnitIs(d, n);
      if d.exponent < 1023 { SmallIsZero(0x10_0000_0000_0000 + d.mantissa, n, 1075 - d.exponent); }
      Multiple(n, PowerOfTwo(1075 - d.exponent));
    }
  }

  lemma UnitIs(d: Parts, n: nat)
    requires 0 < d.exponent <= 1075 && Magnitude64(d) == n * PowerOfTwo(1074)
    ensures 0x10_0000_0000_0000 + d.mantissa == n * PowerOfTwo(1075 - d.exponent)
  {
    hide PowerOfTwo;
    Shift(n, 1075 - d.exponent, d.exponent - 1);
    Cancel(n * PowerOfTwo(1075 - d.exponent), 0x10_0000_0000_0000 + d.mantissa, PowerOfTwo(d.exponent - 1));
  }

  lemma EvenPower(n: nat)
    requires n > 0
    ensures PowerOfTwo(n) >= 2
  {
    PowerGrows(1, n);
  }

  lemma SmallIsZero(m: nat, n: nat, k: nat)
    requires k >= 53 && m < 2 * 0x10_0000_0000_0000 && m == n * PowerOfTwo(k)
    ensures m == 0 && n == 0
  {
    hide PowerOfTwo;
    DoubledPower();
    PowerGrows(53, k);
    Positive(n, PowerOfTwo(k));
  }

  lemma Positive(a: nat, b: nat)
    ensures a > 0 ==> a * b >= b
  {
  }

  lemma DoubledPower()
    ensures PowerOfTwo(53) == 2 * 0x10_0000_0000_0000
  {
    KnownPowers();
    assert PowerOfTwo(53) == 2 * PowerOfTwo(52);
  }

  // ----- bytes ----------------------------------------------------------------------------------------

  /** The `size` little-endian bytes of `n`. */
  function Little(n: nat, size: nat): (b: seq<Byte>)
    ensures |b| == size
  {
    if size == 0 then [] else [n % 256] + Little(n / 256, size - 1)
  }

  function FromLittle(b: seq<Byte>): nat {
    if b == [] then 0 else b[0] + 256 * FromLittle(b[1..])
  }

  /** How many numbers `size` bytes tell apart. */
  function Capacity(size: nat): nat { if size == 0 then 1 else 256 * Capacity(size - 1) }

  lemma {:induction false} LittleFits(b: seq<Byte>)
    ensures FromLittle(b) < Capacity(|b|)
  {
    if b != [] { LittleFits(b[1..]); }
  }

  lemma {:induction false} LittleReads(n: nat, size: nat)
    requires n < Capacity(size)
    ensures FromLittle(Little(n, size)) == n
  {
    if size > 0 {
      LittleReads(n / 256, size - 1);
      assert Little(n, size)[1..] == Little(n / 256, size - 1);
    }
  }
}
