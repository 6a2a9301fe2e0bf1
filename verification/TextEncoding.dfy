/** UTF-8 widened to unpaired surrogates (binary-codec.ts) and JSON string text (compact-value.ts). */
module TextEncoding {
  import opened Wrappers
  import opened Json

  type Bytes = seq<Byte>

  predicate High(u: nat) { 0xd800 <= u <= 0xdbff }

  predicate Low(u: nat) { 0xdc00 <= u <= 0xdfff }

  predicate Paired(s: Text) { |s| >= 2 && High(s[0]) && Low(s[1]) }

  /** How many code units the first code point takes. */
  function Width(s: Text): (n: nat)
    requires s != []
    ensures 1 <= n <= |s|
  {
    if Paired(s) then 2 else 1
  }

  function PairPoint(high: nat, low: nat): (cp: nat)
    requires High(high) && Low(low)
    ensures 0x10000 <= cp < 0x110000
  {
    0x10000 + (high - 0xd800) * 0x400 + (low - 0xdc00)
  }

  /** The first code point; an unpaired surrogate stands for itself. */
  function CodePoint(s: Text): (cp: nat)
    requires s != []
    ensures cp < 0x110000
  {
    if Paired(s) then PairPoint(s[0], s[1]) else s[0]
  }

  /** The bytes of one code point (section 3 of RFC 3629). */
  function Encoded(cp: nat): (b: Bytes)
    requires cp < 0x110000
    ensures 1 <= |b| <= 4
  {
    if cp <= 0x7f then [cp]
    else if cp <= 0x7ff then [0xc0 + cp / 0x40, 0x80 + cp % 0x40]
    else if cp <= 0xffff then [0xe0 + cp / 0x1000, 0x80 + cp / 0x40 % 0x40, 0x80 + cp % 0x40]
    else [0xf0 + cp / 0x40000, 0x80 + cp / 0x1000 % 0x40, 0x80 + cp / 0x40 % 0x40, 0x80 + cp % 0x40]
  }

  function Utf8(s: Text): Bytes
    decreases |s|
  {
    if s == [] then [] else Encoded(CodePoint(s)) + Utf8(s[Width(s)..])
  }

  lemma Utf8Step(s: Text)
    requires s != []
    ensures Utf8(s) == Encoded(CodePoint(s)) + Utf8(s[Width(s)..])
  {
  }

  lemma Associates(a: Bytes, b: Bytes, c: Bytes)
    ensures a + (b + c) == (a + b) + c
  {
  }

  /** `encodeBinaryUtf8` */
  method EncodeBinaryUtf8(s: Text) returns (output: Bytes)
    ensures output == Utf8(s)
  {
    hide PairPoint, Encoded, Utf8;
    output := [];
    var i := 0;
    assert s[0..] == s && [] + Utf8(s) == Utf8(s);
    while i < |s|
      invariant 0 <= i <= |s| && output + Utf8(s[i..]) == Utf8(s)
    {
      var first := s[i];
      var cp: nat := first;
      var width := 1;
      if 0xd800 <= first <= 0xdbff && i + 1 < |s| && 0xdc00 <= s[i + 1] <= 0xdfff {
        cp := PairPoint(first, s[i + 1]);
        width := 2;
      }
      assert CodePoint(s[i..]) == cp && Width(s[i..]) == width;
      Rest(s, i, width);
      Utf8Step(s[i..]);
      Associates(output, Encoded(cp), Utf8(s[i + width..]));
      output := output + Encoded(cp);
      i := i + width;
    }
    Utf8Nothing(output, s[i..]);
  }

  lemma Utf8Nothing(output: Bytes, s: Text)
    requires s == []
    ensures output + Utf8(s) == output
  {
  }

  lemma Rest<T>(s: seq<T>, i: nat, n: nat)
    requires i + n <= |s|
    ensures s[i..][n..] == s[i + n..]
  {
  }

  predicate Continuation(b: Byte) { 0x80 <= b <= 0xbf }

  // A decoded code point and the number of bytes it took.
  datatype Piece = Piece(text: Text, width: nat)

  /** The code units of a code point. */
  function UnitsOf(cp: nat): Text
    requires cp < 0x110000
  {
    if cp < 0x10000 then [cp] else [0xd800 + (cp - 0x10000) / 0x400, 0xdc00 + (cp - 0x10000) % 0x400]
  }

  /** The payload bits of a lead byte of the given modulus and of the continuation bytes after it. */
  function Join2(a: nat, b: nat): nat { a % 0x20 * 0x40 + b % 0x40 }

  function Join3(a: nat, b: nat, c: nat): nat { a % 0x10 * 0x1000 + b % 0x40 * 0x40 + c % 0x40 }

  function Join4(a: nat, b: nat, c: nat, d: nat): nat { a % 0x08 * 0x40000 + b % 0x40 * 0x1000 + c % 0x40 * 0x40 + d % 0x40 }

  predicate Lead4(a: nat, b: nat) {
    0xf0 <= a <= 0xf4 && 0x80 <= b <= 0xbf && !(a == 0xf0 && b < 0x90) && !(a == 0xf4 && b > 0x8f)
  }

  lemma Join4Range(a: nat, b: nat, c: nat, d: nat)
    requires Lead4(a, b)
    ensures 0x10000 <= Join4(a, b, c, d) < 0x110000
  {
  }

  /** One turn of the decoding loop. */
  function DecodePiece(b: Bytes): (p: Option<Piece>)
    requires b != []
    ensures p.Some? ==> 1 <= p.value.width <= |b|
  {
    if b[0] <= 0x7f then Some(Piece([b[0]], 1))
    else if 0xc2 <= b[0] <= 0xdf then
      if |b| < 2 || !Continuation(b[1]) then None
      else Some(Piece([Join2(b[0], b[1])], 2))
    else if 0xe0 <= b[0] <= 0xef then
      if |b| < 3 || !Continuation(b[1]) || (b[0] == 0xe0 && b[1] < 0xa0) || !Continuation(b[2]) then None
      else Some(Piece([Join3(b[0], b[1], b[2])], 3))
    else if 0xf0 <= b[0] <= 0xf4 then
      if |b| < 4 || !Lead4(b[0], b[1]) || !Continuation(b[2]) || !Continuation(b[3]) then None
      else
        Join4Range(b[0], b[1], b[2], b[3]);
        Some(Piece(UnitsOf(Join4(b[0], b[1], b[2], b[3])), 4))
    else None
  }

  function FromUtf8(b: Bytes): Option<Text>
    decreases |b|
  {
    if b == [] then Some([]) else
      match DecodePiece(b)
      case None => None
      case Some(p) =>
        match FromUtf8(b[p.width..])
        case None => None
        case Some(rest) => Some(p.text + rest)
  }

  lemma FromNothing(b: Bytes)
    ensures FromUtf8(b) == match FromUtf8(b) { case None => None case Some(rest) => Some([] + rest) }
  {
    if FromUtf8(b).Some? {
      assert [] + FromUtf8(b).value == FromUtf8(b).value;
    }
  }

  /** `decodeBinaryUtf8`; `None` stands for its exception. */
  method DecodeBinaryUtf8(b: Bytes) returns (r: Option<Text>)
    ensures r == FromUtf8(b)
  {
    hide DecodePiece;
    var output := [];
    var i := 0;
    assert b[0..] == b;
    FromNothing(b);
    while i < |b|
      invariant 0 <= i <= |b|
      invariant FromUtf8(b) ==
                match FromUtf8(b[i..]) { case None => None case Some(rest) => Some(output + rest) }
    {
      var p := DecodePiece(b[i..]);
      if p.None? { return None; }
      Rest(b, i, p.value.width);
      var rest := FromUtf8(b[i + p.value.width..]);
      if rest.Some? {
        assert output + (p.value.text + rest.value) == (output + p.value.text) + rest.value;
      }
      output := output + p.value.text;
      i := i + p.value.width;
    }
    assert b[i..] == [] && output + [] == output;
    return Some(output);
  }

  lemma Encoded2(cp: nat)
    requires 0x80 <= cp <= 0x7ff
    ensures 0xc2 <= 0xc0 + cp / 0x40 <= 0xdf && 0x80 <= 0x80 + cp % 0x40 <= 0xbf
    ensures Join2(0xc0 + cp / 0x40, 0x80 + cp % 0x40) == cp
  {
  }

  lemma Encoded3(cp: nat)
    requires 0x800 <= cp <= 0xffff
    ensures 0xe0 <= 0xe0 + cp / 0x1000 <= 0xef && 0x80 <= 0x80 + cp / 0x40 % 0x40 <= 0xbf
    ensures 0x80 <= 0x80 + cp % 0x40 <= 0xbf && (cp / 0x1000 == 0 ==> cp / 0x40 % 0x40 >= 0x20)
    ensures Join3(0xe0 + cp / 0x1000, 0x80 + cp / 0x40 % 0x40, 0x80 + cp % 0x40) == cp
  {
    assert (0xe0 + cp / 0x1000) % 0x10 == cp / 0x1000;
    assert cp / 0x40 == cp / 0x1000 * 0x40 + cp / 0x40 % 0x40;
  }

  lemma Encoded4(cp: nat)
    requires 0x10000 <= cp < 0x110000
    ensures Lead4(0xf0 + cp / 0x40000, 0x80 + cp / 0x1000 % 0x40)
    ensures 0x80 <= 0x80 + cp / 0x40 % 0x40 <= 0xbf && 0x80 <= 0x80 + cp % 0x40 <= 0xbf
    ensures Join4(0xf0 + cp / 0x40000, 0x80 + cp / 0x1000 % 0x40, 0x80 + cp / 0x40 % 0x40, 0x80 + cp % 0x40) == cp
  {
    assert (0xf0 + cp / 0x40000) % 0x08 == cp / 0x40000;
    assert cp / 0x1000 == cp / 0x40000 * 0x40 + cp / 0x1000 % 0x40;
    assert cp / 0x40 == cp / 0x1000 * 0x40 + cp / 0x40 % 0x40;
  }

  lemma EncodedDecodes(cp: nat, rest: Bytes)
    requires cp < 0x110000
    ensures DecodePiece(Encoded(cp) + rest) == Some(Piece(UnitsOf(cp), |Encoded(cp)|))
  {
    hide Join2, Join3, Join4, Lead4;
    var b := Encoded(cp) + rest;
    assert forall i :: 0 <= i < |Encoded(cp)| ==> b[i] == Encoded(cp)[i];
    if cp <= 0x7f {
    } else if cp <= 0x7ff {
      Encoded2(cp);
    } else if cp <= 0xffff {
      Encoded3(cp);
    } else {
      Encoded4(cp);
    }
  }

  lemma UnitsBack(s: Text)
    requires s != []
    ensures UnitsOf(CodePoint(s)) == s[..Width(s)]
  {
  }

  /** Every string survives, unpaired surrogates included. */
  lemma {:induction false} Utf8RoundTrip(s: Text)
    ensures FromUtf8(Utf8(s)) == Some(s)
    decreases |s|
  {
    if s != [] {
      var cp, n := CodePoint(s), Width(s);
      EncodedDecodes(cp, Utf8(s[n..]));
      UnitsBack(s);
      Utf8RoundTrip(s[n..]);
      assert (Encoded(cp) + Utf8(s[n..]))[|Encoded(cp)|..] == Utf8(s[n..]);
      assert s == s[..n] + s[n..];
    }
  }

  /** Encoding a concatenation, unless the seam would pair two surrogates. */
  lemma {:induction false} Utf8Joins(a: Text, b: Text)
    requires a != [] && b != [] && High(a[|a| - 1]) ==> !Low(b[0])
    ensures Utf8(a + b) == Utf8(a) + Utf8(b)
    decreases |a|
  {
    hide CodePoint, Encoded, Utf8, Width;
    if a == [] {
      assert a + b == b && [] + Utf8(b) == Utf8(b);
      Utf8Nothing([], a);
    } else {
      SameStart(a, b);
      var n := Width(a);
      assert (a + b)[n..] == a[n..] + b;
      assert a[n..] != [] ==> a[n..][|a[n..]| - 1] == a[|a| - 1];
      Utf8Joins(a[n..], b);
      Utf8Step(a + b);
      Utf8Step(a);
      Associates(Encoded(CodePoint(a)), Utf8(a[n..]), Utf8(b));
    }
  }

  lemma SameStart(a: Text, b: Text)
    requires a != [] && (b != [] && High(a[|a| - 1]) ==> !Low(b[0]))
    ensures Width(a + b) == Width(a) && CodePoint(a + b) == CodePoint(a)
  {
    assert (a + b)[0] == a[0];
    if |a| >= 2 {
      assert (a + b)[1] == a[1];
    } else if b != [] {
      assert (a + b)[1] == b[0];
    }
  }

  // ----- JSON string text (section 7 of RFC 8259) ------------------------------------------------------

  function HexDigit(n: nat): (u: Unit)
    requires n < 16
    ensures 0x30 <= u <= 0x66
  {
    if n < 10 then 0x30 + n else 0x61 + n - 10
  }

  /** A backslash, a `u` and four hexadecimal digits. */
  function HexEscape(u: Unit): Text {
    [0x5c, 0x75, HexDigit(u / 0x1000), HexDigit(u / 0x100 % 0x10), HexDigit(u / 0x10 % 0x10), HexDigit(u % 0x10)]
  }

  /** How `JSON.stringify` writes the first code point of a string. */
  function EscapedFirst(s: Text): Text
    requires s != []
  {
    var u := s[0];
    if u == 0x22 || u == 0x5c then [0x5c, u]
    else if u == 0x08 then [0x5c, 0x62]
    else if u == 0x09 then [0x5c, 0x74]
    else if u == 0x0a then [0x5c, 0x6e]
    else if u == 0x0c then [0x5c, 0x66]
    else if u == 0x0d then [0x5c, 0x72]
    else if u < 0x20 then HexEscape(u)
    else if Paired(s) then s[..2]
    else if High(u) || Low(u) then HexEscape(u)
    else [u]
  }

  function Escaped(s: Text): Text
    decreases |s|
  {
    if s == [] then [] else EscapedFirst(s) + Escaped(s[Width(s)..])
  }

  /** The canonical JSON text of a string, in UTF-8. */
  function JsonString(s: Text): Bytes { Utf8([0x22] + Escaped(s) + [0x22]) }

  lemma {:induction false} EscapedStart(s: Text)
    ensures s != [] ==> Escaped(s) != [] && !Low(Escaped(s)[0])
  {
    if s != [] && Paired(s) {
      assert EscapedFirst(s)[0] == s[0];
    }
  }

  lemma {:induction false} Ascii(s: Text)
    requires forall i :: 0 <= i < |s| ==> s[i] <= 0x7f
    ensures |Utf8(s)| == |s|
    decreases |s|
  {
    if s != [] {
      Ascii(s[1..]);
    }
  }

  function EscapedCost(s: Text): nat
    requires s != []
  {
    var u := s[0];
    if u == 0x22 || u == 0x5c || u == 0x08 || u == 0x09 || u == 0x0a || u == 0x0c || u == 0x0d then 2
    else if u <= 0x1f then 6
    else if Paired(s) then 4
    else if High(u) || Low(u) then 6
    else |Encoded(u)|
  }

  lemma FirstCost(s: Text)
    requires s != []
    ensures |Utf8(EscapedFirst(s))| == EscapedCost(s)
    ensures !High(EscapedFirst(s)[|EscapedFirst(s)| - 1])
  {
    var e := EscapedFirst(s);
    if Paired(s) {
      assert e == s[..2] && e[2..] == [] && CodePoint(e) == CodePoint(s);
      assert Utf8(e) == Encoded(CodePoint(e)) + Utf8(e[2..]);
    } else if e == [s[0]] {
      assert e[1..] == [];
      assert Utf8(e) == Encoded(s[0]) + Utf8(e[1..]);
    } else {
      Ascii(e);
    }
  }

  lemma EscapedBytes(s: Text)
    requires s != []
    ensures |Utf8(Escaped(s))| == EscapedCost(s) + |Utf8(Escaped(s[Width(s)..]))|
  {
    FirstCost(s);
    EscapedStart(s[Width(s)..]);
    Utf8Joins(EscapedFirst(s), Escaped(s[Width(s)..]));
  }

  lemma {:induction false} QuotedBytes(s: Text)
    ensures |JsonString(s)| == 2 + |Utf8(Escaped(s))|
  {
    EscapedStart(s);
    Utf8Joins([0x22] + Escaped(s), [0x22]);
    Utf8Joins([0x22], Escaped(s));
    Ascii([0x22]);
  }

  /** `utf8Bytes` */
  function Utf8Bytes(cp: nat): nat {
    if cp <= 0x7f then 1 else if cp <= 0x7ff then 2 else if cp <= 0xffff then 3 else 4
  }

  lemma EncodedSize(cp: nat)
    requires cp < 0x110000
    ensures |Encoded(cp)| == Utf8Bytes(cp)
  {
  }

  /** `canonicalJSONStringBytes`: the length of the canonical text, without building it. */
  method CanonicalJSONStringBytes(s: Text) returns (bytes: nat)
    ensures bytes == |JsonString(s)|
  {
    hide PairPoint, Utf8, Escaped, Encoded, JsonString;
    bytes := 2;
    QuotedBytes(s);
    assert s[0..] == s;
    var i := 0;
    while i < |s|
      invariant 0 <= i <= |s|
      invariant bytes + |Utf8(Escaped(s[i..]))| == |JsonString(s)|
    {
      var u := s[i];
      EscapedBytes(s[i..]);
      EncodedSize(u);
      assert Paired(s[i..]) <==> High(u) && i + 1 < |s| && Low(s[i + 1]);
      Rest(s, i, Width(s[i..]));
      if u == 0x22 || u == 0x5c {
        bytes := bytes + 2;
      } else if u == 0x08 || u == 0x09 || u == 0x0a || u == 0x0c || u == 0x0d {
        bytes := bytes + 2;
      } else if u <= 0x1f {
        bytes := bytes + 6;
      } else if 0xd800 <= u <= 0xdbff {
        if i + 1 < |s| && 0xdc00 <= s[i + 1] <= 0xdfff {
          bytes := bytes + Utf8Bytes(PairPoint(u, s[i + 1]));
          i := i + 1;
        } else {
          bytes := bytes + 6;
        }
      } else if 0xdc00 <= u <= 0xdfff {
        bytes := bytes + 6;
      } else {
        bytes := bytes + Utf8Bytes(u);
      }
      i := i + 1;
    }
    EscapedNothing(s[i..]);
  }

  lemma EscapedNothing(s: Text)
    requires s == []
    ensures |Utf8(Escaped(s))| == 0
  {
  }
}
