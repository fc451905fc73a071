/** Doubles as index keys: HB_DBL2ORD turns the eight bytes of an IEEE 754 binary64 number into
    eight bytes that compare as the numbers do, HB_ORD2DBL turns them back (little-endian). */
module DoubleKeys {
  import opened Values
  import opened Codec

  // ---------------------------------------------------------------- binary64

  /** The numbers of section 3.4 of IEEE 754-2008. */
  datatype Number = Finite(r: real) | PosInf | NegInf | NotANumber

  const TWO52 := 0x10_0000_0000_0000
  const TWO63 := 0x8000_0000_0000_0000
  const EXPONENTS := 2047

  /** The bytes of a double in memory, lowest first. */
  type Double = d: seq<byte> | |d| == 8 witness [0, 0, 0, 0, 0, 0, 0, 0]

  predicate Negative(d: Double) {
    d[7] >= 128
  }

  function Exponent(d: Double): nat {
    (d[7] as int % 128) * 16 + d[6] as int / 16
  }

  function Fraction(d: Double): nat {
    (d[6] as int % 16) * 0x1_0000_0000_0000 + GetLE(d[..6])
  }

  /** x times 2 to the power k. */
  function Scale(x: real, k: int): real
    decreases if k < 0 then -k else k
  {
    if k == 0 then x else if k > 0 then Scale(2.0 * x, k - 1) else Scale(x / 2.0, k + 1)
  }

  /** Subnormal numbers have no hidden bit and the exponent of the smallest normal ones. */
  function Magnitude(exponent: nat, fraction: nat): real {
    if exponent == 0 then Scale(fraction as real, -1074) else Scale((TWO52 + fraction) as real, exponent - 1075)
  }

  function Value(d: Double): Number {
    var e, f := Exponent(d), Fraction(d);
    if e == EXPONENTS then
      if f != 0 then NotANumber else if Negative(d) then NegInf else PosInf
    else Finite(if Negative(d) then -Magnitude(e, f) else Magnitude(e, f))
  }

  predicate Less(a: Number, b: Number) {
    match (a, b)
    case (NegInf, Finite(_)) => true
    case (NegInf, PosInf) => true
    case (Finite(_), PosInf) => true
    case (Finite(x), Finite(y)) => x < y
    case _ => false
  }

  /** `d >= 0.0`, which holds of both zeros. */
  predicate AtLeastZero(a: Number) {
    a.PosInf? || (a.Finite? && a.r >= 0.0)
  }

  // ---------------------------------------------------------------- the two conversions

  function FlipTop(b: byte): byte {
    (b as int + 128) % 256
  }

  function Complement(b: byte): byte {
    255 - b
  }

  function Reverse(s: seq<byte>): (r: seq<byte>)
    ensures |r| == |s|
  {
    if s == [] then [] else Reverse(s[1..]) + [s[0]]
  }

  function ComplementAll(s: seq<byte>): (r: seq<byte>)
    ensures |r| == |s|
    ensures forall i :: 0 <= i < |s| ==> r[i] == Complement(s[i])
  {
    seq(|s|, i requires 0 <= i < |s| => Complement(s[i]))
  }

  const ZERO: Double := [0, 0, 0, 0, 0, 0, 0, 0]

  /** A negative zero is first made positive. */
  function Normal(d: Double): Double {
    if Value(d) == Finite(0.0) then ZERO else d
  }

  function Dbl2Ord(d: Double): (o: seq<byte>)
    ensures |o| == 8
  {
    if AtLeastZero(Value(d)) then
      var n := Normal(d);
      [FlipTop(n[7]), n[6], n[5], n[4], n[3], n[2], n[1], n[0]]
    else
      [Complement(d[7]), Complement(d[6]), Complement(d[5]), Complement(d[4]),
       Complement(d[3]), Complement(d[2]), Complement(d[1]), Complement(d[0])]
  }

  function Ord2Dbl(o: seq<byte>): Double
    requires |o| == 8
  {
    if o[0] >= 128 then [o[7], o[6], o[5], o[4], o[3], o[2], o[1], FlipTop(o[0])]
    else [Complement(o[7]), Complement(o[6]), Complement(o[5]), Complement(o[4]),
          Complement(o[3]), Complement(o[2]), Complement(o[1]), Complement(o[0])]
  }

  /** HB_DBL2ORD( d, o ).  The number itself is changed when it is a negative zero. */
  method PutOrd(d: array<byte>, o: array<byte>)
    requires d.Length == 8 && o.Length == 8 && d != o
    modifies d, o
    ensures o[..] == Dbl2Ord(old(d[..]))
    ensures d[..] == Normal(old(d[..]))
  {
    ghost var was: Double := d[..];
    if AtLeastZero(Value(d[..])) {
      if Value(d[..]) == Finite(0.0) {
        d[0], d[1], d[2], d[3], d[4], d[5], d[6], d[7] := 0, 0, 0, 0, 0, 0, 0, 0;
      }
      assert d[..] == Normal(was);
      o[0] := FlipTop(d[7]);
      o[1] := d[6];
      o[2] := d[5];
      o[3] := d[4];
      o[4] := d[3];
      o[5] := d[2];
      o[6] := d[1];
      o[7] := d[0];
    } else {
      o[0] := Complement(d[7]);
      o[1] := Complement(d[6]);
      o[2] := Complement(d[5]);
      o[3] := Complement(d[4]);
      o[4] := Complement(d[3]);
      o[5] := Complement(d[2]);
      o[6] := Complement(d[1]);
      o[7] := Complement(d[0]);
    }
  }

  /** HB_ORD2DBL( o, d ) */
  method GetOrd(o: array<byte>, d: array<byte>)
    requires d.Length == 8 && o.Length == 8 && d != o
    modifies d
    ensures d[..] == Ord2Dbl(o[..])
  {
    if o[0] >= 128 {
      d[0] := o[7];
      d[1] := o[6];
      d[2] := o[5];
      d[3] := o[4];
      d[4] := o[3];
      d[5] := o[2];
      d[6] := o[1];
      d[7] := FlipTop(o[0]);
    } else {
      d[0] := Complement(o[7]);
      d[1] := Complement(o[6]);
      d[2] := Complement(o[5]);
      d[3] := Complement(o[4]);
      d[4] := Complement(o[3]);
      d[5] := Complement(o[2]);
      d[6] := Complement(o[1]);
      d[7] := Complement(o[0]);
    }
  }

  // ---------------------------------------------------------------- keys compare bytewise

  predicate LexLess(a: seq<byte>, b: seq<byte>) {
    if a == [] || b == [] then |a| < |b|
    else a[0] < b[0] || (a[0] == b[0] && LexLess(a[1..], b[1..]))
  }

  lemma {:induction false} LexIsNumeric(a: seq<byte>, b: seq<byte>)
    requires |a| == |b|
    ensures LexLess(a, b) <==> GetBE(a) < GetBE(b)
    ensures a == b <==> GetBE(a) == GetBE(b)
  {
    if a != [] {
      LexIsNumeric(a[1..], b[1..]);
      HeadWeight(a);
      HeadWeight(b);
      var p := Pow256(|a| - 1);
      HeadDecides(a[0] as int, b[0] as int, p, GetBE(a[1..]), GetBE(b[1..]));
      assert a == [a[0]] + a[1..] && b == [b[0]] + b[1..];
    }
  }

  lemma HeadWeight(s: seq<byte>)
    requires s != []
    ensures GetBE(s) == Pow256(|s| - 1) * (s[0] as int) + GetBE(s[1..])
    ensures GetBE(s[1..]) < Pow256(|s| - 1)
  {
    BESplit(s, 1);
    assert GetBE(s[..1]) == s[0] as int;
    BEBound(s[1..]);
  }

  lemma {:induction false} BEBound(s: seq<byte>)
    ensures GetBE(s) < Pow256(|s|)
  {
    if s != [] { BEBound(s[..|s| - 1]); }
  }

  lemma HeadDecides(x: nat, y: nat, p: nat, u: nat, v: nat)
    requires u < p && v < p
    ensures p * x + u < p * y + v <==> x < y || (x == y && u < v)
    ensures p * x + u == p * y + v <==> x == y && u == v
  {
    if x < y { assert p * y >= p * (x + 1) == p * x + p; }
    if y < x { assert p * x >= p * (y + 1) == p * y + p; }
  }

  // ---------------------------------------------------------------- the magnitude as an integer

  /** Exponent and fraction side by side. */
  function Bits(d: Double): nat {
    Exponent(d) * TWO52 + Fraction(d)
  }

  lemma BitsOf(d: Double)
    ensures GetLE(d) == (if Negative(d) then TWO63 else 0) + Bits(d)
    ensures Bits(d) < TWO63 && Exponent(d) <= EXPONENTS && Fraction(d) < TWO52
  {
    LESplit(d, 6);
    var hi := d[6..];
    Get2(hi);
    GetBound(d[..6]);
    Pow6();
    var a, b := d[6] as int, d[7] as int;
    assert a == 16 * (a / 16) + a % 16;
    assert b == (if b >= 128 then 128 else 0) + b % 128;
  }

  lemma Pow6()
    ensures Pow256(6) == 0x1_0000_0000_0000
  {
    Widths();
    assert Pow256(5) == 256 * Pow256(4);
  }

  function Pow2(k: nat): (p: nat)
    ensures p > 0
  {
    if k == 0 then 1 else 2 * Pow2(k - 1)
  }

  /** The magnitude in units of the smallest subnormal number. */
  function Units(bits: nat): nat {
    var e, f := bits / TWO52, bits % TWO52;
    if e == 0 then f else (TWO52 + f) * Pow2(e - 1)
  }

  /** The next bit pattern is the next larger number, across subnormals and exponent boundaries. */
  lemma UnitsStep(bits: nat)
    ensures Units(bits) < Units(bits + 1)
  {
    var e, f := bits / TWO52, bits % TWO52;
    if f + 1 < TWO52 {
      assert (bits + 1) / TWO52 == e && (bits + 1) % TWO52 == f + 1;
      if e > 0 {
        assert (TWO52 + f + 1) * Pow2(e - 1) == (TWO52 + f) * Pow2(e - 1) + Pow2(e - 1);
      }
    } else {
      assert (bits + 1) / TWO52 == e + 1 && (bits + 1) % TWO52 == 0;
      if e > 0 {
        var p := Pow2(e - 1);
        assert Pow2(e) == 2 * p;
        assert (TWO52 + f) * p == (2 * TWO52 - 1) * p == 2 * TWO52 * p - p;
        assert TWO52 * (2 * p) == 2 * TWO52 * p;
      }
    }
  }

  lemma {:induction false} UnitsIncrease(a: nat, b: nat)
    requires a < b
    ensures Units(a) < Units(b)
    decreases b - a
  {
    hide Units;
    if a + 1 < b { UnitsIncrease(a, b - 1); }
    UnitsStep(b - 1);
  }

  lemma ScaleStep(x: real, k: int)
    ensures Scale(x, k + 1) == Scale(2.0 * x, k)
  {
    if k < 0 { assert 2.0 * x / 2.0 == x; }
  }

  lemma {:induction false} ScaleBy(x: nat, k: int, n: nat)
    ensures Scale(x as real, k + n) == Scale((x * Pow2(n)) as real, k)
    decreases n
  {
    hide Scale;
    if n > 0 {
      ScaleStep(x as real, k + n - 1);
      assert 2.0 * (x as real) == (2 * x) as real;
      ScaleBy(2 * x, k, n - 1);
      assert 2 * x * Pow2(n - 1) == x * Pow2(n);
    }
  }

  lemma {:induction false} ScaleMonotone(x: real, y: real, k: int)
    ensures Scale(x, k) < Scale(y, k) <==> x < y
    decreases if k < 0 then -k else k
  {
    if k > 0 { ScaleMonotone(2.0 * x, 2.0 * y, k - 1); }
    if k < 0 { ScaleMonotone(x / 2.0, y / 2.0, k + 1); }
  }

  lemma {:induction false} ScaleZero(k: int)
    ensures Scale(0.0, k) == 0.0
    decreases if k < 0 then -k else k
  {
    if k > 0 { ScaleZero(k - 1); }
    if k < 0 { ScaleZero(k + 1); }
  }

  lemma MagnitudeIsUnits(d: Double)
    ensures Magnitude(Exponent(d), Fraction(d)) == Scale(Units(Bits(d)) as real, -1074)
  {
    hide Scale;
    BitsOf(d);
    var e, f := Exponent(d), Fraction(d);
    assert Bits(d) / TWO52 == e && Bits(d) % TWO52 == f;
    if e > 0 { ScaleBy(TWO52 + f, -1074, e - 1); }
  }

  /** Magnitudes compare as bit patterns, and only zero has magnitude 0. */
  lemma MagnitudeOrder(a: Double, b: Double)
    ensures var x, y := Magnitude(Exponent(a), Fraction(a)), Magnitude(Exponent(b), Fraction(b));
      && (x < y <==> Bits(a) < Bits(b)) && (x == y <==> Bits(a) == Bits(b))
      && x >= 0.0 && (x == 0.0 <==> Bits(a) == 0)
  {
    hide Scale, Units, Bits, Magnitude;
    MagnitudeIsUnits(a);
    MagnitudeIsUnits(b);
    var u, v := Units(Bits(a)), Units(Bits(b));
    ScaleMonotone(u as real, v as real, -1074);
    ScaleMonotone(v as real, u as real, -1074);
    ScaleMonotone(0.0, u as real, -1074);
    ScaleMonotone(u as real, 0.0, -1074);
    ScaleZero(-1074);
    if Bits(a) < Bits(b) { UnitsIncrease(Bits(a), Bits(b)); }
    if Bits(b) < Bits(a) { UnitsIncrease(Bits(b), Bits(a)); }
    UnitsZero();
    if Bits(a) > 0 { UnitsIncrease(0, Bits(a)); }
  }

  lemma UnitsZero()
    ensures Units(0) == 0
  {
  }

  // ---------------------------------------------------------------- the key as an integer

  lemma {:induction false} ReverseNumber(s: seq<byte>)
    ensures GetBE(Reverse(s)) == GetLE(s)
  {
    if s != [] {
      ReverseNumber(s[1..]);
      assert Reverse(s)[..|s| - 1] == Reverse(s[1..]);
    }
  }

  lemma Reverse8(d: Double)
    ensures Reverse(d) == [d[7], d[6], d[5], d[4], d[3], d[2], d[1], d[0]]
  {
    assert Reverse(d[6..]) == [d[7], d[6]] by { ReverseTwo(d[6..]); }
    assert d[5..][1..] == d[6..] && Reverse(d[5..]) == [d[7], d[6], d[5]];
    assert d[4..][1..] == d[5..] && Reverse(d[4..]) == [d[7], d[6], d[5], d[4]];
    assert d[3..][1..] == d[4..] && Reverse(d[3..]) == [d[7], d[6], d[5], d[4], d[3]];
    assert d[2..][1..] == d[3..] && Reverse(d[2..]) == [d[7], d[6], d[5], d[4], d[3], d[2]];
    assert d[1..][1..] == d[2..] && Reverse(d[1..]) == [d[7], d[6], d[5], d[4], d[3], d[2], d[1]];
  }

  lemma ReverseTwo(s: seq<byte>)
    requires |s| == 2
    ensures Reverse(s) == [s[1], s[0]]
  {
    assert Reverse(s[1..]) == [s[1]];
  }

  lemma {:induction false} ComplementNumber(s: seq<byte>)
    ensures GetBE(ComplementAll(s)) == Pow256(|s|) - 1 - GetBE(s)
  {
    if s != [] {
      var n := |s| - 1;
      ComplementNumber(s[..n]);
      assert ComplementAll(s)[..n] == ComplementAll(s[..n]);
    }
  }

  /** The key, read as a big-endian number: negative numbers count down from the middle. */
  lemma KeyNumber(d: Double)
    requires !Value(d).NotANumber?
    ensures GetBE(Dbl2Ord(d)) == if Negative(d) && Bits(d) > 0 then TWO63 - 1 - Bits(d) else TWO63 + Bits(d)
  {
    hide Bits, Magnitude;
    BitsOf(d);
    MagnitudeOrder(d, d);
    InfinityBits(d);
    if AtLeastZero(Value(d)) {
      var n := Normal(d);
      NormalBits(d);
      ReverseNumber(n);
      Reverse8(n);
      FlipNumber(Reverse(n));
      BitsOf(n);
      assert Dbl2Ord(d) == Reverse(n)[0 := FlipTop(n[7])];
    } else {
      ReverseNumber(d);
      ComplementNumber(Reverse(d));
      Widths();
      NegativeKey(d);
    }
  }

  lemma NegativeKey(d: Double)
    requires !AtLeastZero(Value(d))
    ensures Dbl2Ord(d) == ComplementAll(Reverse(d))
  {
    hide Value, Reverse, AtLeastZero;
    Reverse8(d);
  }

  lemma InfinityBits(d: Double)
    ensures Exponent(d) == EXPONENTS ==> Bits(d) > 0
  {
  }

  lemma NormalBits(d: Double)
    requires AtLeastZero(Value(d))
    ensures Bits(Normal(d)) == Bits(d) && !Negative(Normal(d)) && (Negative(d) ==> Bits(d) == 0)
  {
    MagnitudeOrder(d, d);
    var z := ZERO;
    assert GetLE(z[..6]) == 0 by { ZeroBytes(z[..6]); }
  }

  lemma {:induction false} ZeroBytes(s: seq<byte>)
    requires forall i :: 0 <= i < |s| ==> s[i] == 0
    ensures GetLE(s) == 0
  {
    if s != [] { ZeroBytes(s[1..]); }
  }

  lemma FlipNumber(s: seq<byte>)
    requires |s| == 8 && s[0] < 128
    ensures GetBE(s[0 := FlipTop(s[0])]) == GetBE(s) + TWO63
  {
    var t := s[0 := FlipTop(s[0])];
    HeadWeight(s);
    HeadWeight(t);
    assert t[1..] == s[1..];
    Pow6();
    assert Pow256(7) == 256 * Pow256(6);
  }

  // ---------------------------------------------------------------- results

  /** The bit pattern with its sign; both zeros are 0. */
  function Rank(d: Double): int {
    if Negative(d) then -(Bits(d) as int) else Bits(d)
  }

  /** Numbers compare as their signed bit patterns. */
  lemma ValueOrder(a: Double, b: Double)
    requires !Value(a).NotANumber? && !Value(b).NotANumber?
    ensures Less(Value(a), Value(b)) <==> Rank(a) < Rank(b)
    ensures Value(a) == Value(b) <==> Rank(a) == Rank(b)
  {
    hide Bits, Magnitude;
    MagnitudeOrder(a, b);
    MagnitudeOrder(b, a);
    BitsOf(a);
    BitsOf(b);
    FiniteBelowInfinity(a, b);
    FiniteBelowInfinity(b, a);
    InfinityBits(a);
    InfinityBits(b);
  }

  /** Keys compare bytewise exactly as the numbers do, through subnormals, infinities and both zeros. */
  lemma OrderPreserved(a: Double, b: Double)
    requires !Value(a).NotANumber? && !Value(b).NotANumber?
    ensures Less(Value(a), Value(b)) <==> LexLess(Dbl2Ord(a), Dbl2Ord(b))
    ensures Value(a) == Value(b) <==> Dbl2Ord(a) == Dbl2Ord(b)
  {
    hide Dbl2Ord, Bits, Value, LexLess, Less;
    KeyNumber(a);
    KeyNumber(b);
    LexIsNumeric(Dbl2Ord(a), Dbl2Ord(b));
    ValueOrder(a, b);
  }

  lemma FiniteBelowInfinity(a: Double, b: Double)
    requires !Value(a).NotANumber? && !Value(b).NotANumber?
    ensures Exponent(a) < EXPONENTS && Exponent(b) == EXPONENTS ==> Bits(a) < Bits(b)
    ensures Exponent(a) == EXPONENTS && Exponent(b) == EXPONENTS ==> Bits(a) == Bits(b)
  {
    BitsOf(a);
    BitsOf(b);
  }

  /** HB_ORD2DBL undoes HB_DBL2ORD bit for bit, except that -0.0 comes back as +0.0. */
  lemma RoundTrip(d: Double)
    requires !Value(d).NotANumber?
    ensures Ord2Dbl(Dbl2Ord(d)) == Normal(d)
  {
    hide Value;
    if AtLeastZero(Value(d)) {
      NormalBits(d);
    } else {
      SignOfNegative(d);
    }
  }

  lemma SignOfNegative(d: Double)
    requires !Value(d).NotANumber? && !AtLeastZero(Value(d))
    ensures Negative(d) && Value(d) != Finite(0.0)
  {
    MagnitudeOrder(d, d);
  }
}
