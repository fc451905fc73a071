/** Integers as bytes: HB_PUT_* and HB_GET_* in their shift-based form.  Bytes that are shifted
    apart and or-ed together are added here. */
module Codec {
  import opened Values

  /** 256 to the power k. */
  function Pow256(k: nat): (p: nat)
    ensures p > 0
    ensures k > 0 ==> p % 2 == 0
  {
    if k == 0 then 1 else 256 * Pow256(k - 1)
  }

  /** The k low bytes of n, lowest first: ( HB_BYTE )( n ), ( HB_BYTE )( n >> 8 ), ... */
  function LE(n: int, k: nat): (s: seq<byte>)
    ensures |s| == k
    decreases k
  {
    if k == 0 then [] else [n % 256] + LE(n / 256, k - 1)
  }

  /** The same bytes, highest first. */
  function BE(n: int, k: nat): (s: seq<byte>)
    ensures |s| == k
    decreases k
  {
    if k == 0 then [] else BE(n / 256, k - 1) + [n % 256]
  }

  function GetLE(s: seq<byte>): nat {
    if s == [] then 0 else s[0] + 256 * GetLE(s[1..])
  }

  function GetBE(s: seq<byte>): nat {
    if s == [] then 0 else 256 * GetBE(s[..|s| - 1]) + s[|s| - 1]
  }

  /** Two's complement reading of an unsigned value of k bytes. */
  function Signed(n: nat, k: nat): int {
    if 2 * n >= Pow256(k) then n - Pow256(k) else n
  }

  // ---------------------------------------------------------------- round trips

  /** n >> 8 k */
  function Shift(n: int, k: nat): int
    decreases k
  {
    if k == 0 then n else Shift(n / 256, k - 1)
  }

  /** Reading back what was put gives n without its higher bits. */
  lemma {:induction false} GetPutLE(n: int, k: nat)
    ensures GetLE(LE(n, k)) == n - Pow256(k) * Shift(n, k)
    ensures GetLE(LE(n, k)) < Pow256(k)
    decreases k
  {
    if k > 0 {
      GetPutLE(n / 256, k - 1);
      assert LE(n, k)[1..] == LE(n / 256, k - 1);
      Times256(Pow256(k - 1), Shift(n / 256, k - 1));
    }
  }

  lemma Times256(p: int, h: int)
    ensures 256 * (p * h) == (256 * p) * h
  {
  }

  lemma {:induction false} GetPutBE(n: int, k: nat)
    ensures GetBE(BE(n, k)) == GetLE(LE(n, k))
    decreases k
  {
    if k > 0 {
      GetPutBE(n / 256, k - 1);
      assert LE(n, k)[1..] == LE(n / 256, k - 1);
      assert BE(n, k)[..k - 1] == BE(n / 256, k - 1);
    }
  }

  lemma {:induction false} ShiftSmall(n: int, k: nat)
    ensures 0 <= n < Pow256(k) ==> Shift(n, k) == 0
    ensures n < 0 && n + Pow256(k) >= 0 ==> Shift(n, k) == -1
    decreases k
  {
    if k > 0 { ShiftSmall(n / 256, k - 1); }
  }

  /** An unsigned value survives exactly when it fits. */
  lemma UnsignedExact(n: int, k: nat)
    ensures GetLE(LE(n, k)) == n <==> 0 <= n < Pow256(k)
  {
    GetPutLE(n, k);
    ShiftSmall(n, k);
  }

  /** A signed value survives exactly when it fits, as HB_LIM_INT16, INT24, INT32 and INT64 test. */
  lemma SignedExact(n: int, k: nat)
    requires k > 0
    ensures Signed(GetLE(LE(n, k)), k) == n <==> -(Pow256(k) / 2) <= n < Pow256(k) / 2
  {
    GetPutLE(n, k);
    ShiftSmall(n, k);
    var p, h := Pow256(k), Shift(n, k);
    if -p <= n < 0 { assert p * h == -p; }
  }

  /** HB_LIM_INT24 is the exact condition for a 24-bit jump distance. */
  lemma Int24Exact(n: int)
    ensures Signed(GetLE(LE(n, 3)), 3) == n <==> -0x80_0000 <= n <= 0x7F_FFFF
  {
    SignedExact(n, 3);
    Widths();
  }

  lemma Widths()
    ensures Pow256(1) == 0x100 && Pow256(2) == 0x1_0000 && Pow256(3) == 0x100_0000 && Pow256(4) == 0x1_0000_0000
    ensures Pow256(8) == 0x1_0000_0000_0000_0000
  {
    assert Pow256(5) == 256 * Pow256(4);
    assert Pow256(6) == 256 * Pow256(5);
    assert Pow256(7) == 256 * Pow256(6);
  }

  /** Putting what was read restores the bytes. */
  lemma {:induction false} PutGetLE(s: seq<byte>)
    ensures LE(GetLE(s), |s|) == s
  {
    if s != [] {
      PutGetLE(s[1..]);
      assert GetLE(s) / 256 == GetLE(s[1..]) && GetLE(s) % 256 == s[0];
      assert s == [s[0]] + s[1..];
    }
  }

  lemma {:induction false} PutGetBE(s: seq<byte>)
    ensures BE(GetBE(s), |s|) == s
  {
    if s != [] {
      var n := |s| - 1;
      PutGetBE(s[..n]);
      assert GetBE(s) / 256 == GetBE(s[..n]) && GetBE(s) % 256 == s[n];
      assert s == s[..n] + [s[n]];
    }
  }

  // ---------------------------------------------------------------- byte order

  function Swap16(w: nat): nat {
    (w / 0x100 % 0x100) + (w % 0x100) * 0x100
  }

  function Swap32(w: nat): nat {
    (w % 0x100) * 0x100_0000 + (w / 0x100 % 0x100) * 0x1_0000 + (w / 0x1_0000 % 0x100) * 0x100 + w / 0x100_0000 % 0x100
  }

  function Swap64(w: nat): nat {
    Swap32(w % 0x1_0000_0000) * 0x1_0000_0000 + Swap32(w / 0x1_0000_0000)
  }

  /** Big-endian and little-endian readings of the same bytes differ by HB_SWAP_UINT16, 32 and 64. */
  lemma SwapsOrder(s: seq<byte>)
    ensures |s| == 2 ==> GetBE(s) == Swap16(GetLE(s))
    ensures |s| == 4 ==> GetBE(s) == Swap32(GetLE(s))
    ensures |s| == 8 ==> GetBE(s) == Swap64(GetLE(s))
  {
    hide Swap32, Swap64;
    if |s| == 2 {
      Get2(s);
    } else if |s| == 4 {
      Get4(s);
    } else if |s| == 8 {
      Get8(s);
    }
  }

  lemma Get2(s: seq<byte>)
    requires |s| == 2
    ensures GetLE(s) == s[0] as int + 256 * (s[1] as int) && GetBE(s) == 256 * (s[0] as int) + s[1] as int
  {
    assert GetLE(s[1..]) == s[1];
    assert GetBE(s[..1]) == s[0];
  }

  lemma Get4(s: seq<byte>)
    requires |s| == 4
    ensures Swap32(GetLE(s)) == GetBE(s) < 0x1_0000_0000
  {
    var a, b := s[2..], s[..2];
    Get2(a);
    Get2(b);
    LESplit(s, 2);
    BESplit(s, 2);
    Widths();
    SwapHalves(s[0] as int, s[1] as int, s[2] as int, s[3] as int);
  }

  lemma SwapHalves(a: nat, b: nat, c: nat, d: nat)
    requires a < 256 && b < 256 && c < 256 && d < 256
    ensures Swap32(a + 256 * b + 0x1_0000 * (c + 256 * d)) == 0x1_0000 * (256 * a + b) + 256 * c + d
  {
    var w := a + 256 * b + 0x1_0000 * (c + 256 * d);
    assert w % 0x100 == a;
    assert w / 0x100 == b + 0x100 * (c + 256 * d);
    assert w / 0x100 % 0x100 == b;
    assert w / 0x1_0000 == c + 256 * d;
    assert w / 0x1_0000 % 0x100 == c;
    assert w / 0x100_0000 == d;
  }

  lemma Get8(s: seq<byte>)
    requires |s| == 8
    ensures GetBE(s) == Swap64(GetLE(s))
  {
    hide Swap32;
    LESplit(s, 4);
    BESplit(s, 4);
    Get4(s[..4]);
    Get4(s[4..]);
    Widths();
    GetBound(s[..4]);
    var low, high := GetLE(s[..4]), GetLE(s[4..]);
    assert GetLE(s) % 0x1_0000_0000 == low && GetLE(s) / 0x1_0000_0000 == high;
  }

  lemma {:induction false} GetBound(s: seq<byte>)
    ensures GetLE(s) < Pow256(|s|)
  {
    if s != [] { GetBound(s[1..]); }
  }

  lemma {:induction false} LESplit(s: seq<byte>, k: nat)
    requires k <= |s|
    ensures GetLE(s) == GetLE(s[..k]) + Pow256(k) * GetLE(s[k..])
    decreases k
  {
    if k == 0 {
      assert s[0..] == s;
    } else {
      var t := s[1..];
      LESplit(t, k - 1);
      assert t[..k - 1] == s[..k][1..] && t[k - 1..] == s[k..];
      Times256(Pow256(k - 1), GetLE(s[k..]));
      assert GetLE(s[..k]) == s[0] + 256 * GetLE(t[..k - 1]);
    }
  }

  lemma {:induction false} BESplit(s: seq<byte>, k: nat)
    requires k <= |s|
    ensures GetBE(s) == Pow256(|s| - k) * GetBE(s[..k]) + GetBE(s[k..])
    decreases |s|
  {
    var n := |s|;
    if n == k {
      assert s[..k] == s;
    } else {
      var mid := s[k..n - 1];
      BESplit(s[..n - 1], k);
      assert s[..n - 1][..k] == s[..k];
      assert s[..n - 1][k..] == mid && s[k..][..n - 1 - k] == mid;
      var p, h := Pow256(n - 1 - k), GetBE(s[..k]);
      assert GetBE(s[..n - 1]) == p * h + GetBE(mid);
      assert GetBE(s[k..]) == 256 * GetBE(mid) + s[n - 1] as int;
      Times256(p, h);
    }
  }

  // ---------------------------------------------------------------- buffers

  method PutLE16(p: array<byte>, at: nat, w: int)
    requires at + 2 <= p.Length
    modifies p
    ensures p[..] == old(p[..at]) + LE(w, 2) + old(p[at + 2..])
  {
    p[at] := w % 256;
    p[at + 1] := w / 256 % 256;
    assert LE(w, 2) == [w % 256, w / 256 % 256];
  }

  method PutBE16(p: array<byte>, at: nat, w: int)
    requires at + 2 <= p.Length
    modifies p
    ensures p[..] == old(p[..at]) + BE(w, 2) + old(p[at + 2..])
  {
    p[at] := w / 256 % 256;
    p[at + 1] := w % 256;
    assert BE(w, 2) == [w / 256 % 256, w % 256];
  }

  method PutLE24(p: array<byte>, at: nat, u: int)
    requires at + 3 <= p.Length
    modifies p
    ensures p[..] == old(p[..at]) + LE(u, 3) + old(p[at + 3..])
  {
    p[at] := u % 256;
    p[at + 1] := u / 256 % 256;
    p[at + 2] := u / 0x1_0000 % 256;
    Bytes4(u);
    assert LE(u, 4)[..3] == LE(u, 3) by { LEPrefix(u, 3); }
  }

  method PutLE32(p: array<byte>, at: nat, l: int)
    requires at + 4 <= p.Length
    modifies p
    ensures p[..] == old(p[..at]) + LE(l, 4) + old(p[at + 4..])
  {
    p[at] := l % 256;
    p[at + 1] := l / 0x100 % 256;
    p[at + 2] := l / 0x1_0000 % 256;
    p[at + 3] := l / 0x100_0000 % 256;
    Bytes4(l);
  }

  method PutBE32(p: array<byte>, at: nat, l: int)
    requires at + 4 <= p.Length
    modifies p
    ensures p[..] == old(p[..at]) + BE(l, 4) + old(p[at + 4..])
  {
    p[at] := l / 0x100_0000 % 256;
    p[at + 1] := l / 0x1_0000 % 256;
    p[at + 2] := l / 0x100 % 256;
    p[at + 3] := l % 256;
    Bytes4(l);
  }

  /** The bytes that the 32-bit macros write. */
  lemma Bytes4(l: int)
    ensures LE(l, 4) == [l % 256, l / 0x100 % 256, l / 0x1_0000 % 256, l / 0x100_0000 % 256]
    ensures BE(l, 4) == [l / 0x100_0000 % 256, l / 0x1_0000 % 256, l / 0x100 % 256, l % 256]
  {
    var l1, l2, l3 := l / 256, l / 256 / 256, l / 256 / 256 / 256;
    assert l2 == l / 0x1_0000 && l3 == l / 0x100_0000;
    assert LE(l3, 1) == [l3 % 256] && BE(l3, 1) == [l3 % 256];
    assert LE(l2, 2) == [l2 % 256, l3 % 256] && BE(l2, 2) == [l3 % 256, l2 % 256];
    assert LE(l1, 3) == [l1 % 256, l2 % 256, l3 % 256] && BE(l1, 3) == [l3 % 256, l2 % 256, l1 % 256];
  }

  lemma {:induction false} LEPrefix(n: int, k: nat)
    ensures LE(n, k + 1)[..k] == LE(n, k)
    decreases k
  {
    if k > 0 {
      LEPrefix(n / 256, k - 1);
      assert LE(n, k + 1)[..k] == [n % 256] + LE(n / 256, k)[..k - 1];
    }
  }

  method PutBE24(p: array<byte>, at: nat, u: int)
    requires at + 3 <= p.Length
    modifies p
    ensures p[..] == old(p[..at]) + BE(u, 3) + old(p[at + 3..])
  {
    p[at + 2] := u % 256;
    p[at + 1] := u / 256 % 256;
    p[at] := u / 0x1_0000 % 256;
    Bytes4(u);
    assert BE(u, 3) == BE(u, 4)[1..] by { BEConcat(u, 1, 3); }
  }

  method PutLE64(p: array<byte>, at: nat, q: int)
    requires at + 8 <= p.Length
    modifies p
    ensures p[..] == old(p[..at]) + LE(q, 8) + old(p[at + 8..])
  {
    hide LE, BE;
    p[at] := q % 256;
    p[at + 1] := q / 0x100 % 256;
    p[at + 2] := q / 0x1_0000 % 256;
    p[at + 3] := q / 0x100_0000 % 256;
    p[at + 4] := q / 0x1_0000_0000 % 256;
    p[at + 5] := q / 0x100_0000_0000 % 256;
    p[at + 6] := q / 0x1_0000_0000_0000 % 256;
    p[at + 7] := q / 0x100_0000_0000_0000 % 256;
    Bytes8(q);
    Stretch(p[..], at, LE(q, 8));
  }

  method PutBE64(p: array<byte>, at: nat, q: int)
    requires at + 8 <= p.Length
    modifies p
    ensures p[..] == old(p[..at]) + BE(q, 8) + old(p[at + 8..])
  {
    hide LE, BE;
    p[at] := q / 0x100_0000_0000_0000 % 256;
    p[at + 1] := q / 0x1_0000_0000_0000 % 256;
    p[at + 2] := q / 0x100_0000_0000 % 256;
    p[at + 3] := q / 0x1_0000_0000 % 256;
    p[at + 4] := q / 0x100_0000 % 256;
    p[at + 5] := q / 0x1_0000 % 256;
    p[at + 6] := q / 0x100 % 256;
    p[at + 7] := q % 256;
    Bytes8(q);
    Stretch(p[..], at, BE(q, 8));
  }

  lemma Stretch(s: seq<byte>, at: nat, bytes: seq<byte>)
    requires at + |bytes| <= |s| && forall i :: 0 <= i < |bytes| ==> s[at + i] == bytes[i]
    ensures s == s[..at] + bytes + s[at + |bytes|..]
  {
  }

  /** The bytes that the 64-bit macros write. */
  lemma Bytes8(q: int)
    ensures LE(q, 8) == [q % 256, q / 0x100 % 256, q / 0x1_0000 % 256, q / 0x100_0000 % 256,
      q / 0x1_0000_0000 % 256, q / 0x100_0000_0000 % 256, q / 0x1_0000_0000_0000 % 256, q / 0x100_0000_0000_0000 % 256]
    ensures BE(q, 8) == [q / 0x100_0000_0000_0000 % 256, q / 0x1_0000_0000_0000 % 256, q / 0x100_0000_0000 % 256, q / 0x1_0000_0000 % 256,
      q / 0x100_0000 % 256, q / 0x1_0000 % 256, q / 0x100 % 256, q % 256]
  {
    hide LE, BE;
    var h := q / 0x1_0000_0000;
    Bytes4(q);
    Bytes4(h);
    Shift4(q);
    LEConcat(q, 4, 4);
    BEConcat(q, 4, 4);
    assert h / 0x100 == q / 0x100_0000_0000 && h / 0x1_0000 == q / 0x1_0000_0000_0000 && h / 0x100_0000 == q / 0x100_0000_0000_0000;
  }

  lemma {:induction false} BEConcat(n: int, j: nat, k: nat)
    ensures BE(n, j + k) == BE(Shift(n, k), j) + BE(n, k)
    decreases k
  {
    if k > 0 { BEConcat(n / 256, j, k - 1); }
  }

  lemma Shift4(q: int)
    ensures Shift(q, 4) == q / 0x1_0000_0000
  {
    var l3 := q / 256 / 256 / 256;
    assert l3 == q / 0x100_0000;
    assert Shift(l3, 1) == l3 / 256;
    assert Shift(q / 256 / 256, 2) == l3 / 256;
    assert Shift(q / 256, 3) == l3 / 256;
  }

  lemma {:induction false} LEConcat(n: int, j: nat, k: nat)
    ensures LE(n, j + k) == LE(n, j) + LE(Shift(n, j), k)
    decreases j
  {
    if j > 0 { LEConcat(n / 256, j - 1, k); }
  }
}
