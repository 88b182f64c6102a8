/** The 8-byte big-endian integer codec (util/base.go) and the order of database keys
    that start with it (primitives/dbops.go). */
module KeyCodec {
  const TWO_63 := 0x8000_0000_0000_0000
  const TWO_64 := 0x1_0000_0000_0000_0000

  type Byte = b: int | 0 <= b < 256
  type U64 = v: int | 0 <= v < TWO_64
  type I64 = v: int | -TWO_63 <= v < TWO_63

  /** Go's conversions between int64 and uint64, which keep the bit pattern. */
  function ToU64(v: I64): U64 { if v < 0 then v + TWO_64 else v }

  function ToI64(v: U64): I64 { if v >= TWO_63 then v - TWO_64 else v }

  // ----------------------------------------------------------- specification

  function Pow256(n: nat): (p: nat)
    ensures p >= 1
  {
    if n == 0 then 1 else 256 * Pow256(n - 1)
  }

  /** The n low-order base-256 digits of v, most significant first. */
  function Digits(v: nat, n: nat): (s: seq<Byte>)
    ensures |s| == n
  {
    if n == 0 then [] else Digits(v / 256, n - 1) + [v % 256]
  }

  function Number(s: seq<Byte>): (v: nat)
    ensures v < Pow256(|s|)
  {
    if s == [] then 0 else 256 * Number(s[..|s| - 1]) + s[|s| - 1]
  }

  /** Byte order of two keys of equal length, as leveldb compares them. */
  predicate LexLess(a: seq<Byte>, b: seq<Byte>)
    requires |a| == |b|
  {
    a != [] && (a[0] < b[0] || (a[0] == b[0] && LexLess(a[1..], b[1..])))
  }

  lemma {:induction false} NumberOfDigits(v: nat, n: nat)
    requires v < Pow256(n)
    ensures Number(Digits(v, n)) == v
  {
    if n > 0 {
      NumberOfDigits(v / 256, n - 1);
      assert Digits(v, n)[..n - 1] == Digits(v / 256, n - 1);
    }
  }

  lemma {:induction false} DigitsOfNumber(s: seq<Byte>)
    ensures Digits(Number(s), |s|) == s
  {
    if s != [] {
      var front := s[..|s| - 1];
      DigitsOfNumber(front);
      assert Number(s) / 256 == Number(front) && Number(s) % 256 == s[|s| - 1];
      assert s == front + [s[|s| - 1]];
    }
  }

  /** Byte order compares everything before the last byte first. */
  lemma {:induction false} LexByLastByte(a: seq<Byte>, b: seq<Byte>)
    requires |a| == |b| > 0
    ensures var n := |a| - 1;
            LexLess(a, b) <==> LexLess(a[..n], b[..n]) || (a[..n] == b[..n] && a[n] < b[n])
  {
    var n := |a| - 1;
    if n > 0 {
      LexByLastByte(a[1..], b[1..]);
      assert a[1..][..n - 1] == a[..n][1..] && b[1..][..n - 1] == b[..n][1..];
      assert a[..n] == [a[0]] + a[..n][1..] && b[..n] == [b[0]] + b[..n][1..];
    }
  }

  /** The byte order of two encodings is the order of the numbers. */
  lemma {:induction false} DigitsKeepOrder(v: nat, w: nat, n: nat)
    requires v < Pow256(n) && w < Pow256(n)
    ensures LexLess(Digits(v, n), Digits(w, n)) <==> v < w
  {
    if n > 0 {
      DigitsKeepOrder(v / 256, w / 256, n - 1);
      LexByLastByte(Digits(v, n), Digits(w, n));
      assert Digits(v, n)[..n - 1] == Digits(v / 256, n - 1);
      assert Digits(w, n)[..n - 1] == Digits(w / 256, n - 1);
      NumberOfDigits(v / 256, n - 1);
      NumberOfDigits(w / 256, n - 1);
    }
  }

  lemma EightBytes()
    ensures Pow256(8) == TWO_64
  {
    assert Pow256(4) == 0x1_0000_0000;
    assert Pow256(8) == 256 * 256 * 256 * 256 * Pow256(4);
  }

  // ---------------------------------------------------------------- the codec

  /** The key or value that stands for v. */
  function I64Bytes(v: I64): (s: seq<Byte>)
    ensures |s| == 8
  {
    Digits(ToU64(v), 8)
  }

  /** The digits of v, where w lists v shifted right by 0, 8, .. 56 bits. */
  lemma EightDigits(v: nat, w: seq<nat>)
    requires |w| == 8 && w[0] == v
    requires forall i, j :: 0 <= i < 8 && 0 <= j < 8 && j == i + 1 ==> w[j] == w[i] / 256
    ensures Digits(v, 8) == [w[7] % 256, w[6] % 256, w[5] % 256, w[4] % 256,
                             w[3] % 256, w[2] % 256, w[1] % 256, w[0] % 256]
  {
    assert Digits(w[7], 1) == [w[7] % 256];
    assert Digits(w[6], 2) == Digits(w[7], 1) + [w[6] % 256];
    assert Digits(w[5], 3) == Digits(w[6], 2) + [w[5] % 256];
    assert Digits(w[4], 4) == Digits(w[5], 3) + [w[4] % 256];
    assert Digits(w[3], 5) == Digits(w[4], 4) + [w[3] % 256];
    assert Digits(w[2], 6) == Digits(w[3], 5) + [w[2] % 256];
    assert Digits(w[1], 7) == Digits(w[2], 6) + [w[1] % 256];
    assert Digits(w[0], 8) == Digits(w[1], 7) + [w[0] % 256];
  }

  method U64ToBytes(v: U64) returns (ret: array<Byte>)
    ensures fresh(ret) && ret[..] == Digits(v, 8)
  {
    hide Digits;
    var w: U64 := v;
    ghost var shifted: seq<nat> := [w];
    ret := new Byte[8];
    ret[7] := w % 256;
    w := w / 256;
    shifted := shifted + [w];
    ret[6] := w % 256;
    w := w / 256;
    shifted := shifted + [w];
    ret[5] := w % 256;
    w := w / 256;
    shifted := shifted + [w];
    ret[4] := w % 256;
    w := w / 256;
    shifted := shifted + [w];
    ret[3] := w % 256;
    w := w / 256;
    shifted := shifted + [w];
    ret[2] := w % 256;
    w := w / 256;
    shifted := shifted + [w];
    ret[1] := w % 256;
    w := w / 256;
    shifted := shifted + [w];
    ret[0] := w % 256;
    EightDigits(v, shifted);
    assert ret[..] == [ret[0], ret[1], ret[2], ret[3], ret[4], ret[5], ret[6], ret[7]];
  }

  method I64ToBytes(v: I64) returns (ret: array<Byte>)
    ensures fresh(ret) && ret[..] == I64Bytes(v)
  {
    ret := U64ToBytes(ToU64(v));
  }

  /** uint64 addition and shift by eight, both modulo 2^64. */
  function Append8(v: U64, b: Byte): U64 { ((v * 256) % TWO_64 + b) % TWO_64 }

  lemma NoWrap(s: seq<Byte>, k: nat, v: U64)
    requires |s| == 8 && k < 8 && v == Number(s[..k])
    ensures Append8(v, s[k]) == Number(s[..k + 1])
  {
    EightBytes();
    PowGrows(k + 1, 8);
    assert s[..k + 1][..k] == s[..k];
    assert Number(s[..k + 1]) < Pow256(k + 1);
  }

  lemma {:induction false} PowGrows(m: nat, n: nat)
    requires m <= n
    ensures Pow256(m) <= Pow256(n)
  {
    if m < n { PowGrows(m, n - 1); }
  }

  method BytesToU64(bytes: seq<Byte>) returns (v: U64, failed: bool)
    ensures failed <==> |bytes| != 8
    ensures !failed ==> v == Number(bytes)
  {
    if |bytes| != 8 { return 0, true; }
    failed := false;
    v := bytes[0];
    assert Number(bytes[..1]) == v;
    NoWrap(bytes, 1, v);
    v := Append8(v, bytes[1]);
    NoWrap(bytes, 2, v);
    v := Append8(v, bytes[2]);
    NoWrap(bytes, 3, v);
    v := Append8(v, bytes[3]);
    NoWrap(bytes, 4, v);
    v := Append8(v, bytes[4]);
    NoWrap(bytes, 5, v);
    v := Append8(v, bytes[5]);
    NoWrap(bytes, 6, v);
    v := Append8(v, bytes[6]);
    NoWrap(bytes, 7, v);
    v := Append8(v, bytes[7]);
    assert bytes[..8] == bytes;
  }

  method BytesToI64(bytes: seq<Byte>) returns (v: I64, failed: bool)
    ensures failed <==> |bytes| != 8
    ensures !failed ==> I64Bytes(v) == bytes
  {
    var u;
    u, failed := BytesToU64(bytes);
    v := ToI64(u);
    if !failed { DigitsOfNumber(bytes); }
  }

  /** Distinct integers have distinct encodings. */
  lemma I64RoundTrip(v: I64, w: I64)
    ensures ToI64(Number(I64Bytes(v))) == v
    ensures I64Bytes(v) == I64Bytes(w) ==> v == w
  {
    EightBytes();
    NumberOfDigits(ToU64(v), 8);
    NumberOfDigits(ToU64(w), 8);
  }

  /** Byte order is numeric order exactly when the two integers have the same sign. */
  lemma I64Order(v: I64, w: I64)
    requires v != w
    ensures (LexLess(I64Bytes(v), I64Bytes(w)) <==> v < w) <==> (v < 0 <==> w < 0)
  {
    EightBytes();
    DigitsKeepOrder(ToU64(v), ToU64(w), 8);
  }

  // ------------------------------------------------------------ iterator.Last

  /** k is the key an iterator over ks stops at when sent to the last key. */
  predicate IsLastKey(ks: set<seq<Byte>>, k: seq<Byte>) {
    k in ks && forall j :: j in ks && |j| == |k| ==> !LexLess(k, j)
  }

  /** Among the keys of heights 0 .. top the last one is that of the top. */
  lemma LastKeyIsTop(ks: set<seq<Byte>>, top: I64, k: seq<Byte>)
    requires top >= 0
    requires forall h: I64 :: 0 <= h <= top ==> I64Bytes(h) in ks
    requires forall j :: j in ks ==> exists h: I64 :: 0 <= h <= top && j == I64Bytes(h)
    ensures IsLastKey(ks, k) <==> k == I64Bytes(top)
  {
    if IsLastKey(ks, k) {
      var h: I64 :| 0 <= h <= top && k == I64Bytes(h);
      if h != top { I64Order(h, top); }
    }
    if k == I64Bytes(top) {
      forall j | j in ks ensures |j| == |k| ==> !LexLess(k, j) {
        var h: I64 :| 0 <= h <= top && j == I64Bytes(h);
        if h == top {
          I64RoundTrip(h, top);
          EightBytes();
          DigitsKeepOrder(ToU64(h), ToU64(h), 8);
        } else {
          I64Order(top, h);
        }
      }
    }
  }
}
