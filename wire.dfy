/** Little-endian byte encoding shared by every codec of the client:
    the unsigned readers of Node's Buffer (`readBigUInt64LE`, `readUInt32LE`),
    the signed `readBigInt64LE`, and the specification of the byte-by-byte
    writers. Bytes are integers in 0..255. */
module Wire {

  datatype Option<+T> = None | Some(value: T)

  type Byte = x: int | 0 <= x < 256

  const U32_LIMIT: int := 0x1_0000_0000
  const U64_LIMIT: int := 0x1_0000_0000_0000_0000
  const U64_MAX: int := U64_LIMIT - 1

  /** n zero bytes. */
  function Zeros(n: nat): (s: seq<Byte>)
    ensures |s| == n && forall i :: 0 <= i < n ==> s[i] == 0
  {
    if n == 0 then [] else Zeros(n - 1) + [0]
  }

  /** 256 to the power n. */
  function Pow256(n: nat): (p: nat)
    ensures p >= 1
  {
    if n == 0 then 1 else 256 * Pow256(n - 1)
  }

  /** Byte k of the two's complement expansion of v: JavaScript's
      `(v >> 8k) & 0xff` on a BigInt (and on an int32 for k < 4). */
  function ByteAt(v: int, k: nat): Byte
  {
    (v / Pow256(k)) % 256
  }

  /** The n-byte little-endian encoding of v, wrapped modulo 256^n. */
  function LeBytes(v: int, n: nat): (bs: seq<Byte>)
    ensures |bs| == n
  {
    seq(n, k requires 0 <= k < n => ByteAt(v, k))
  }

  /** The unsigned value of a little-endian byte string. */
  function LeValue(bs: seq<Byte>): nat
  {
    if bs == [] then 0
    else LeValue(bs[..|bs| - 1]) + Pow256(|bs| - 1) * bs[|bs| - 1]
  }

  /** `Buffer.readBigUInt64LE(off)` without its range check: the u64 at off. */
  function U64At(data: seq<Byte>, off: nat): nat
    requires off + 8 <= |data|
  {
    LeValue(data[off..off + 8])
  }

  /** `Buffer.readUInt32LE(off)` without its range check. */
  function U32At(data: seq<Byte>, off: nat): nat
    requires off + 4 <= |data|
  {
    LeValue(data[off..off + 4])
  }

  /** `Buffer.readBigUInt64LE(off)`: fails (RangeError) past the end. */
  function ReadU64LE(data: seq<Byte>, off: nat): (r: Option<nat>)
    ensures r.Some? <==> off + 8 <= |data|
    ensures r.Some? ==> r.value < U64_LIMIT
  {
    if off + 8 <= |data| then
      LeValueBound(data[off..off + 8]);
      Pow256Eight();
      Some(U64At(data, off))
    else None
  }

  /** `Buffer.readUInt32LE(off)`: fails (RangeError) past the end. */
  function ReadU32LE(data: seq<Byte>, off: nat): (r: Option<nat>)
    ensures r.Some? <==> off + 4 <= |data|
    ensures r.Some? ==> r.value < U32_LIMIT
  {
    if off + 4 <= |data| then
      LeValueBound(data[off..off + 4]);
      Pow256Eight();
      Some(U32At(data, off))
    else None
  }

  /** The two's complement reading of an unsigned 64-bit word. */
  function AsI64(w: nat): (v: int)
    requires w < U64_LIMIT
    ensures -U64_LIMIT / 2 <= v < U64_LIMIT / 2
    ensures v % U64_LIMIT == w
  {
    if w < U64_LIMIT / 2 then w else w - U64_LIMIT
  }

  /** `Buffer.readBigInt64LE(off)`: the signed 64-bit word at off. */
  function ReadI64LE(data: seq<Byte>, off: nat): (r: Option<int>)
    ensures r.Some? <==> off + 8 <= |data|
  {
    match ReadU64LE(data, off)
    case None => None
    case Some(w) => Some(AsI64(w))
  }

  // ---------------------------------------------------------------------
  // Arithmetic facts behind the round trips

  /** a * k grows with k. */
  lemma {:induction false} MulAtLeast(a: int, k: int)
    requires a >= 0 && k >= 1
    ensures a * k >= a
  {
    if k > 1 {
      MulAtLeast(a, k - 1);
      assert a * k == a * (k - 1) + a;
    }
  }

  lemma MulMonotone(a: int, b: int, c: int)
    requires a >= 0 && b <= c
    ensures a * b <= a * c
  {
    if b < c {
      MulAtLeast(a, c - b);
      assert a * c - a * b == a * (c - b);
    }
  }

  /** Euclidean division is determined by quotient and remainder. */
  lemma DivModUnique(v: int, d: int, q: int, r: int)
    requires d > 0 && 0 <= r < d && v == d * q + r
    ensures v / d == q && v % d == r
  {
    var q', r' := v / d, v % d;
    var k := q' - q;
    assert d * k == r - r' by {
      assert d * q' + r' == d * q + r;
      assert d * k == d * q' - d * q;
    }
    if k > 0 {
      MulAtLeast(d, k);
      assert false;
    } else if k < 0 {
      MulAtLeast(d, -k);
      assert false;
    }
  }

  /** Splitting a remainder modulo m*d into the part below m and one digit in base d. */
  lemma ModSplit(v: int, m: int, d: int)
    requires m > 0 && d > 0
    ensures v % (m * d) == v % m + m * ((v / m) % d)
  {
    var q, r := v / m, v % m;
    var q2, r2 := q / d, q % d;
    assert v == m * q + r;
    assert q == d * q2 + r2;
    assert m * q == (m * d) * q2 + m * r2 by {
      assert m * q == m * (d * q2 + r2);
      assert m * (d * q2 + r2) == m * (d * q2) + m * r2;
      assert m * (d * q2) == (m * d) * q2;
    }
    MulMonotone(m, r2, d - 1);
    assert m * (d - 1) == m * d - m;
    MulAtLeast(m, d);
    DivModUnique(v, m * d, q2, m * r2 + r);
  }

  /** A little-endian string of n bytes denotes a value below 256^n. */
  lemma {:induction false} LeValueBound(bs: seq<Byte>)
    ensures LeValue(bs) < Pow256(|bs|)
  {
    if bs != [] {
      var n := |bs| - 1;
      LeValueBound(bs[..n]);
      MulMonotone(Pow256(n), bs[n], 255);
      assert Pow256(n + 1) == Pow256(n) * 255 + Pow256(n);
    }
  }

  /** Decoding an n-byte little-endian encoding gives the value back modulo 256^n. */
  lemma {:induction false} LeRoundTrip(v: int, n: nat)
    ensures LeValue(LeBytes(v, n)) == v % Pow256(n)
  {
    if n > 0 {
      var bs := LeBytes(v, n);
      assert bs[..n - 1] == LeBytes(v, n - 1);
      LeRoundTrip(v, n - 1);
      ModSplit(v, Pow256(n - 1), 256);
      assert Pow256(n) == Pow256(n - 1) * 256;
    }
  }

  /** For 0 <= v < 256^n the encoding is lossless. */
  lemma LeRoundTripInRange(v: int, n: nat)
    requires 0 <= v < Pow256(n)
    ensures LeValue(LeBytes(v, n)) == v
  {
    LeRoundTrip(v, n);
    DivModUnique(v, Pow256(n), 0, v);
  }

  /** Equal-length little-endian strings with the same value are equal. */
  lemma {:induction false} LeValueInjective(a: seq<Byte>, b: seq<Byte>)
    requires |a| == |b| && LeValue(a) == LeValue(b)
    ensures a == b
  {
    if a != [] {
      var n := |a| - 1;
      LeValueBound(a[..n]);
      LeValueBound(b[..n]);
      DivModUnique(LeValue(a), Pow256(n), a[n], LeValue(a[..n]));
      DivModUnique(LeValue(b), Pow256(n), b[n], LeValue(b[..n]));
      LeValueInjective(a[..n], b[..n]);
      assert a == a[..n] + [a[n]] && b == b[..n] + [b[n]];
    }
  }

  /** A little-endian string denotes 0 exactly when every byte is 0. */
  lemma {:induction false} LeValueZero(bs: seq<Byte>)
    ensures LeValue(bs) == 0 <==> forall k :: 0 <= k < |bs| ==> bs[k] == 0
  {
    if bs != [] {
      var n := |bs| - 1;
      LeValueZero(bs[..n]);
      if bs[n] != 0 {
        MulAtLeast(Pow256(n), bs[n]);
      }
      if forall k :: 0 <= k < |bs| ==> bs[k] == 0 {
        assert forall k :: 0 <= k < n ==> bs[..n][k] == 0;
      }
      if LeValue(bs) == 0 {
        assert forall k :: 0 <= k < n ==> bs[k] == bs[..n][k];
      }
    }
  }

  /** The n-byte encoding only depends on v modulo 256^n. */
  lemma LeBytesModulo(v: int, w: int, n: nat)
    requires v % Pow256(n) == w % Pow256(n)
    ensures LeBytes(v, n) == LeBytes(w, n)
  {
    LeRoundTrip(v, n);
    LeRoundTrip(w, n);
    LeValueInjective(LeBytes(v, n), LeBytes(w, n));
  }

  lemma Pow256Eight()
    ensures Pow256(8) == U64_LIMIT && Pow256(4) == U32_LIMIT
  {
  }
}
