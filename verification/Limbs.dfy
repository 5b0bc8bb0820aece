/**
 Integers in 64-bit limbs and in bytes (manager/polyutil.go, tools/starcoinutil.go), with Go's
 big.Int taken as a natural number: `Bytes` gives its shortest big-endian form, `SetBytes` reads any.
 */
module Limbs {
  import opened Bytes

  datatype Uint128 = Uint128(high: nat, low: nat)

  /** `Bytes`: no leading zero, nothing at all for 0. */
  function BytesOf(n: nat): (r: Bytes)
    ensures SetBytes(r) == n
  {
    if n == 0 then [] else
      var init := BytesOf(n / 256);
      assert (init + [(n % 256) as byte])[..|init|] == init;
      init + [(n % 256) as byte]
  }

  /** `FillBytes`: exactly `width` bytes. */
  function FillBytes(n: nat, width: nat): (r: Bytes)
    requires n < Pow256(width)
    ensures |r| == width && SetBytes(r) == n
  {
    if width == 0 then [] else
      var init := FillBytes(n / 256, width - 1);
      assert (init + [(n % 256) as byte])[..|init|] == init;
      init + [(n % 256) as byte]
  }

  lemma {:induction false} Width(n: nat, width: nat)
    ensures |BytesOf(n)| <= width <==> n < Pow256(width)
  {
    if n > 0 && width > 0 {
      Width(n / 256, width - 1);
    }
  }

  lemma {:induction false} PowGrows(m: nat, n: nat)
    requires m < n
    ensures Pow256(m) < Pow256(n)
  {
    if m + 1 < n {
      PowGrows(m, n - 1);
    }
  }

  lemma {:induction false} SetBytesBounded(bs: Bytes)
    ensures SetBytes(bs) < Pow256(|bs|)
  {
    if bs != [] {
      SetBytesBounded(bs[..|bs| - 1]);
    }
  }

  // ---------- 256 bits from four limbs ----------

  /** Appends a limb the way the code does: its shortest bytes after those of the higher limbs. */
  function Append(high: nat, limb: nat): nat {
    SetBytes(BytesOf(high) + BytesOf(limb))
  }

  function LittleEndianUint256ToBigInt(u0: nat, u1: nat, u2: nat, u3: nat): nat {
    Append(Append(Append(u3, u2), u1), u0)
  }

  /** What four limbs, lowest first, stand for. */
  function Value(u0: nat, u1: nat, u2: nat, u3: nat): nat {
    u0 + UINT64_SIZE * u1 + UINT64_SIZE * UINT64_SIZE * u2 + UINT64_SIZE * UINT64_SIZE * UINT64_SIZE * u3
  }

  /** All eight bytes significant. */
  predicate FullWidth(limb: nat) {
    limb >= 0x100_0000_0000_0000
  }

  /** Every limb below a non-zero higher one has all eight bytes significant. */
  predicate FullBelow(u0: nat, u1: nat, u2: nat, u3: nat) {
    && (u3 != 0 ==> FullWidth(u2))
    && (u3 != 0 || u2 != 0 ==> FullWidth(u1))
    && (u3 != 0 || u2 != 0 || u1 != 0 ==> FullWidth(u0))
  }

  lemma AppendAtMost(high: nat, limb: nat, exact: nat)
    requires limb < UINT64_SIZE && high <= exact
    ensures Append(high, limb) <= exact * UINT64_SIZE + limb
    ensures Append(high, limb) == exact * UINT64_SIZE + limb <==> exact == 0 || (high == exact && FullWidth(limb))
  {
    EightBytes();
    var w := |BytesOf(limb)|;
    SetBytesOfConcat(BytesOf(high), BytesOf(limb));
    Width(limb, 8);
    Width(limb, 7);
    if w < 8 {
      PowGrows(w, 8);
    }
    ScaledAtMost(high, Pow256(w), exact, UINT64_SIZE);
  }

  lemma Scaled(x: nat, y: nat, z: nat)
    requires x <= y
    ensures x * z <= y * z && (z > 0 && x < y ==> x * z < y * z)
  {
    assert y * z == x * z + (y - x) * z;
  }

  lemma ScaledAtMost(a: nat, p: nat, b: nat, q: nat)
    requires a <= b && 0 < p <= q
    ensures a * p <= b * q
    ensures a * p == b * q <==> b == 0 || (a == b && p == q)
  {
    Scaled(a, b, q);
    Scaled(p, q, a);
    assert p * a == a * p && q * a == a * q;
  }

  /**
   The result never exceeds the value of the limbs, and is that value exactly when every limb below
   a non-zero higher one has all eight bytes significant.
   */
  lemma Uint256Exactness(u0: nat, u1: nat, u2: nat, u3: nat)
    requires u0 < UINT64_SIZE && u1 < UINT64_SIZE && u2 < UINT64_SIZE && u3 < UINT64_SIZE
    ensures LittleEndianUint256ToBigInt(u0, u1, u2, u3) <= Value(u0, u1, u2, u3)
    ensures LittleEndianUint256ToBigInt(u0, u1, u2, u3) == Value(u0, u1, u2, u3)
      <==> FullBelow(u0, u1, u2, u3)
  {
    var high2 := u3 * UINT64_SIZE + u2;
    var high1 := high2 * UINT64_SIZE + u1;
    AppendAtMost(u3, u2, u3);
    AppendAtMost(Append(u3, u2), u1, high2);
    AppendAtMost(Append(Append(u3, u2), u1), u0, high1);
    assert Value(u0, u1, u2, u3) == high1 * UINT64_SIZE + u0;
  }

  /** A lower limb with fewer significant bytes is appended too closely: 5 and 1 give the two bytes 1, 5. */
  lemma ShortLimbMisread()
    ensures LittleEndianUint256ToBigInt(5, 1, 0, 0) == 261 && Value(5, 1, 0, 0) == UINT64_SIZE + 5
  {
    OneByte(1);
    OneByte(5);
    assert BytesOf(0) == [] && Pow256(1) == 256;
    hide BytesOf, Pow256;
    SetBytesOfConcat([1], [5]);
    assert [] + [1 as byte] == [1];
  }

  lemma OneByte(n: nat)
    requires 0 < n < 256
    ensures BytesOf(n) == [n as byte] && SetBytes([n as byte]) == n
  {
    assert n / 256 == 0 && n % 256 == n;
    assert BytesOf(0) == [];
    assert [n as byte][..0] == [];
    hide BytesOf;
  }

  // ---------- 128 bits ----------

  function Uint128ToBigInt(u: Uint128): nat
    requires u.low < UINT64_SIZE
  {
    EightBytes();
    SetBytes(BytesOf(u.high) + FillBytes(u.low, 8))
  }

  function BigIntToUint128(i: nat): (u: Uint128)
    ensures u.high < UINT64_SIZE && u.low < UINT64_SIZE
  {
    var bs := BytesOf(i);
    EightBytes();
    if |bs| > 8 then
      var h, l := SetBytes(bs[..|bs| - 8]), SetBytes(bs[|bs| - 8..]);
      Uint128(h % UINT64_SIZE, l % UINT64_SIZE)
    else
      Uint128(0, i % UINT64_SIZE)
  }

  lemma Uint128Value(u: Uint128)
    requires u.low < UINT64_SIZE
    ensures Uint128ToBigInt(u) == u.high * UINT64_SIZE + u.low
  {
    EightBytes();
    SetBytesOfConcat(BytesOf(u.high), FillBytes(u.low, 8));
  }

  lemma Divided(i: nat, q: nat, d: nat, r: nat)
    requires i == q * d + r && r < d
    ensures i / d == q && i % d == r
  {
    if i / d < q {
      Scaled(i / d + 1, q, d);
    } else if i / d > q {
      Scaled(q + 1, i / d, d);
    }
  }

  /** The last eight bytes are the lower limb, those before them the rest. */
  lemma SplitBytes(bs: Bytes)
    requires |bs| > 8
    ensures SetBytes(bs[..|bs| - 8]) == SetBytes(bs) / UINT64_SIZE
    ensures SetBytes(bs[|bs| - 8..]) == SetBytes(bs) % UINT64_SIZE
  {
    var front, back := bs[..|bs| - 8], bs[|bs| - 8..];
    EightBytes();
    assert front + back == bs;
    SetBytesOfConcat(front, back);
    SetBytesBounded(back);
    hide SetBytes, Pow256;
    Divided(SetBytes(bs), SetBytes(front), UINT64_SIZE, SetBytes(back));
  }

  lemma Uint128Limbs(i: nat)
    ensures BigIntToUint128(i) == Uint128(i / UINT64_SIZE % UINT64_SIZE, i % UINT64_SIZE)
  {
    hide BytesOf, SetBytes, Pow256;
    var bs := BytesOf(i);
    EightBytes();
    Width(i, 8);
    if |bs| > 8 {
      SplitBytes(bs);
      Divided(i % UINT64_SIZE, 0, UINT64_SIZE, i % UINT64_SIZE);
    } else {
      Divided(i, 0, UINT64_SIZE, i);
      Divided(0, 0, UINT64_SIZE, 0);
    }
  }

  /** The two conversions undo each other: on every pair of limbs, and on an integer exactly if it fits 128 bits. */
  lemma Uint128RoundTrips(u: Uint128, i: nat)
    requires u.high < UINT64_SIZE && u.low < UINT64_SIZE
    ensures BigIntToUint128(Uint128ToBigInt(u)) == u
    ensures Uint128ToBigInt(BigIntToUint128(i)) == i <==> i < UINT64_SIZE * UINT64_SIZE
  {
    hide BigIntToUint128, Uint128ToBigInt;
    Uint128Value(u);
    Uint128Limbs(Uint128ToBigInt(u));
    Divided(u.high * UINT64_SIZE + u.low, u.high, UINT64_SIZE, u.low);
    Uint128Limbs(i);
    Uint128Value(BigIntToUint128(i));
    var q := i / UINT64_SIZE;
    assert i == q * UINT64_SIZE + i % UINT64_SIZE;
    assert q < UINT64_SIZE <==> q % UINT64_SIZE == q;
  }
}
