/**
 Byte strings and their bits, as read by `getBitAtFromMSB` and `countCommonPrefix` of smt/smt.go.
 */
module Bytes {
  newtype byte = b: int | 0 <= b < 256

  type Bytes = seq<byte>

  /** Values of a Go `uint64`. */
  const UINT64_SIZE := 0x1_0000_0000_0000_0000

  /** 2 to the power `k`, the mask `1 << k` of a byte. */
  function Mask(k: nat): (m: nat)
    requires k < 8
    ensures m > 0
  {
    [1, 2, 4, 8, 16, 32, 64, 128][k]
  }

  /** `b & (1 << (8 - 1 - j)) > 0`, in arithmetic. */
  predicate BitOfByte(b: byte, j: nat)
    requires j < 8
  {
    (b as int / Mask(7 - j)) % 2 == 1
  }

  /** The bit at an offset from the most significant bit of the first byte. */
  predicate Bit(data: Bytes, position: nat)
    requires position < 8 * |data|
  {
    BitOfByte(data[position / 8], position % 8)
  }

  /** The first `n` bits of two paths coincide. */
  ghost predicate Agree(a: Bytes, b: Bytes, n: nat)
    requires n <= 8 * |a| && n <= 8 * |b|
  {
    forall i :: 0 <= i < n ==> Bit(a, i) == Bit(b, i)
  }

  /** Bytes that agree on their first `j + 1` bits agree once the other bits are shifted out. */
  lemma HighBits(x: byte, y: byte, j: nat)
    requires j < 8
    requires forall i: nat :: i < 8 ==> BitOfByte(x, i) == BitOfByte(y, i)
    ensures x as int / Mask(7 - j) == y as int / Mask(7 - j)
  {
    assert BitOfByte(x, j) == BitOfByte(y, j);
    if j > 0 {
      HighBits(x, y, j - 1);
      Halve(x as int, j);
      Halve(y as int, j);
    }
  }

  lemma Halve(x: nat, j: nat)
    requires 0 < j < 8
    ensures x / Mask(7 - j) == 2 * (x / Mask(8 - j)) + (x / Mask(7 - j)) % 2
  {
    var q := x / Mask(7 - j);
    assert Mask(8 - j) == 2 * Mask(7 - j);
    assert x / Mask(8 - j) == q / 2;
  }

  /** A path is determined by its bits. */
  lemma PathFromBits(a: Bytes, b: Bytes)
    requires |a| == |b|
    requires Agree(a, b, 8 * |a|)
    ensures a == b
  {
    forall i | 0 <= i < |a| ensures a[i] == b[i] {
      forall j: nat | j < 8 ensures BitOfByte(a[i], j) == BitOfByte(b[i], j) {
        assert Bit(a, 8 * i + j) == Bit(b, 8 * i + j);
        assert (8 * i + j) / 8 == i && (8 * i + j) % 8 == j;
      }
      HighBits(a[i], b[i], 7);
    }
  }

  /** The first position from `i` on where two paths differ, or the length of `a` in bits. */
  function CommonPrefix(a: Bytes, b: Bytes, i: nat): (n: nat)
    requires |a| <= |b| && i <= 8 * |a|
    ensures i <= n <= 8 * |a|
    ensures forall j :: i <= j < n ==> Bit(a, j) == Bit(b, j)
    ensures n < 8 * |a| ==> Bit(a, n) != Bit(b, n)
    decreases 8 * |a| - i
  {
    if i < 8 * |a| && Bit(a, i) == Bit(b, i) then CommonPrefix(a, b, i + 1) else i
  }

  /** `countCommonPrefix`: the number of leading bits two paths share. */
  method CountCommonPrefix(data1: Bytes, data2: Bytes) returns (count: nat)
    requires |data1| <= |data2|
    ensures count == CommonPrefix(data1, data2, 0)
    ensures count <= 8 * |data1| && Agree(data1, data2, count)
    ensures count < 8 * |data1| ==> Bit(data1, count) != Bit(data2, count)
    ensures |data1| == |data2| ==>
      && (forall n :: 0 <= n <= 8 * |data1| ==> (Leading(data1, n) == Leading(data2, n) <==> n <= count))
      && (count < 8 * |data1| ==> (Bit(data2, count) <==> SetBytes(data1) < SetBytes(data2)))
  {
    count := 0;
    var i := 0;
    while i < |data1| * 8
      invariant i == count <= 8 * |data1|
      invariant Agree(data1, data2, count)
      invariant CommonPrefix(data1, data2, 0) == CommonPrefix(data1, data2, i)
    {
      if Bit(data1, i) == Bit(data2, i) {
        count := count + 1;
      } else {
        break;
      }
      i := i + 1;
    }
    if |data1| == |data2| {
      PrefixInNumbers(data1, data2, count);
    }
  }

  /** A common prefix that cannot be extended, as seen on the numbers. */
  lemma PrefixInNumbers(a: Bytes, b: Bytes, count: nat)
    requires |a| == |b| && count <= 8 * |a| && Agree(a, b, count)
    requires count < 8 * |a| ==> Bit(a, count) != Bit(b, count)
    ensures forall n :: 0 <= n <= 8 * |a| ==> (Leading(a, n) == Leading(b, n) <==> n <= count)
    ensures count < 8 * |a| ==> (Bit(b, count) <==> SetBytes(a) < SetBytes(b))
  {
    forall n | 0 <= n <= 8 * |a| ensures Leading(a, n) == Leading(b, n) <==> n <= count {
      SharedLeading(a, b, n);
    }
    if count < 8 * |a| {
      if Bit(b, count) {
        FirstDifferenceOrders(a, b, count);
      } else {
        FirstDifferenceOrders(b, a, count);
      }
    }
  }

  function Pow256(n: nat): (r: nat)
    ensures r > 0
  {
    if n == 0 then 1 else 256 * Pow256(n - 1)
  }

  // ---------- bytes as numbers ----------

  /** The number the bytes stand for, most significant first: `SetBytes` of Go's big.Int. */
  function SetBytes(bs: Bytes): nat {
    if bs == [] then 0 else SetBytes(bs[..|bs| - 1]) * 256 + bs[|bs| - 1] as nat
  }

  lemma {:induction false} SetBytesOfConcat(a: Bytes, b: Bytes)
    ensures SetBytes(a + b) == SetBytes(a) * Pow256(|b|) + SetBytes(b)
  {
    if b == [] {
      assert a + b == a;
    } else {
      var init, last := b[..|b| - 1], b[|b| - 1] as nat;
      SetBytesOfConcat(a, init);
      assert (a + b)[..|a + b| - 1] == a + init;
      assert SetBytes(a) * Pow256(|b|) == SetBytes(a) * Pow256(|init|) * 256;
    }
  }

  lemma EightBytes()
    ensures Pow256(7) == 0x100_0000_0000_0000 && Pow256(8) == UINT64_SIZE
  {
    assert Pow256(4) == 0x1_0000_0000;
  }

  /** `n >> k`. */
  function Shifted(n: nat, k: nat): nat {
    if k == 0 then n else Shifted(n / 2, k - 1)
  }

  /** The first `n` bits as a number. */
  function Leading(data: Bytes, n: nat): nat
    requires n <= 8 * |data|
  {
    Shifted(SetBytes(data), 8 * |data| - n)
  }

  lemma {:induction false} ShiftOneMore(n: nat, k: nat)
    ensures Shifted(n, k + 1) == Shifted(n, k) / 2
  {
    if k > 0 {
      ShiftOneMore(n / 2, k - 1);
    }
  }

  lemma {:induction false} ShiftMonotonic(m: nat, n: nat, k: nat)
    requires m <= n
    ensures Shifted(m, k) <= Shifted(n, k)
  {
    if k > 0 {
      ShiftMonotonic(m / 2, n / 2, k - 1);
    }
  }

  /** Shifting the last byte out. */
  lemma ShiftByte(high: nat, low: nat, k: nat)
    requires low < 256
    ensures Shifted(high * 256 + low, k + 8) == Shifted(high, k)
  {
    var n := high * 256 + low;
    assert Shifted(n, k + 8) == Shifted(n / 2, k + 7) == Shifted(n / 4, k + 6) == Shifted(n / 8, k + 5);
    assert Shifted(n / 8, k + 5) == Shifted(n / 16, k + 4) == Shifted(n / 32, k + 3) == Shifted(n / 64, k + 2);
    assert Shifted(n / 64, k + 2) == Shifted(n / 128, k + 1) == Shifted(n / 256, k);
  }

  /** Shifting within the last byte: an even number and what is left of that byte. */
  lemma {:induction false} ShiftWithinByte(high: nat, low: nat, k: nat)
    requires low < 256 && k < 8
    ensures Shifted(high * 256 + low, k) == 2 * (Mask(7 - k) * high) + low / Mask(k)
  {
    if k > 0 {
      ShiftWithinByte(high, low, k - 1);
      ShiftOneMore(high * 256 + low, k - 1);
      Halved(low, k);
      assert Mask(8 - k) * high == 2 * (Mask(7 - k) * high);
    }
  }

  lemma Halved(low: nat, k: nat)
    requires 0 < k < 8
    ensures low / Mask(k - 1) / 2 == low / Mask(k) && Mask(8 - k) == 2 * Mask(7 - k)
  {
  }

  /** Bits are counted from the most significant one: they are the digits of the number in base 2. */
  lemma {:induction false} BitIsBinaryDigit(data: Bytes, i: nat)
    requires i < 8 * |data|
    ensures Bit(data, i) <==> Shifted(SetBytes(data), 8 * |data| - 1 - i) % 2 == 1
  {
    var init, low := data[..|data| - 1], data[|data| - 1] as nat;
    if i < 8 * |init| {
      BitIsBinaryDigit(init, i);
      BitOfInit(data, i);
      hide Bit, Shifted;
      ShiftByte(SetBytes(init), low, 8 * |init| - 1 - i);
    } else {
      DigitOfLast(data, i - 8 * |init|);
    }
  }

  lemma BitOfInit(data: Bytes, i: nat)
    requires data != [] && i < 8 * (|data| - 1)
    ensures Bit(data, i) == Bit(data[..|data| - 1], i)
  {
  }

  lemma DigitOfLast(data: Bytes, j: nat)
    requires data != [] && j < 8
    ensures Bit(data, 8 * (|data| - 1) + j) <==> Shifted(SetBytes(data), 7 - j) % 2 == 1
  {
    BitOfLast(data, j);
    var init, low := data[..|data| - 1], data[|data| - 1] as nat;
    assert SetBytes(data) == SetBytes(init) * 256 + low;
    hide Bit, Shifted, Mask, SetBytes;
    ShiftWithinByte(SetBytes(init), low, 7 - j);
    OddPart(Mask(j) * SetBytes(init), low / Mask(7 - j));
  }

  lemma OddPart(even: nat, n: nat)
    ensures (2 * even + n) % 2 == n % 2
  {
  }

  lemma BitOfLast(data: Bytes, j: nat)
    requires data != [] && j < 8
    ensures Bit(data, 8 * (|data| - 1) + j) == (data[|data| - 1] as nat / Mask(7 - j) % 2 == 1)
  {
    var i := 8 * (|data| - 1) + j;
    assert i / 8 == |data| - 1 && i % 8 == j;
  }

  lemma NextBit(data: Bytes, n: nat)
    requires n < 8 * |data|
    ensures Leading(data, n + 1) == 2 * Leading(data, n) + if Bit(data, n) then 1 else 0
  {
    BitIsBinaryDigit(data, n);
    ShiftOneMore(SetBytes(data), 8 * |data| - 1 - n);
  }

  lemma {:induction false} NoLeading(data: Bytes)
    ensures Leading(data, 0) == 0
  {
    if data != [] {
      var init, low := data[..|data| - 1], data[|data| - 1] as nat;
      NoLeading(init);
      ShiftByte(SetBytes(init), low, 8 * |init|);
    }
  }

  /** Sharing the first bits means being the same number once the others are shifted out. */
  lemma {:induction false} SharedLeading(a: Bytes, b: Bytes, n: nat)
    requires |a| == |b| && n <= 8 * |a|
    ensures Agree(a, b, n) <==> Leading(a, n) == Leading(b, n)
  {
    if n == 0 {
      NoLeading(a);
      NoLeading(b);
    } else {
      SharedLeading(a, b, n - 1);
      NextBit(a, n - 1);
      NextBit(b, n - 1);
      hide Leading;
      assert Agree(a, b, n) <==> Agree(a, b, n - 1) && Bit(a, n - 1) == Bit(b, n - 1);
    }
  }

  /** The first bit two paths differ in decides which one is the smaller number. */
  lemma FirstDifferenceOrders(a: Bytes, b: Bytes, n: nat)
    requires |a| == |b| && n < 8 * |a| && Agree(a, b, n) && !Bit(a, n) && Bit(b, n)
    ensures SetBytes(a) < SetBytes(b)
  {
    SharedLeading(a, b, n);
    NextBit(a, n);
    NextBit(b, n);
    if SetBytes(b) <= SetBytes(a) {
      ShiftMonotonic(SetBytes(b), SetBytes(a), 8 * |a| - n - 1);
    }
  }
}
