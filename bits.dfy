/** 32-bit masks as JavaScript's bitwise operators see them: `1 << k`
    shifts by the count modulo 32, and `|` works on the 32-bit pattern. */
module Bits {

  /** A shift count below 32 as the five-bit amount the shift uses. Built by
      counting so that the solver reasons about it without integer-to-bitvector
      conversions; `ShiftCountValue` shows it is the count itself. */
  function ShiftCount(k: nat): bv5
    requires k < 32
  {
    if k == 0 then 0 else ShiftCount(k - 1) + 1
  }

  lemma {:induction false} ShiftCountValue(k: nat)
    requires k < 32
    ensures ShiftCount(k) as int == k
  {
    if k > 0 {
      ShiftCountValue(k - 1);
      IncrementValue(ShiftCount(k - 1));
    }
  }

  lemma IncrementValue(b: bv5)
    requires b as int < 31
    ensures (b + 1) as int == b as int + 1
  {
  }

  /** `1 << k` for a count below 32. */
  function Flag(k: nat): bv32
    requires k < 32
  {
    1 << ShiftCount(k)
  }

  /** Bit i of a 32-bit mask is set. */
  predicate Bit(mask: bv32, i: nat)
    requires i < 32
  {
    mask & Flag(i) != 0
  }

  lemma OrFlag(m: bv32, kb: bv5, ib: bv5)
    ensures (m | (1 << kb)) & (1 << ib) != 0 <==> (m & (1 << ib) != 0 || ib == kb)
  {
  }

  /** Setting flag k sets bit k and leaves every other bit as it was. */
  lemma BitOfOr(m: bv32, k: nat, i: nat)
    requires k < 32 && i < 32
    ensures Bit(m | Flag(k), i) <==> Bit(m, i) || i == k
  {
    var kb, ib := ShiftCount(k), ShiftCount(i);
    ShiftCountValue(k);
    ShiftCountValue(i);
    assert ib == kb <==> i == k;
    OrFlag(m, kb, ib);
    assert Bit(m | Flag(k), i) <==> (m | (1 << kb)) & (1 << ib) != 0;
  }

  /** The empty mask has no bit set. */
  lemma NoBitOfZero(i: nat)
    requires i < 32
    ensures !Bit(0, i)
  {
  }

  /** A mask with no bit at or above 25 is below 2^25. */
  lemma MaskBelow(m: bv32)
    requires forall i :: 25 <= i < 32 ==> !Bit(m, i)
    ensures m as int < 0x200_0000
  {
    ShiftCountValue(25);
    ShiftCountValue(26);
    ShiftCountValue(27);
    ShiftCountValue(28);
    ShiftCountValue(29);
    ShiftCountValue(30);
    ShiftCountValue(31);
    assert !Bit(m, 25) && !Bit(m, 26) && !Bit(m, 27) && !Bit(m, 28);
    assert !Bit(m, 29) && !Bit(m, 30) && !Bit(m, 31);
    assert m & 0xFE00_0000 == 0;
    assert m < 0x200_0000;
  }

  lemma SameBits0(m: bv32, n: bv32)
    requires forall i :: 0 <= i < 32 ==> (Bit(m, i) <==> Bit(n, i))
    ensures m & 0xFF == n & 0xFF
  {
    ShiftCountValue(0);
    assert Bit(m, 0) <==> Bit(n, 0);
    ShiftCountValue(1);
    assert Bit(m, 1) <==> Bit(n, 1);
    ShiftCountValue(2);
    assert Bit(m, 2) <==> Bit(n, 2);
    ShiftCountValue(3);
    assert Bit(m, 3) <==> Bit(n, 3);
    ShiftCountValue(4);
    assert Bit(m, 4) <==> Bit(n, 4);
    ShiftCountValue(5);
    assert Bit(m, 5) <==> Bit(n, 5);
    ShiftCountValue(6);
    assert Bit(m, 6) <==> Bit(n, 6);
    ShiftCountValue(7);
    assert Bit(m, 7) <==> Bit(n, 7);
  }

  lemma SameBits1(m: bv32, n: bv32)
    requires forall i :: 0 <= i < 32 ==> (Bit(m, i) <==> Bit(n, i))
    ensures m & 0xFF00 == n & 0xFF00
  {
    ShiftCountValue(8);
    assert Bit(m, 8) <==> Bit(n, 8);
    ShiftCountValue(9);
    assert Bit(m, 9) <==> Bit(n, 9);
    ShiftCountValue(10);
    assert Bit(m, 10) <==> Bit(n, 10);
    ShiftCountValue(11);
    assert Bit(m, 11) <==> Bit(n, 11);
    ShiftCountValue(12);
    assert Bit(m, 12) <==> Bit(n, 12);
    ShiftCountValue(13);
    assert Bit(m, 13) <==> Bit(n, 13);
    ShiftCountValue(14);
    assert Bit(m, 14) <==> Bit(n, 14);
    ShiftCountValue(15);
    assert Bit(m, 15) <==> Bit(n, 15);
  }

  lemma SameBits2(m: bv32, n: bv32)
    requires forall i :: 0 <= i < 32 ==> (Bit(m, i) <==> Bit(n, i))
    ensures m & 0xFF0000 == n & 0xFF0000
  {
    ShiftCountValue(16);
    assert Bit(m, 16) <==> Bit(n, 16);
    ShiftCountValue(17);
    assert Bit(m, 17) <==> Bit(n, 17);
    ShiftCountValue(18);
    assert Bit(m, 18) <==> Bit(n, 18);
    ShiftCountValue(19);
    assert Bit(m, 19) <==> Bit(n, 19);
    ShiftCountValue(20);
    assert Bit(m, 20) <==> Bit(n, 20);
    ShiftCountValue(21);
    assert Bit(m, 21) <==> Bit(n, 21);
    ShiftCountValue(22);
    assert Bit(m, 22) <==> Bit(n, 22);
    ShiftCountValue(23);
    assert Bit(m, 23) <==> Bit(n, 23);
  }

  lemma SameBits3(m: bv32, n: bv32)
    requires forall i :: 0 <= i < 32 ==> (Bit(m, i) <==> Bit(n, i))
    ensures m & 0xFF000000 == n & 0xFF000000
  {
    ShiftCountValue(24);
    assert Bit(m, 24) <==> Bit(n, 24);
    ShiftCountValue(25);
    assert Bit(m, 25) <==> Bit(n, 25);
    ShiftCountValue(26);
    assert Bit(m, 26) <==> Bit(n, 26);
    ShiftCountValue(27);
    assert Bit(m, 27) <==> Bit(n, 27);
    ShiftCountValue(28);
    assert Bit(m, 28) <==> Bit(n, 28);
    ShiftCountValue(29);
    assert Bit(m, 29) <==> Bit(n, 29);
    ShiftCountValue(30);
    assert Bit(m, 30) <==> Bit(n, 30);
    ShiftCountValue(31);
    assert Bit(m, 31) <==> Bit(n, 31);
  }

  /** Two masks with the same bits are the same mask. */
  lemma MaskExt(m: bv32, n: bv32)
    requires forall i :: 0 <= i < 32 ==> (Bit(m, i) <==> Bit(n, i))
    ensures m == n
  {
    SameBits0(m, n);
    SameBits1(m, n);
    SameBits2(m, n);
    SameBits3(m, n);
  }
}
