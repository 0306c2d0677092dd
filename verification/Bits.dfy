/** Bits of 32-bit words: single bits, the popcount trick, and distances between words. */
module Bits {

  /** (x >>> i) & 1. */
  predicate Bit(x: bv32, i: nat)
    requires i < 32
  {
    (x >> i) & 1 == 1
  }

  lemma OrBit(a: bv32, b: bv32, i: nat)
    requires i < 32
    ensures Bit(a | b, i) <==> Bit(a, i) || Bit(b, i)
  {
    assert (a | b) >> i == (a >> i) | (b >> i);
    OrLow(a >> i, b >> i);
  }

  lemma OrLow(x: bv32, y: bv32)
    ensures ((x | y) & 1 == 1) <==> ((x & 1 == 1) || (y & 1 == 1))
  {
  }

  predicate Xored(a: bv32, b: bv32, i: nat)
    requires i < 32
  {
    Bit(a ^ b, i) <==> Bit(a, i) != Bit(b, i)
  }

  /** Shifting by each constant amount. */
  lemma XorBits(a: bv32, b: bv32)
    ensures Xored(a, b, 0) && Xored(a, b, 1) && Xored(a, b, 2) && Xored(a, b, 3)
    ensures Xored(a, b, 4) && Xored(a, b, 5) && Xored(a, b, 6) && Xored(a, b, 7)
    ensures Xored(a, b, 8) && Xored(a, b, 9) && Xored(a, b, 10) && Xored(a, b, 11)
    ensures Xored(a, b, 12) && Xored(a, b, 13) && Xored(a, b, 14) && Xored(a, b, 15)
    ensures Xored(a, b, 16) && Xored(a, b, 17) && Xored(a, b, 18) && Xored(a, b, 19)
    ensures Xored(a, b, 20) && Xored(a, b, 21) && Xored(a, b, 22) && Xored(a, b, 23)
    ensures Xored(a, b, 24) && Xored(a, b, 25) && Xored(a, b, 26) && Xored(a, b, 27)
    ensures Xored(a, b, 28) && Xored(a, b, 29) && Xored(a, b, 30) && Xored(a, b, 31)
  {
  }

  lemma XorBit(a: bv32, b: bv32, i: nat)
    requires i < 32
    ensures Bit(a ^ b, i) <==> Bit(a, i) != Bit(b, i)
  {
    hide Bit;
    XorBits(a, b);
    assert Xored(a, b, i);
  }

  predicate OneAt(k: nat, i: nat)
    requires k < 32 && i < 32
  {
    Bit((1 as bv32) << k, i) <==> i == k
  }

  lemma OneBits0(k: nat)
    requires k < 32
    ensures OneAt(k, 0) && OneAt(k, 1) && OneAt(k, 2) && OneAt(k, 3)
    ensures OneAt(k, 4) && OneAt(k, 5) && OneAt(k, 6) && OneAt(k, 7)
  {
  }

  lemma OneBits8(k: nat)
    requires k < 32
    ensures OneAt(k, 8) && OneAt(k, 9) && OneAt(k, 10) && OneAt(k, 11)
    ensures OneAt(k, 12) && OneAt(k, 13) && OneAt(k, 14) && OneAt(k, 15)
  {
  }

  lemma OneBits16(k: nat)
    requires k < 32
    ensures OneAt(k, 16) && OneAt(k, 17) && OneAt(k, 18) && OneAt(k, 19)
    ensures OneAt(k, 20) && OneAt(k, 21) && OneAt(k, 22) && OneAt(k, 23)
  {
  }

  lemma OneBits24(k: nat)
    requires k < 32
    ensures OneAt(k, 24) && OneAt(k, 25) && OneAt(k, 26) && OneAt(k, 27)
    ensures OneAt(k, 28) && OneAt(k, 29) && OneAt(k, 30) && OneAt(k, 31)
  {
  }

  lemma OneShifted(k: nat, i: nat)
    requires k < 32 && i < 32
    ensures Bit((1 as bv32) << k, i) <==> i == k
  {
    hide Bit;
    OneBits0(k);
    OneBits8(k);
    OneBits16(k);
    OneBits24(k);
    assert OneAt(k, i);
  }

  /** p | (1 << k). */
  function WithBit(p: bv32, k: nat): bv32
    requires k < 32
  {
    p | ((1 as bv32) << k)
  }

  lemma SetBit(p: bv32, k: nat, i: nat)
    requires k < 32 && i < 32
    ensures Bit(WithBit(p, k), i) <==> Bit(p, i) || i == k
  {
    hide Bit;
    OrBit(p, (1 as bv32) << k, i);
    OneShifted(k, i);
  }

  // ---- the popcount trick ----

  function Pairs(x: bv32): bv32 {
    x - ((x >> 1) & 0x5555_5555)
  }

  function Nibbles(x: bv32): bv32 {
    (x & 0x3333_3333) + ((x >> 2) & 0x3333_3333)
  }

  function ByteSums(x: bv32): bv32 {
    (x + (x >> 4)) & 0x0f0f_0f0f
  }

  function Total(x: bv32): bv32 {
    (x * 0x0101_0101) >> 24
  }

  /** popcount. */
  function Popcount(x: bv32): bv32 {
    Total(Stage(x))
  }

  /** The bits of a word, lowest first. */
  function BitsOf(x: bv32): (bs: seq<bool>)
    ensures |bs| == 32 && forall i :: 0 <= i < 32 ==> bs[i] == Bit(x, i)
  {
    seq(32, i requires 0 <= i < 32 => Bit(x, i))
  }

  /** How many are set. */
  function Count(bs: seq<bool>): (n: nat)
    ensures n <= |bs|
  {
    if bs == [] then 0 else Count(bs[..|bs| - 1]) + One(bs[|bs| - 1])
  }

  function One(b: bool): nat {
    if b then 1 else 0
  }

  lemma {:induction false} CountConcat(a: seq<bool>, b: seq<bool>)
    ensures Count(a + b) == Count(a) + Count(b)
  {
    if b == [] {
      assert a + b == a;
    } else {
      assert (a + b)[..|a + b| - 1] == a + b[..|b| - 1];
      CountConcat(a, b[..|b| - 1]);
    }
  }

  lemma CountEight(bs: seq<bool>)
    requires |bs| == 8
    ensures Count(bs) == One(bs[0]) + One(bs[1]) + One(bs[2]) + One(bs[3])
                         + One(bs[4]) + One(bs[5]) + One(bs[6]) + One(bs[7])
  {
    hide Count;
    CountLast(bs, 8);
    CountLast(bs, 7);
    CountLast(bs, 6);
    CountLast(bs, 5);
    CountLast(bs, 4);
    CountLast(bs, 3);
    CountLast(bs, 2);
    CountLast(bs, 1);
    assert bs[..8] == bs && bs[..0] == [];
    CountNothing();
  }

  lemma CountLast(bs: seq<bool>, n: nat)
    requires 0 < n <= |bs|
    ensures Count(bs[..n]) == Count(bs[..n - 1]) + One(bs[n - 1])
  {
    assert bs[..n][..n - 1] == bs[..n - 1];
  }

  lemma CountNothing()
    ensures Count([]) == 0
  {
  }

  function From0(x: bv32): bv32 {
    x
  }

  function Byte0(x: bv32): bv32 {
    x & 0xff
  }

  function From8(x: bv32): bv32 {
    x >> 8
  }

  function Byte8(x: bv32): bv32 {
    (x >> 8) & 0xff
  }

  function From16(x: bv32): bv32 {
    x >> 16
  }

  function Byte16(x: bv32): bv32 {
    (x >> 16) & 0xff
  }

  function From24(x: bv32): bv32 {
    x >> 24
  }

  function Byte24(x: bv32): bv32 {
    (x >> 24) & 0xff
  }

  /** The bits of the lowest byte, added up in the word. */
  function LowByte(x: bv32): bv32 {
    (x & 1) + ((x >> 1) & 1) + ((x >> 2) & 1) + ((x >> 3) & 1)
    + ((x >> 4) & 1) + ((x >> 5) & 1) + ((x >> 6) & 1) + ((x >> 7) & 1)
  }

  /** The trick's last stage: each byte holds the count of its own byte. */
  function Stage(x: bv32): bv32 {
    ByteSums(Nibbles(Pairs(x)))
  }

  lemma ByteSum0(x: bv32)
    ensures Byte0(Stage(x)) == LowByte(From0(x))
  {
  }

  lemma ByteSum8(x: bv32)
    ensures Byte8(Stage(x)) == LowByte(From8(x))
  {
  }

  lemma ByteSum16(x: bv32)
    ensures Byte16(Stage(x)) == LowByte(From16(x))
  {
  }

  lemma ByteSum24(x: bv32)
    ensures Byte24(Stage(x)) == LowByte(From24(x))
  {
  }

  function AddUp(a: bv32, b: bv32, c: bv32, d: bv32): bv32 {
    a + b + c + d
  }

  lemma TotalAdds(y: bv32)
    requires Byte0(y) <= 8 && Byte8(y) <= 8 && Byte16(y) <= 8 && Byte24(y) <= 8
    ensures Total(y) == AddUp(Byte0(y), Byte8(y), Byte16(y), Byte24(y))
  {
  }

  /** Small words add like numbers. */
  lemma AddSmall(a: bv32, b: bv32)
    requires a <= 24 && b <= 8
    ensures (a + b) as nat == a as nat + b as nat && a + b <= 32
  {
  }

  lemma AddThree(a: bv32, b: bv32, c: bv32)
    requires a <= 8 && b <= 8 && c <= 8
    ensures (a + b + c) as nat == a as nat + b as nat + c as nat && a + b + c <= 24
  {
    SmallSum(a, b, c);
    AddSmall(a, b);
    AddSmall(a + b, c);
  }

  lemma SmallSum(a: bv32, b: bv32, c: bv32)
    requires a <= 8 && b <= 8 && c <= 8
    ensures a + b <= 16 && a + b + c <= 24
  {
  }

  lemma AddEights(a: bv32, b: bv32, c: bv32, d: bv32)
    requires a <= 8 && b <= 8 && c <= 8 && d <= 8
    ensures AddUp(a, b, c, d) as nat == a as nat + b as nat + c as nat + d as nat
  {
    AddThree(a, b, c);
    AddSmall(a + b + c, d);
  }

  lemma UnitIsBit(x: bv32, i: nat)
    requires i < 32
    ensures ((x >> i) & 1) as nat == One(Bit(x, i)) && (x >> i) & 1 <= 1
  {
  }

  lemma LowByteSmall(x: bv32)
    ensures LowByte(x) <= 8
  {
  }

  lemma LowByteCounts(x: bv32)
    ensures LowByte(x) as nat == One(Bit(x, 0)) + One(Bit(x, 1)) + One(Bit(x, 2)) + One(Bit(x, 3))
                                 + One(Bit(x, 4)) + One(Bit(x, 5)) + One(Bit(x, 6)) + One(Bit(x, 7))
  {
    hide Bit;
    var s := x & 1;
    UnitIsBit(x, 0);
    UnitIsBit(x, 1);
    AddSmall(s, (x >> 1) & 1);
    s := s + ((x >> 1) & 1);
    UnitIsBit(x, 2);
    AddSmall(s, (x >> 2) & 1);
    s := s + ((x >> 2) & 1);
    UnitIsBit(x, 3);
    AddSmall(s, (x >> 3) & 1);
    s := s + ((x >> 3) & 1);
    UnitIsBit(x, 4);
    AddSmall(s, (x >> 4) & 1);
    s := s + ((x >> 4) & 1);
    UnitIsBit(x, 5);
    AddSmall(s, (x >> 5) & 1);
    s := s + ((x >> 5) & 1);
    UnitIsBit(x, 6);
    AddSmall(s, (x >> 6) & 1);
    s := s + ((x >> 6) & 1);
    UnitIsBit(x, 7);
    AddSmall(s, (x >> 7) & 1);
  }

  // ---- bytes moved by each constant shift ----

  lemma Moves0(x: bv32)
    ensures Bit(From0(x), 0) == Bit(x, 0) && Bit(From0(x), 1) == Bit(x, 1)
    ensures Bit(From0(x), 2) == Bit(x, 2) && Bit(From0(x), 3) == Bit(x, 3)
    ensures Bit(From0(x), 4) == Bit(x, 4) && Bit(From0(x), 5) == Bit(x, 5)
    ensures Bit(From0(x), 6) == Bit(x, 6) && Bit(From0(x), 7) == Bit(x, 7)
  {
  }

  lemma Moves8(x: bv32)
    ensures Bit(From8(x), 0) == Bit(x, 8) && Bit(From8(x), 1) == Bit(x, 9)
    ensures Bit(From8(x), 2) == Bit(x, 10) && Bit(From8(x), 3) == Bit(x, 11)
    ensures Bit(From8(x), 4) == Bit(x, 12) && Bit(From8(x), 5) == Bit(x, 13)
    ensures Bit(From8(x), 6) == Bit(x, 14) && Bit(From8(x), 7) == Bit(x, 15)
  {
  }

  lemma Moves16(x: bv32)
    ensures Bit(From16(x), 0) == Bit(x, 16) && Bit(From16(x), 1) == Bit(x, 17)
    ensures Bit(From16(x), 2) == Bit(x, 18) && Bit(From16(x), 3) == Bit(x, 19)
    ensures Bit(From16(x), 4) == Bit(x, 20) && Bit(From16(x), 5) == Bit(x, 21)
    ensures Bit(From16(x), 6) == Bit(x, 22) && Bit(From16(x), 7) == Bit(x, 23)
  {
  }

  lemma Moves24(x: bv32)
    ensures Bit(From24(x), 0) == Bit(x, 24) && Bit(From24(x), 1) == Bit(x, 25)
    ensures Bit(From24(x), 2) == Bit(x, 26) && Bit(From24(x), 3) == Bit(x, 27)
    ensures Bit(From24(x), 4) == Bit(x, 28) && Bit(From24(x), 5) == Bit(x, 29)
    ensures Bit(From24(x), 6) == Bit(x, 30) && Bit(From24(x), 7) == Bit(x, 31)
  {
  }

  /** One byte of the word, counted by the trick. */
  lemma ByteCounts(x: bv32, k: nat, z: bv32)
    requires k + 8 <= 32
    requires Bit(z, 0) == Bit(x, k) && Bit(z, 1) == Bit(x, k + 1)
    requires Bit(z, 2) == Bit(x, k + 2) && Bit(z, 3) == Bit(x, k + 3)
    requires Bit(z, 4) == Bit(x, k + 4) && Bit(z, 5) == Bit(x, k + 5)
    requires Bit(z, 6) == Bit(x, k + 6) && Bit(z, 7) == Bit(x, k + 7)
    ensures LowByte(z) as nat == Count(BitsOf(x)[k..k + 8]) && LowByte(z) <= 8
  {
    LowByteSmall(z);
    LowByteCounts(z);
    CountEight(BitsOf(x)[k..k + 8]);
    hide Bit, LowByte, Count, One, BitsOf;
  }

  lemma StageByte0(x: bv32)
    ensures Byte0(Stage(x)) as nat == Count(BitsOf(x)[0..8]) && Byte0(Stage(x)) <= 8
  {
    hide Bit, LowByte, Stage, Byte0, From0, Count, BitsOf;
    ByteSum0(x);
    Moves0(x);
    ByteCounts(x, 0, From0(x));
  }

  lemma StageByte8(x: bv32)
    ensures Byte8(Stage(x)) as nat == Count(BitsOf(x)[8..16]) && Byte8(Stage(x)) <= 8
  {
    hide Bit, LowByte, Stage, Byte8, From8, Count, BitsOf;
    ByteSum8(x);
    Moves8(x);
    ByteCounts(x, 8, From8(x));
  }

  lemma StageByte16(x: bv32)
    ensures Byte16(Stage(x)) as nat == Count(BitsOf(x)[16..24]) && Byte16(Stage(x)) <= 8
  {
    hide Bit, LowByte, Stage, Byte16, From16, Count, BitsOf;
    ByteSum16(x);
    Moves16(x);
    ByteCounts(x, 16, From16(x));
  }

  lemma StageByte24(x: bv32)
    ensures Byte24(Stage(x)) as nat == Count(BitsOf(x)[24..32]) && Byte24(Stage(x)) <= 8
  {
    hide Bit, LowByte, Stage, Byte24, From24, Count, BitsOf;
    ByteSum24(x);
    Moves24(x);
    ByteCounts(x, 24, From24(x));
  }

  lemma InBytes(bs: seq<bool>)
    requires |bs| == 32
    ensures Count(bs) == Count(bs[0..8]) + Count(bs[8..16]) + Count(bs[16..24]) + Count(bs[24..32])
  {
    hide Count;
    var a, b, c, d := bs[0..8], bs[8..16], bs[16..24], bs[24..32];
    assert bs == a + b + c + d;
    CountConcat(a + b + c, d);
    CountConcat(a + b, c);
    CountConcat(a, b);
  }

  /** The bit trick counts the set bits. */
  lemma PopcountIsCount(x: bv32)
    ensures Popcount(x) as nat == Count(BitsOf(x))
  {
    hide Bit, One, Total, Stage, Byte0, Byte8, Byte16, Byte24, AddUp, Count, BitsOf;
    StageByte0(x);
    StageByte8(x);
    StageByte16(x);
    StageByte24(x);
    var y := Stage(x);
    TotalAdds(y);
    AddEights(Byte0(y), Byte8(y), Byte16(y), Byte24(y));
    InBytes(BitsOf(x));
  }

  // ---- distances ----

  /** The positions in which two words differ. */
  ghost function Differing(a: bv32, b: bv32): set<nat> {
    set i: nat | i < 32 && Bit(a, i) != Bit(b, i)
  }

  ghost function SetPositions(bs: seq<bool>): set<nat> {
    set i: nat | i < |bs| && bs[i]
  }

  lemma {:induction false} CountPositions(bs: seq<bool>)
    ensures Count(bs) == |SetPositions(bs)|
  {
    if bs == [] {
      assert SetPositions(bs) == {};
    } else {
      var front, n := bs[..|bs| - 1], |bs| - 1;
      CountPositions(front);
      assert SetPositions(bs) == SetPositions(front) + if bs[n] then {n} else {};
    }
  }

  /** The popcount of the difference is the number of differing positions. */
  lemma PopcountOfXor(a: bv32, b: bv32)
    ensures Popcount(a ^ b) as nat == |Differing(a, b)|
  {
    hide Bit, Popcount, Count;
    PopcountIsCount(a ^ b);
    CountPositions(BitsOf(a ^ b));
    XorPositions(a, b);
  }

  lemma XorPositions(a: bv32, b: bv32)
    ensures SetPositions(BitsOf(a ^ b)) == Differing(a, b)
  {
    hide Bit, BitsOf;
    var x := a ^ b;
    forall i: nat | i < 32 ensures BitsOf(x)[i] <==> Bit(a, i) != Bit(b, i) {
      XorBit(a, b, i);
    }
  }

  /** Words without a differing bit are equal. */
  lemma NoDifference(a: bv32, b: bv32)
    requires Differing(a, b) == {}
    ensures a == b
  {
    hide Bit;
    var x := a ^ b;
    forall i: nat | i < 32 ensures !Bit(x, i) {
      XorBit(a, b, i);
      assert i !in Differing(a, b);
    }
    NoBits(x);
    XorZero(a, b);
  }

  lemma XorZero(a: bv32, b: bv32)
    ensures a ^ b == 0 ==> a == b
  {
  }

  /** Four positions without a bit are a zero digit. */
  lemma ZeroFrom0(x: bv32)
    requires !Bit(x, 0) && !Bit(x, 1) && !Bit(x, 2) && !Bit(x, 3)
    ensures x & 0xF == 0
  {
  }

  lemma ZeroFrom4(x: bv32)
    requires !Bit(x, 4) && !Bit(x, 5) && !Bit(x, 6) && !Bit(x, 7)
    ensures x & 0xF0 == 0
  {
  }

  lemma ZeroFrom8(x: bv32)
    requires !Bit(x, 8) && !Bit(x, 9) && !Bit(x, 10) && !Bit(x, 11)
    ensures x & 0xF00 == 0
  {
  }

  lemma ZeroFrom12(x: bv32)
    requires !Bit(x, 12) && !Bit(x, 13) && !Bit(x, 14) && !Bit(x, 15)
    ensures x & 0xF000 == 0
  {
  }

  lemma ZeroFrom16(x: bv32)
    requires !Bit(x, 16) && !Bit(x, 17) && !Bit(x, 18) && !Bit(x, 19)
    ensures x & 0xF0000 == 0
  {
  }

  lemma ZeroFrom20(x: bv32)
    requires !Bit(x, 20) && !Bit(x, 21) && !Bit(x, 22) && !Bit(x, 23)
    ensures x & 0xF00000 == 0
  {
  }

  lemma ZeroFrom24(x: bv32)
    requires !Bit(x, 24) && !Bit(x, 25) && !Bit(x, 26) && !Bit(x, 27)
    ensures x & 0xF000000 == 0
  {
  }

  lemma ZeroFrom28(x: bv32)
    requires !Bit(x, 28) && !Bit(x, 29) && !Bit(x, 30) && !Bit(x, 31)
    ensures x & 0xF0000000 == 0
  {
  }

  lemma DigitsZero(x: bv32)
    requires x & 0xF == 0 && x & 0xF0 == 0 && x & 0xF00 == 0 && x & 0xF000 == 0
    requires x & 0xF0000 == 0 && x & 0xF00000 == 0 && x & 0xF000000 == 0 && x & 0xF0000000 == 0
    ensures x == 0
  {
  }

  lemma NoBits(x: bv32)
    requires forall i: nat :: i < 32 ==> !Bit(x, i)
    ensures x == 0
  {
    hide Bit;
    ZeroFrom0(x);
    ZeroFrom4(x);
    ZeroFrom8(x);
    ZeroFrom12(x);
    ZeroFrom16(x);
    ZeroFrom20(x);
    ZeroFrom24(x);
    ZeroFrom28(x);
    DigitsZero(x);
  }

  /** At most 32 positions differ. */
  lemma DifferingBounded(a: bv32, b: bv32)
    ensures |Differing(a, b)| <= 32
  {
    hide Bit;
    PopcountOfXor(a, b);
    PopcountIsCount(a ^ b);
  }
}
