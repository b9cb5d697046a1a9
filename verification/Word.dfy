/** One 64-bit word of a bitset: single bits, and the parallel bit count. */
module Word {

  // Named operations, so that the bit-vector arithmetic can be hidden where only its laws matter.

  function Index(i: nat): (k: bv7)
    requires i < 64
    ensures k < 64
  {
    i as bv7
  }

  function Mask(k: bv7): bv64
    requires k < 64
  {
    (1 as bv64) << k
  }

  predicate Meets(w: bv64, a: bv64) {
    w & a != 0
  }

  predicate Apart(a: bv64, b: bv64) {
    a & b == 0
  }

  function Join(w: bv64, a: bv64): bv64 {
    w | a
  }

  function Without(w: bv64, a: bv64): bv64 {
    w & !a
  }

  predicate BitAt(w: bv64, k: bv7)
    requires k < 64
  {
    Meets(w, Mask(k))
  }

  function WithBitAt(w: bv64, k: bv7): bv64
    requires k < 64
  {
    Join(w, Mask(k))
  }

  function WithoutBitAt(w: bv64, k: bv7): bv64
    requires k < 64
  {
    Without(w, Mask(k))
  }

  predicate Bit(w: bv64, i: nat)
    requires i < 64
  {
    BitAt(w, Index(i))
  }

  function WithBit(w: bv64, i: nat): bv64
    requires i < 64
  {
    WithBitAt(w, Index(i))
  }

  function WithoutBit(w: bv64, i: nat): bv64
    requires i < 64
  {
    WithoutBitAt(w, Index(i))
  }

  function PositionToNat(k: bv7): nat {
    k as nat
  }

  lemma IndexRoundTrip(i: nat)
    requires i < 64
    ensures PositionToNat(Index(i)) == i
  {
  }

  lemma IndexIsExact(i: nat, j: nat)
    requires i < 64 && j < 64 && Index(i) == Index(j)
    ensures i == j
  {
    hide Index, PositionToNat;
    IndexRoundTrip(i);
    IndexRoundTrip(j);
  }

  lemma MaskMeetsItself(k: bv7, a: bv64)
    requires k < 64 && a == Mask(k)
    ensures Meets(a, a)
  {
  }

  lemma RawMasksApart(i: bv7, j: bv7, a: bv64, b: bv64)
    requires i < 64 && j < 64 && i != j && a == (1 as bv64) << i && b == (1 as bv64) << j
    ensures Apart(a, b)
  {
  }

  lemma MasksApart(i: bv7, j: bv7)
    requires i < 64 && j < 64 && i != j
    ensures Apart(Mask(i), Mask(j))
  {
    hide Apart;
    RawMasksApart(i, j, Mask(i), Mask(j));
  }

  lemma JoinSame(w: bv64, a: bv64)
    requires Meets(a, a)
    ensures Meets(Join(w, a), a)
  {
    assert (w | a) & a == a;
  }

  lemma Distribute(w: bv64, a: bv64, b: bv64)
    ensures (w | a) & b == (w & b) | (a & b)
  {
  }

  lemma OrZero(x: bv64, y: bv64)
    requires y == 0
    ensures x | y == x
  {
  }

  lemma JoinApart(w: bv64, a: bv64, b: bv64)
    requires Apart(a, b)
    ensures Meets(Join(w, a), b) <==> Meets(w, b)
  {
    Distribute(w, a, b);
    OrZero(w & b, a & b);
  }

  lemma WithoutLaws(w: bv64, a: bv64, b: bv64)
    ensures !Meets(Without(w, a), a)
    ensures Apart(a, b) ==> (Meets(Without(w, a), b) <==> Meets(w, b))
  {
  }

  lemma SetBitAt(w: bv64, i: bv7, j: bv7)
    requires i < 64 && j < 64
    ensures BitAt(WithBitAt(w, i), j) <==> i == j || BitAt(w, j)
  {
    hide Mask, Meets, Apart, Join;
    MaskMeetsItself(i, Mask(i));
    JoinSame(w, Mask(i));
    if i != j {
      MasksApart(i, j);
      JoinApart(w, Mask(i), Mask(j));
    }
  }

  lemma ClearBitAt(w: bv64, i: bv7, j: bv7)
    requires i < 64 && j < 64
    ensures BitAt(WithoutBitAt(w, i), j) <==> i != j && BitAt(w, j)
  {
    hide Mask, Meets, Apart, Without;
    WithoutLaws(w, Mask(i), Mask(j));
    if i != j {
      MasksApart(i, j);
    }
  }

  lemma SetBit(w: bv64, i: nat, j: nat)
    requires i < 64 && j < 64
    ensures Bit(WithBit(w, i), j) <==> i == j || Bit(w, j)
  {
    hide Index, BitAt, WithBitAt;
    SetBitAt(w, Index(i), Index(j));
    if Index(i) == Index(j) {
      IndexIsExact(i, j);
    }
  }

  lemma ClearBit(w: bv64, i: nat, j: nat)
    requires i < 64 && j < 64
    ensures Bit(WithoutBit(w, i), j) <==> i != j && Bit(w, j)
  {
    hide Index, BitAt, WithoutBitAt;
    ClearBitAt(w, Index(i), Index(j));
    if Index(i) == Index(j) {
      IndexIsExact(i, j);
    }
  }

  /** Clearing a bit right after setting it restores the word when the bit was not set. */
  lemma ClearUndoesSet(w: bv64, i: nat)
    requires i < 64 && !Bit(w, i)
    ensures WithoutBit(WithBit(w, i), i) == w
  {
  }

  lemma ZeroHasNoBit(i: nat)
    requires i < 64
    ensures !Bit(0, i)
  {
  }

  // ----- a word is its bits

  /** The position of the lowest one, by halving. */
  function Lowest(x: bv64): bv7 {
    var a: bv7 := if x & 0xFFFFFFFF == 0 then 32 else 0;
    var x1 := x >> a;
    var b: bv7 := if x1 & 0xFFFF == 0 then 16 else 0;
    var x2 := x1 >> b;
    var c: bv7 := if x2 & 0xFF == 0 then 8 else 0;
    var x3 := x2 >> c;
    var d: bv7 := if x3 & 0xF == 0 then 4 else 0;
    var x4 := x3 >> d;
    var e: bv7 := if x4 & 3 == 0 then 2 else 0;
    var x5 := x4 >> e;
    a + b + c + d + e + if x5 & 1 == 0 then 1 else 0
  }

  lemma LowestIsOne(x: bv64)
    requires x != 0
    ensures Lowest(x) < 64 && BitAt(x, Lowest(x))
  {
  }

  lemma FindOne(x: bv64) returns (k: bv7)
    requires x != 0
    ensures k < 64 && BitAt(x, k)
  {
    LowestIsOne(x);
    k := Lowest(x);
  }

  lemma XorDiffers(v: bv64, w: bv64)
    requires v != w
    ensures v ^ w != 0
  {
  }

  function Xor(v: bv64, w: bv64): bv64 {
    v ^ w
  }

  lemma XorFlips(v: bv64, w: bv64, j: nat)
    requires j < 64
    ensures Bit(Xor(v, w), j) <==> Bit(v, j) != Bit(w, j)
  {
    hide Index;
    XorBits(v, w, Index(j));
  }

  lemma XorBits(v: bv64, w: bv64, k: bv7)
    requires k < 64
    ensures BitAt(v ^ w, k) <==> BitAt(v, k) != BitAt(w, k)
  {
  }

  lemma FindDifferentBitAt(v: bv64, w: bv64) returns (k: bv7)
    requires v != w
    ensures k < 64 && BitAt(v, k) != BitAt(w, k)
  {
    hide BitAt;
    XorDiffers(v, w);
    k := FindOne(v ^ w);
    XorBits(v, w, k);
  }

  lemma PositionRoundTrip(k: bv7)
    requires k < 64
    ensures k as nat < 64 && Index(k as nat) == k
  {
  }

  /** Different words differ in some bit. */
  lemma FindDifferentBit(v: bv64, w: bv64) returns (i: nat)
    requires v != w
    ensures i < 64 && Bit(v, i) != Bit(w, i)
  {
    hide Index, BitAt;
    var k := FindDifferentBitAt(v, w);
    PositionRoundTrip(k);
    i := k as nat;
  }

  // ----- the parallel bit count

  function BitValue(w: bv64, i: nat): nat
    requires i < 64
  {
    if Bit(w, i) then 1 else 0
  }

  /** The number of ones among bits `i` up to, not including, `k`. */
  function Ones(w: bv64, i: nat, k: nat): nat
    requires i <= k <= 64
  {
    if i == k then 0 else Ones(w, i, k - 1) + BitValue(w, k - 1)
  }

  /** The first three lines of the loop body of `popcnt`: every byte holds its own count. */
  function ByteCounts(v: bv64): bv64 {
    var v1 := (v & 0x5555555555555555) + ((v & 0xAAAAAAAAAAAAAAAA) >> 1);
    var v2 := (v1 & 0x3333333333333333) + ((v1 & 0xCCCCCCCCCCCCCCCC) >> 2);
    (v2 & 0x0F0F0F0F0F0F0F0F) + ((v2 & 0xF0F0F0F0F0F0F0F0) >> 4)
  }

  /** The whole loop body: the multiplication adds the bytes into the top one. */
  function Popcount(v: bv64): bv64 {
    Byte(Times8(ByteCounts(v)), 56)
  }

  function Sum(x: bv64, y: bv64): bv64 {
    x + y
  }

  function ToNat(x: bv64): nat {
    x as nat
  }

  function Byte(v: bv64, k: bv7): bv64
    requires k <= 56
  {
    (v >> k) & 0xFF
  }

  function One(v: bv64, k: bv7): bv64
    requires k < 64
  {
    (v >> k) & 1
  }

  /** The number of ones in the eight bits from `i` on, added up in pairs. */
  function Eight(v: bv64, i: nat): bv64
    requires i <= 56
  {
    Sum(Sum(Sum(One(v, Index(i)), One(v, Index(i + 1))), Sum(One(v, Index(i + 2)), One(v, Index(i + 3)))),
        Sum(Sum(One(v, Index(i + 4)), One(v, Index(i + 5))), Sum(One(v, Index(i + 6)), One(v, Index(i + 7)))))
  }

  /** The same, by bit-vector positions. */
  function EightAt(v: bv64, k: bv7): bv64
    requires k <= 56
  {
    Sum(Sum(Sum(One(v, k), One(v, k + 1)), Sum(One(v, k + 2), One(v, k + 3))),
        Sum(Sum(One(v, k + 4), One(v, k + 5)), Sum(One(v, k + 6), One(v, k + 7))))
  }

  lemma LowByteCountsAt(v: bv64, k: bv7)
    requires k & 7 == 0 && k <= 24
    ensures Byte(ByteCounts(v), k) == EightAt(v, k)
  {
  }

  lemma HighByteCountsAt(v: bv64, k: bv7)
    requires k & 7 == 0 && 32 <= k <= 56
    ensures Byte(ByteCounts(v), k) == EightAt(v, k)
  {
  }

  lemma ByteCountsAt(v: bv64, k: bv7)
    requires k & 7 == 0 && k <= 56
    ensures Byte(ByteCounts(v), k) == EightAt(v, k)
  {
    hide Byte, ByteCounts, EightAt;
    if k <= 24 {
      LowByteCountsAt(v, k);
    } else {
      HighByteCountsAt(v, k);
    }
  }

  lemma NextPosition(k: bv7)
    requires k < 64
    ensures PositionToNat(k + 1) == PositionToNat(k) + 1
  {
  }

  lemma PositionIsExact(a: bv7, b: bv7)
    requires PositionToNat(a) == PositionToNat(b)
    ensures a == b
  {
  }

  lemma NextIndex(i: nat)
    requires i < 63
    ensures Index(i + 1) == Index(i) + 1
  {
    hide Index, PositionToNat;
    IndexRoundTrip(i);
    IndexRoundTrip(i + 1);
    NextPosition(Index(i));
    PositionIsExact(Index(i + 1), Index(i) + 1);
  }

  lemma EightIsEightAt(v: bv64, i: nat, k: bv7)
    requires i <= 56 && k == Index(i) && k <= 56
    ensures Eight(v, i) == EightAt(v, k)
  {
    hide Index, One, Sum;
    NextIndex(i);
    NextIndex(i + 1);
    NextIndex(i + 2);
    NextIndex(i + 3);
    NextIndex(i + 4);
    NextIndex(i + 5);
    NextIndex(i + 6);
    assert k + 1 + 1 == k + 2 && k + 2 + 1 == k + 3 && k + 3 + 1 == k + 4;
    assert k + 4 + 1 == k + 5 && k + 5 + 1 == k + 6 && k + 6 + 1 == k + 7;
  }

  lemma ByteIndices()
    ensures Index(0) == 0 && Index(8) == 8 && Index(16) == 16 && Index(24) == 24
    ensures Index(32) == 32 && Index(40) == 40 && Index(48) == 48 && Index(56) == 56
  {
  }

  lemma ByteCountsAre(v: bv64, i: nat, k: bv7)
    requires i <= 56 && k == Index(i) && k <= 56 && k & 7 == 0
    ensures Byte(ByteCounts(v), k) == Eight(v, i)
  {
    hide ByteCounts, Byte, Eight, EightAt, Index;
    ByteCountsAt(v, k);
    EightIsEightAt(v, i, k);
  }

  predicate Below16(v: bv64) {
    v & 0xF0F0F0F0F0F0F0F0 == 0
  }

  lemma ByteCountsSmall(v: bv64)
    ensures Below16(ByteCounts(v))
  {
  }

  // The multiplication adds each byte to its neighbour, then pairs, then halves.

  function Times2(v: bv64): bv64 {
    v * 0x0101
  }

  function Times4(v: bv64): bv64 {
    v * 0x01010101
  }

  function Times8(v: bv64): bv64 {
    v * 0x0101010101010101
  }

  predicate Folds(x: bv64, y: bv64, k: bv7)
    requires k <= 32
  {
    y == x + (x << k)
  }

  lemma RawFolds2(v: bv64, y: bv64)
    requires y == v * 0x0101
    ensures Folds(v, y, 8)
  {
  }

  lemma RawFolds4(v: bv64, x: bv64, y: bv64)
    requires x == v * 0x0101 && y == v * 0x01010101
    ensures Folds(x, y, 16)
  {
  }

  lemma RawFolds8(v: bv64, x: bv64, y: bv64)
    requires x == v * 0x01010101 && y == v * 0x0101010101010101
    ensures Folds(x, y, 32)
  {
  }

  lemma MultiplyFolds(v: bv64)
    ensures Folds(v, Times2(v), 8)
    ensures Folds(Times2(v), Times4(v), 16)
    ensures Folds(Times4(v), Times8(v), 32)
  {
    hide Folds;
    RawFolds2(v, Times2(v));
    RawFolds4(v, Times2(v), Times4(v));
    RawFolds8(v, Times4(v), Times8(v));
  }

  predicate Below32(v: bv64) {
    v & 0xE0E0E0E0E0E0E0E0 == 0
  }

  predicate Below64(v: bv64) {
    v & 0xC0C0C0C0C0C0C0C0 == 0
  }

  lemma AddNeighbours(v: bv64, x: bv64)
    requires Below16(v) && Folds(v, x, 8)
    ensures Below32(x)
    ensures Byte(x, 8) == Sum(Byte(v, 8), Byte(v, 0)) && Byte(x, 24) == Sum(Byte(v, 24), Byte(v, 16))
    ensures Byte(x, 40) == Sum(Byte(v, 40), Byte(v, 32)) && Byte(x, 56) == Sum(Byte(v, 56), Byte(v, 48))
  {
  }

  lemma AddPairs(v: bv64, x: bv64)
    requires Below32(v) && Folds(v, x, 16)
    ensures Below64(x)
    ensures Byte(x, 24) == Sum(Byte(v, 24), Byte(v, 8))
  {
  }

  lemma AddHighPairs(v: bv64, x: bv64)
    requires Below32(v) && Folds(v, x, 16)
    ensures Byte(x, 56) == Sum(Byte(v, 56), Byte(v, 40))
  {
  }

  lemma AddHalves(v: bv64, x: bv64)
    requires Below64(v) && Folds(v, x, 32)
    ensures Byte(x, 56) == Sum(Byte(v, 56), Byte(v, 24))
  {
  }

  lemma TopByteIsSum(v: bv64)
    requires Below16(v)
    ensures Byte(Times8(v), 56)
            == Sum(Sum(Sum(Byte(v, 56), Byte(v, 48)), Sum(Byte(v, 40), Byte(v, 32))),
                   Sum(Sum(Byte(v, 24), Byte(v, 16)), Sum(Byte(v, 8), Byte(v, 0))))
  {
    hide Times2, Times4, Times8, Folds, Sum, Byte, Below16, Below32, Below64;
    MultiplyFolds(v);
    AddNeighbours(v, Times2(v));
    AddPairs(Times2(v), Times4(v));
    AddHighPairs(Times2(v), Times4(v));
    AddHalves(Times4(v), Times8(v));
  }

  function AllOnes(v: bv64): bv64 {
    Sum(Sum(Sum(Eight(v, 56), Eight(v, 48)), Sum(Eight(v, 40), Eight(v, 32))),
        Sum(Sum(Eight(v, 24), Eight(v, 16)), Sum(Eight(v, 8), Eight(v, 0))))
  }

  lemma PopcountIsSum(v: bv64)
    ensures Popcount(v) == AllOnes(v)
  {
    hide ByteCounts, Byte, Eight, Sum, Times8, Below16, Index;
    ByteCountsSmall(v);
    TopByteIsSum(ByteCounts(v));
    ByteIndices();
    ByteCountsAre(v, 0, 0);
    ByteCountsAre(v, 8, 8);
    ByteCountsAre(v, 16, 16);
    ByteCountsAre(v, 24, 24);
    ByteCountsAre(v, 32, 32);
    ByteCountsAre(v, 40, 40);
    ByteCountsAre(v, 48, 48);
    ByteCountsAre(v, 56, 56);
  }

  predicate Small(x: bv64) {
    x <= 64
  }

  lemma SmallAsNat(x: bv64)
    ensures Small(x) <==> ToNat(x) <= 64
  {
  }

  function PlusOne(x: bv64): bv64 {
    x + 1
  }

  function MinusOne(x: bv64): bv64 {
    x - 1
  }

  predicate Below128(x: bv64) {
    x < 128
  }

  lemma Successor(x: bv64)
    requires Below128(x)
    ensures ToNat(PlusOne(x)) == ToNat(x) + 1
  {
  }

  lemma OneLess(x: bv64, y: bv64)
    requires Small(x) && Small(y) && y != 0
    ensures Small(MinusOne(y)) && Below128(MinusOne(y)) && Below128(Sum(x, MinusOne(y)))
    ensures y == PlusOne(MinusOne(y)) && Sum(x, y) == PlusOne(Sum(x, MinusOne(y)))
  {
  }

  lemma ZeroSum(x: bv64)
    ensures ToNat(0) == 0 && Sum(x, 0) == x
  {
  }

  lemma NotZero(y: bv64)
    requires ToNat(y) > 0
    ensures y != 0
  {
  }

  lemma OnlyZero(y: bv64)
    requires ToNat(y) == 0
    ensures y == 0
  {
  }

  lemma {:induction false} SmallSumOf(x: bv64, y: bv64, n: nat)
    requires Small(x) && Small(y) && n == ToNat(y)
    ensures ToNat(Sum(x, y)) == ToNat(x) + n
    decreases n
  {
    hide ToNat, Small, Below128, Sum, PlusOne, MinusOne;
    if n == 0 {
      OnlyZero(y);
      ZeroSum(x);
    } else {
      NotZero(y);
      OneLess(x, y);
      Successor(MinusOne(y));
      SmallSumOf(x, MinusOne(y), n - 1);
      Successor(Sum(x, MinusOne(y)));
    }
  }

  lemma SmallSum(x: bv64, y: bv64)
    requires Small(x) && Small(y)
    ensures ToNat(Sum(x, y)) == ToNat(x) + ToNat(y)
  {
    hide ToNat, Small, Sum;
    SmallSumOf(x, y, ToNat(y));
  }

  lemma SumAsNat(x: bv64, y: bv64)
    requires ToNat(x) <= 64 && ToNat(y) <= 64
    ensures ToNat(Sum(x, y)) == ToNat(x) + ToNat(y)
  {
    hide Small, ToNat, Sum;
    SmallAsNat(x);
    SmallAsNat(y);
    SmallSum(x, y);
  }

  lemma OneIsBit(v: bv64, k: bv7)
    requires k < 64
    ensures One(v, k) == if BitAt(v, k) then 1 else 0
  {
  }

  lemma OneAsNat(v: bv64, i: nat)
    requires i < 64
    ensures ToNat(One(v, Index(i))) == BitValue(v, i)
  {
    hide One, BitAt, Index;
    OneIsBit(v, Index(i));
  }

  lemma {:induction false} OnesSplit(v: bv64, i: nat, j: nat, k: nat)
    requires i <= j <= k <= 64
    ensures Ones(v, i, k) == Ones(v, i, j) + Ones(v, j, k)
  {
    if j < k {
      OnesSplit(v, i, j, k - 1);
    }
  }

  lemma {:induction false} OnesBound(v: bv64, i: nat, k: nat)
    requires i <= k <= 64
    ensures Ones(v, i, k) <= k - i
  {
    if i < k {
      OnesBound(v, i, k - 1);
    }
  }

  /** Two neighbouring counts add up to the count of both. */
  lemma Joined(v: bv64, i: nat, j: nat, k: nat, x: bv64, y: bv64)
    requires i <= j <= k <= 64 && ToNat(x) == Ones(v, i, j) && ToNat(y) == Ones(v, j, k)
    ensures ToNat(Sum(x, y)) == Ones(v, i, k) && ToNat(Sum(y, x)) == Ones(v, i, k)
  {
    hide ToNat, Sum, Ones;
    OnesSplit(v, i, j, k);
    OnesBound(v, i, j);
    OnesBound(v, j, k);
    SumAsNat(x, y);
    SumAsNat(y, x);
  }

  lemma OneCounts(v: bv64, i: nat)
    requires i < 64
    ensures ToNat(One(v, Index(i))) == Ones(v, i, i + 1)
  {
    hide One, ToNat, Index, BitValue;
    OneAsNat(v, i);
    assert Ones(v, i, i) == 0;
  }

  lemma TwoCount(v: bv64, i: nat)
    requires i + 1 < 64
    ensures ToNat(Sum(One(v, Index(i)), One(v, Index(i + 1)))) == Ones(v, i, i + 2)
  {
    hide One, ToNat, Sum, Ones, Index;
    OneCounts(v, i);
    OneCounts(v, i + 1);
    Joined(v, i, i + 1, i + 2, One(v, Index(i)), One(v, Index(i + 1)));
  }

  lemma EightCounts(v: bv64, i: nat)
    requires i <= 56
    ensures ToNat(Eight(v, i)) == Ones(v, i, i + 8)
  {
    hide One, ToNat, Sum, Ones, Index;
    TwoCount(v, i);
    TwoCount(v, i + 2);
    TwoCount(v, i + 4);
    TwoCount(v, i + 6);
    var a, b := Sum(One(v, Index(i)), One(v, Index(i + 1))), Sum(One(v, Index(i + 2)), One(v, Index(i + 3)));
    var c, d := Sum(One(v, Index(i + 4)), One(v, Index(i + 5))), Sum(One(v, Index(i + 6)), One(v, Index(i + 7)));
    Joined(v, i, i + 2, i + 4, a, b);
    Joined(v, i + 4, i + 6, i + 8, c, d);
    Joined(v, i, i + 4, i + 8, Sum(a, b), Sum(c, d));
  }

  lemma HalfCounts(v: bv64, i: nat)
    requires i <= 32
    ensures ToNat(Sum(Sum(Eight(v, i + 24), Eight(v, i + 16)), Sum(Eight(v, i + 8), Eight(v, i)))) == Ones(v, i, i + 32)
  {
    hide Eight, ToNat, Sum, Ones;
    EightCounts(v, i);
    EightCounts(v, i + 8);
    EightCounts(v, i + 16);
    EightCounts(v, i + 24);
    Joined(v, i, i + 8, i + 16, Eight(v, i), Eight(v, i + 8));
    Joined(v, i + 16, i + 24, i + 32, Eight(v, i + 16), Eight(v, i + 24));
    Joined(v, i, i + 16, i + 32, Sum(Eight(v, i + 8), Eight(v, i)), Sum(Eight(v, i + 24), Eight(v, i + 16)));
  }

  /** The parallel count is the number of ones. */
  lemma PopcountCorrect(v: bv64)
    ensures ToNat(Popcount(v)) == Ones(v, 0, 64)
  {
    hide Eight, ToNat, Sum, Ones, Popcount;
    PopcountIsSum(v);
    HalfCounts(v, 0);
    HalfCounts(v, 32);
    Joined(v, 0, 32, 64,
           Sum(Sum(Eight(v, 24), Eight(v, 16)), Sum(Eight(v, 8), Eight(v, 0))),
           Sum(Sum(Eight(v, 56), Eight(v, 48)), Sum(Eight(v, 40), Eight(v, 32))));
  }
}
