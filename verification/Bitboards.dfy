/**
 A bitboard is a 64-bit word with one bit per square (bit 0 = a1, bit 63 = h8).

 Everything above this module reasons about a word only through `Contains`; the lemmas here
 are the only place where the bit-vector encoding is opened.
*/
module Bitboards {
  import opened Chess
  import opened Bits

  predicate Contains(b: bv64, s: Square) {
    BitAt(b, s as bv6)
  }

  function With(b: bv64, s: Square): bv64 {
    SetAt(b, s as bv6)
  }

  function Without(b: bv64, s: Square): bv64 {
    ClearAt(b, s as bv6)
  }

  function And(a: bv64, b: bv64): bv64 {
    a & b
  }

  function Or(a: bv64, b: bv64): bv64 {
    a | b
  }

  function Xor(a: bv64, b: bv64): bv64 {
    a ^ b
  }

  function SetAt(b: bv64, i: bv6): bv64 {
    b | (1 << i)
  }

  function ClearAt(b: bv64, i: bv6): bv64 {
    b & !(1 << i)
  }

  lemma IndexRoundTrip(s: Square)
    ensures (s as bv6) as int == s
  {}

  lemma IndexInjective(s: Square, t: Square)
    ensures s as bv6 == t as bv6 <==> s == t
  {
    IndexRoundTrip(s);
    IndexRoundTrip(t);
  }

  lemma OneBit(i: bv6, j: bv6)
    ensures BitAt(1 << i, j) == (i == j)
  {}

  lemma AndNotBit(a: bv64, b: bv64, i: bv6)
    ensures BitAt(a & !b, i) == (BitAt(a, i) && !BitAt(b, i))
  {}

  lemma AndBit(a: bv64, b: bv64, i: bv6)
    ensures BitAt(a & b, i) == (BitAt(a, i) && BitAt(b, i))
  {}

  lemma OrBit(a: bv64, b: bv64, i: bv6)
    ensures BitAt(a | b, i) == (BitAt(a, i) || BitAt(b, i))
  {}

  lemma XorBit(a: bv64, b: bv64, i: bv6)
    ensures BitAt(a ^ b, i) == (BitAt(a, i) != BitAt(b, i))
  {}

  lemma SetBit(b: bv64, i: bv6, j: bv6)
    ensures BitAt(SetAt(b, i), j) == (i == j || BitAt(b, j))
  {
    hide BitAt;
    OrBit(b, 1 << i, j);
    OneBit(i, j);
  }

  lemma ClearBit(b: bv64, i: bv6, j: bv6)
    ensures BitAt(ClearAt(b, i), j) == (i != j && BitAt(b, j))
  {
    hide BitAt;
    AndNotBit(b, 1 << i, j);
    OneBit(i, j);
  }

  lemma WithAt(b: bv64, s: Square, t: Square)
    ensures Contains(With(b, s), t) == (t == s || Contains(b, t))
  {
    hide BitAt, SetAt, ClearAt;
    IndexInjective(s, t);
    SetBit(b, s as bv6, t as bv6);
  }

  lemma WithoutAt(b: bv64, s: Square, t: Square)
    ensures Contains(Without(b, s), t) == (t != s && Contains(b, t))
  {
    hide BitAt, SetAt, ClearAt;
    IndexInjective(s, t);
    ClearBit(b, s as bv6, t as bv6);
  }

  lemma WithContains(b: bv64, s: Square)
    ensures forall t: Square :: Contains(With(b, s), t) == (t == s || Contains(b, t))
  {
    hide *;
    forall t: Square
      ensures Contains(With(b, s), t) == (t == s || Contains(b, t))
    {
      WithAt(b, s, t);
    }
  }

  lemma WithoutContains(b: bv64, s: Square)
    ensures forall t: Square :: Contains(Without(b, s), t) == (t != s && Contains(b, t))
  {
    hide *;
    forall t: Square
      ensures Contains(Without(b, s), t) == (t != s && Contains(b, t))
    {
      WithoutAt(b, s, t);
    }
  }

  lemma AndContains(a: bv64, b: bv64, s: Square)
    ensures Contains(And(a, b), s) == (Contains(a, s) && Contains(b, s))
  {
    hide BitAt;
    AndBit(a, b, s as bv6);
  }

  lemma OrContains(a: bv64, b: bv64, s: Square)
    ensures Contains(Or(a, b), s) == (Contains(a, s) || Contains(b, s))
  {
    hide BitAt;
    OrBit(a, b, s as bv6);
  }

  lemma XorContains(a: bv64, b: bv64, s: Square)
    ensures Contains(Xor(a, b), s) == (Contains(a, s) != Contains(b, s))
  {
    hide BitAt;
    XorBit(a, b, s as bv6);
  }

  lemma EmptyContains()
    ensures forall s: Square :: !Contains(0, s)
  {}

  // ---- Extensionality ----

  /** Some set bit of a nonzero word, found by halving. */
  function SomeBit(b: bv64): bv6 {
    var x5: bv6 := if b & 0xFFFF_FFFF == 0 then 32 else 0;
    var b5 := b >> x5;
    var x4: bv6 := if b5 & 0xFFFF == 0 then 16 else 0;
    var b4 := b5 >> x4;
    var x3: bv6 := if b4 & 0xFF == 0 then 8 else 0;
    var b3 := b4 >> x3;
    var x2: bv6 := if b3 & 0xF == 0 then 4 else 0;
    var b2 := b3 >> x2;
    var x1: bv6 := if b2 & 0x3 == 0 then 2 else 0;
    var b1 := b2 >> x1;
    var x0: bv6 := if b1 & 0x1 == 0 then 1 else 0;
    x5 + x4 + x3 + x2 + x1 + x0
  }

  lemma SomeBitIsSet(b: bv64)
    requires b != 0
    ensures BitAt(b, SomeBit(b))
  {}

  lemma SquareOfIndex(i: bv6) returns (s: Square)
    ensures s as bv6 == i
  {
    s := i as int;
  }

  lemma DifferentBit(a: bv64, b: bv64) returns (i: bv6)
    requires a != b
    ensures BitAt(a, i) != BitAt(b, i)
  {
    hide BitAt, SomeBit;
    XorNonzero(a, b);
    i := SomeBit(a ^ b);
    SomeBitIsSet(a ^ b);
    XorBit(a, b, i);
  }

  lemma XorNonzero(a: bv64, b: bv64)
    requires a != b
    ensures a ^ b != 0
  {}

  lemma DifferentSquare(a: bv64, b: bv64) returns (s: Square)
    requires a != b
    ensures Contains(a, s) != Contains(b, s)
  {
    hide BitAt;
    var i := DifferentBit(a, b);
    s := SquareOfIndex(i);
  }

  /** Two words with the same members are the same word. */
  lemma Extensional(a: bv64, b: bv64)
    requires forall s: Square :: Contains(a, s) == Contains(b, s)
    ensures a == b
  {
    hide *;
    if a != b {
      var s := DifferentSquare(a, b);
    }
  }

  lemma NonemptyIff(b: bv64)
    ensures b != 0 <==> exists s: Square :: Contains(b, s)
  {
    hide *;
    EmptyContains();
    if b != 0 {
      var s := DifferentSquare(b, 0);
    }
  }

  // ---- Counting ----

  /** Number of members below `n`. */
  function MembersTo(b: bv64, n: nat): (m: nat)
    requires n <= 64
  {
    if n == 0 then 0 else MembersTo(b, n - 1) + if Contains(b, n - 1) then 1 else 0
  }

  /** Number of set bits (`count_ones`). */
  function Count(b: bv64): nat {
    MembersTo(b, 64)
  }

  // ---- Exclusive-or ----

  lemma XorBits()
    ensures forall a: bv64, b: bv64, s: Square :: Contains(Xor(a, b), s) == (Contains(a, s) != Contains(b, s))
  {
    hide *;
    forall a: bv64, b: bv64, s: Square
      ensures Contains(Xor(a, b), s) == (Contains(a, s) != Contains(b, s))
    {
      XorContains(a, b, s);
    }
  }

  lemma XorSwap(a: bv64, b: bv64, c: bv64)
    ensures Xor(Xor(a, b), c) == Xor(Xor(a, c), b)
  {
    hide *;
    XorBits();
    Extensional(Xor(Xor(a, b), c), Xor(Xor(a, c), b));
  }

  lemma XorAssociates(a: bv64, b: bv64, c: bv64)
    ensures Xor(Xor(a, b), c) == Xor(a, Xor(b, c))
  {
    hide *;
    XorBits();
    Extensional(Xor(Xor(a, b), c), Xor(a, Xor(b, c)));
  }

  lemma XorCancel(a: bv64, b: bv64)
    ensures Xor(Xor(a, b), b) == a
  {}

  lemma XorZero(a: bv64)
    ensures Xor(a, 0) == a && Xor(0, a) == a
  {}

  // ---- Draining a word, lowest square first ----

  /** Least member at or above `i`, or 64: `trailing_zeros` is `LowestFrom(b, 0)`. */
  function LowestFrom(b: bv64, i: nat): (r: nat)
    requires i <= 64
    ensures i <= r <= 64
    ensures r < 64 ==> Contains(b, r)
    ensures forall s: Square :: i <= s < r ==> !Contains(b, s)
    decreases 64 - i
  {
    if i == 64 || Contains(b, i) then i else LowestFrom(b, i + 1)
  }

  function Pred(b: bv64): bv64 {
    b - 1
  }

  /** What `pop_lsb` leaves behind. */
  function DropLowest(b: bv64): bv64 {
    And(b, Pred(b))
  }

  function Double(h: bv64): bv64 {
    2 * h
  }

  function DoubleMore(h: bv64): bv64 {
    2 * h + 1
  }

  function Half(b: bv64): bv64 {
    b >> 1
  }

  ghost predicate IsLowest(b: bv64, i: bv6) {
    BitAt(b, i) && forall k: bv6 :: k < i ==> !BitAt(b, k)
  }

  lemma PredOdd(b: bv64)
    requires BitAt(b, 0)
    ensures Pred(b) == ClearAt(b, 0)
  {}

  lemma EvenIsDouble(b: bv64)
    requires !BitAt(b, 0)
    ensures b == Double(Half(b))
  {}

  lemma PredDouble(h: bv64)
    ensures Pred(Double(h)) == DoubleMore(Pred(h))
  {}

  lemma DoubleBit(h: bv64, i: bv6)
    ensures BitAt(Double(h), i) == (i != 0 && BitAt(h, i - 1))
  {}

  lemma DoubleMoreBit(h: bv64, i: bv6)
    ensures BitAt(DoubleMore(h), i) == (i == 0 || BitAt(h, i - 1))
  {}

  lemma LowestOfHalf(h: bv64, i: bv6)
    requires i != 0 && IsLowest(Double(h), i)
    ensures IsLowest(h, i - 1)
  {
    hide BitAt, Double;
    DoubleBit(h, i);
    forall k: bv6 | k < i - 1
      ensures !BitAt(h, k)
    {
      DoubleBit(h, k + 1);
      assert k + 1 < i;
    }
  }

  /** Subtracting one sets the zeros below the lowest set bit, clears that bit, and keeps the rest. */
  lemma {:induction false} PredBit(b: bv64, i: bv6, j: bv6)
    requires IsLowest(b, i)
    ensures BitAt(Pred(b), j) == (j < i || (j > i && BitAt(b, j)))
    decreases i
  {
    hide BitAt, ClearAt, Pred, Double, DoubleMore, Half;
    if i == 0 {
      PredOdd(b);
      ClearBit(b, 0, j);
    } else {
      assert !BitAt(b, 0);
      var h := Half(b);
      EvenIsDouble(b);
      PredDouble(h);
      DoubleMoreBit(Pred(h), j);
      DoubleBit(h, j);
      LowestOfHalf(h, i);
      if j != 0 {
        PredBit(h, i - 1, j - 1);
      }
    }
  }

  lemma LowestAsBit(b: bv64, s: Square)
    requires Contains(b, s) && forall t: Square :: t < s ==> !Contains(b, t)
    ensures IsLowest(b, s as bv6)
  {
    hide BitAt;
    forall k: bv6 | k < s as bv6
      ensures !BitAt(b, k)
    {
      IndexRoundTrip(s);
      var t := SquareOfIndex(k);
      IndexOrder(t, s);
      assert !Contains(b, t);
    }
  }

  lemma IndexOrder(s: Square, t: Square)
    ensures s < t <==> (s as bv6) < (t as bv6)
  {
    IndexRoundTrip(s);
    IndexRoundTrip(t);
  }

  lemma PredContains(b: bv64, s: Square, t: Square)
    requires s == LowestFrom(b, 0)
    ensures Contains(Pred(b), t) == (t < s || (t > s && Contains(b, t)))
  {
    hide BitAt, IsLowest, Pred;
    LowestAsBit(b, s);
    PredBit(b, s as bv6, t as bv6);
    IndexOrder(s, t);
    IndexOrder(t, s);
  }

  /** `pop_lsb` removes exactly the square it returns. */
  lemma DropLowestAt(b: bv64, s: Square, t: Square)
    requires s == LowestFrom(b, 0)
    ensures Contains(DropLowest(b), t) == (Contains(b, t) && t != s)
  {
    hide Contains, And, Pred;
    PredContains(b, s, t);
    AndContains(b, Pred(b), t);
  }

  lemma PopContains(b: bv64)
    requires b != 0
    ensures LowestFrom(b, 0) < 64
    ensures forall t: Square :: Contains(DropLowest(b), t) == (Contains(b, t) && t != LowestFrom(b, 0))
  {
    hide *;
    EmptyContains();
    var w := DifferentSquare(b, 0);
    forall t: Square
      ensures Contains(DropLowest(b), t) == (Contains(b, t) && t != LowestFrom(b, 0))
    {
      DropLowestAt(b, LowestFrom(b, 0), t);
    }
  }
}
