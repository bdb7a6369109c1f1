/**
 Enumerating the subsets of a word with the step `sub = (sub - mask) & mask`.

 The rank of a subset is the number its bits spell once the gaps of the mask are squeezed out. One
 step adds one to the rank, so the enumeration visits every subset exactly once, in rank order.
*/
module Subsets {
  import opened Chess
  import opened Bits
  import opened Bitboards

  predicate IsSubset(sub: bv64, mask: bv64) {
    And(sub, mask) == sub
  }

  /** The carry-rippler step, wrapping at 64 bits. */
  function NextSubset(mask: bv64, sub: bv64): bv64 {
    (sub - mask) & mask
  }

  // ---- The step in terms of the gap between subset and mask ----

  function AndNot(a: bv64, b: bv64): bv64 {
    a & !b
  }

  function Plus(a: bv64, b: bv64): bv64 {
    a + b
  }

  function Negate(a: bv64): bv64 {
    0 - a
  }

  lemma MaskIsSum(mask: bv64, sub: bv64)
    requires And(sub, mask) == sub
    ensures mask == Plus(sub, AndNot(mask, sub))
  {}

  lemma StepOfSum(sub: bv64, gap: bv64)
    ensures NextSubset(sub + gap, sub) == (0 - gap) & (sub + gap)
  {}

  lemma PlusIs(a: bv64, b: bv64)
    ensures Plus(a, b) == a + b
  {}

  lemma AndNegateIs(gap: bv64, m: bv64)
    ensures And(Negate(gap), m) == (0 - gap) & m
  {}

  lemma NegateIsNotPred(gap: bv64, m: bv64)
    ensures And(Negate(gap), m) == AndNot(m, Pred(gap))
  {}

  lemma StepBySum(sub: bv64, gap: bv64)
    ensures NextSubset(sub + gap, sub) == And(Negate(gap), sub + gap)
  {
    hide *;
    StepOfSum(sub, gap);
    AndNegateIs(gap, sub + gap);
  }

  lemma StepByPlus(sub: bv64, gap: bv64)
    ensures NextSubset(Plus(sub, gap), sub) == And(Negate(gap), Plus(sub, gap))
  {
    hide *;
    PlusIs(sub, gap);
    StepBySum(sub, gap);
  }

  /** One step keeps the bits of the mask that `gap - 1` lacks. */
  lemma StepByGap(mask: bv64, sub: bv64)
    requires IsSubset(sub, mask)
    ensures NextSubset(mask, sub) == AndNot(mask, Pred(AndNot(mask, sub)))
  {
    hide And, AndNot, Plus, Negate, Pred, NextSubset;
    var gap := AndNot(mask, sub);
    MaskIsSum(mask, sub);
    StepByPlus(sub, gap);
    NegateIsNotPred(gap, mask);
  }

  lemma AndNotContains(a: bv64, b: bv64, s: Square)
    ensures Contains(AndNot(a, b), s) == (Contains(a, s) && !Contains(b, s))
  {
    hide BitAt;
    AndNotBit(a, b, s as bv6);
  }

  lemma SubsetContains(sub: bv64, mask: bv64)
    ensures IsSubset(sub, mask) <==> forall s: Square :: Contains(sub, s) ==> Contains(mask, s)
  {
    hide Contains, And;
    forall s: Square
      ensures Contains(And(sub, mask), s) == (Contains(sub, s) && Contains(mask, s))
    {
      AndContains(sub, mask, s);
    }
    if forall s: Square :: Contains(sub, s) ==> Contains(mask, s) {
      Extensional(And(sub, mask), sub);
    }
  }

  /** Lowest bit of the mask that the subset lacks. */
  function LowestGap(mask: bv64, sub: bv64): nat {
    LowestFrom(AndNot(mask, sub), 0)
  }

  /** The step clears the subset below its lowest gap, fills that gap, and keeps the rest. */
  lemma StepContains(mask: bv64, sub: bv64, t: Square)
    requires IsSubset(sub, mask) && LowestGap(mask, sub) < 64
    ensures Contains(NextSubset(mask, sub), t) <==>
            t == LowestGap(mask, sub) || (t > LowestGap(mask, sub) && Contains(sub, t))
  {
    var gap := AndNot(mask, sub);
    var g := LowestGap(mask, sub);
    SubsetContains(sub, mask);
    hide Contains, AndNot, NextSubset, Pred, IsSubset;
    StepByGap(mask, sub);
    PredContains(gap, g, t);
    AndNotContains(mask, Pred(gap), t);
    AndNotContains(mask, sub, t);
    assert Contains(gap, g);
    assert t < g ==> !Contains(gap, t);
  }

  // ---- Ranks ----

  function Pow2(n: nat): (p: nat)
    ensures p >= 1
  {
    if n == 0 then 1 else 2 * Pow2(n - 1)
  }

  function RankTo(mask: bv64, sub: bv64, n: nat): nat
    requires n <= 64
  {
    if n == 0 then 0
    else
      var held := Contains(mask, n - 1) && Contains(sub, n - 1);
      RankTo(mask, sub, n - 1) + if held then Pow2(MembersTo(mask, n - 1)) else 0
  }

  function SubsetRank(mask: bv64, sub: bv64): nat {
    RankTo(mask, sub, 64)
  }

  lemma {:induction false} RankBound(mask: bv64, sub: bv64, n: nat)
    requires n <= 64
    ensures RankTo(mask, sub, n) < Pow2(MembersTo(mask, n))
  {
    hide Contains;
    if n > 0 { RankBound(mask, sub, n - 1); }
  }

  /** A subset that holds every bit of the mask below `n` has the greatest rank there. */
  lemma {:induction false} RankFull(mask: bv64, sub: bv64, n: nat)
    requires n <= 64
    requires forall s: Square :: s < n && Contains(mask, s) ==> Contains(sub, s)
    ensures RankTo(mask, sub, n) == Pow2(MembersTo(mask, n)) - 1
  {
    hide Contains;
    if n > 0 { RankFull(mask, sub, n - 1); }
  }

  lemma {:induction false} RankEmpty(mask: bv64, sub: bv64, n: nat)
    requires n <= 64
    requires forall s: Square :: s < n ==> !Contains(sub, s)
    ensures RankTo(mask, sub, n) == 0
  {
    hide Contains;
    if n > 0 { RankEmpty(mask, sub, n - 1); }
  }

  lemma {:induction false} RankSameAbove(mask: bv64, a: bv64, b: bv64, g: Square, n: nat)
    requires g < n <= 64
    requires forall s: Square :: s > g ==> (Contains(a, s) <==> Contains(b, s))
    ensures RankTo(mask, a, n) - RankTo(mask, b, n) == RankTo(mask, a, g + 1) - RankTo(mask, b, g + 1)
  {
    hide Contains;
    if n > g + 1 { RankSameAbove(mask, a, b, g, n - 1); }
  }

  /** One step of the enumeration is one step of the rank. */
  lemma StepRank(mask: bv64, sub: bv64)
    requires IsSubset(sub, mask) && sub != mask
    ensures IsSubset(NextSubset(mask, sub), mask)
    ensures SubsetRank(mask, NextSubset(mask, sub)) == SubsetRank(mask, sub) + 1
  {
    var g := LowestGap(mask, sub);
    var next := NextSubset(mask, sub);
    GapExists(mask, sub);
    SubsetContains(sub, mask);
    SubsetContains(next, mask);
    GapMeans(mask, sub);
    hide Contains, IsSubset, NextSubset, LowestGap;
    forall t: Square
      ensures Contains(next, t) <==> t == g || (t > g && Contains(sub, t))
    {
      StepContains(mask, sub, t);
    }
    RankFull(mask, sub, g);
    RankEmpty(mask, next, g);
    RankSameAbove(mask, next, sub, g, 64);
  }

  lemma GapExists(mask: bv64, sub: bv64)
    requires IsSubset(sub, mask) && sub != mask
    ensures LowestGap(mask, sub) < 64
  {
    SubsetContains(sub, mask);
    hide Contains, AndNot, IsSubset;
    var s := DifferentSquare(sub, mask);
    AndNotContains(mask, sub, s);
  }

  lemma GapMeans(mask: bv64, sub: bv64)
    requires LowestGap(mask, sub) < 64
    ensures var g := LowestGap(mask, sub);
            Contains(mask, g) && !Contains(sub, g) && forall s: Square :: s < g && Contains(mask, s) ==> Contains(sub, s)
  {
    hide Contains, AndNot;
    forall s: Square
      ensures Contains(AndNot(mask, sub), s) == (Contains(mask, s) && !Contains(sub, s))
    {
      AndNotContains(mask, sub, s);
    }
  }

  /** After the full mask the enumeration is back at the empty set. */
  lemma StepWraps(mask: bv64)
    ensures NextSubset(mask, mask) == 0
  {}

  lemma EmptyRank(mask: bv64)
    ensures IsSubset(0, mask) && SubsetRank(mask, 0) == 0
  {
    hide Contains;
    EmptyContains();
    RankEmpty(mask, 0, 64);
  }

  /** The full mask comes last: its rank is one less than two to the number of its bits. */
  lemma FullRank(mask: bv64)
    ensures SubsetRank(mask, mask) == Pow2(Count(mask)) - 1
  {
    RankFull(mask, mask, 64);
  }

  lemma {:induction false} RankSplits(mask: bv64, a: bv64, b: bv64, n: nat)
    requires n <= 64 && RankTo(mask, a, n) == RankTo(mask, b, n)
    ensures forall s: Square :: s < n && Contains(mask, s) ==> (Contains(a, s) <==> Contains(b, s))
  {
    hide Contains;
    if n > 0 {
      RankBound(mask, a, n - 1);
      RankBound(mask, b, n - 1);
      RankSplits(mask, a, b, n - 1);
    }
  }

  /** Different subsets have different ranks. */
  lemma RankInjective(mask: bv64, a: bv64, b: bv64)
    requires IsSubset(a, mask) && IsSubset(b, mask)
    requires SubsetRank(mask, a) == SubsetRank(mask, b)
    ensures a == b
  {
    SubsetContains(a, mask);
    SubsetContains(b, mask);
    hide Contains, IsSubset;
    RankSplits(mask, a, b, 64);
    Extensional(a, b);
  }

  // ---- The whole enumeration ----

  /** The `k`-th word visited, counting from the empty set. */
  function Visited(mask: bv64, k: nat): bv64 {
    if k == 0 then 0 else NextSubset(mask, Visited(mask, k - 1))
  }

  lemma {:induction false} VisitedRank(mask: bv64, k: nat)
    requires k < Pow2(Count(mask))
    ensures IsSubset(Visited(mask, k), mask) && SubsetRank(mask, Visited(mask, k)) == k
  {
    hide IsSubset, NextSubset, SubsetRank, Count;
    if k == 0 {
      EmptyRank(mask);
    } else {
      VisitedRank(mask, k - 1);
      FullRank(mask);
      StepRank(mask, Visited(mask, k - 1));
    }
  }

  /**
   Started at the empty set, the step visits each subset of the mask exactly once, at the moment
   its rank gives, and is back at the empty set for the first time after 2^n steps.
   */
  lemma EnumerationComplete(mask: bv64, sub: bv64)
    requires IsSubset(sub, mask)
    ensures SubsetRank(mask, sub) < Pow2(Count(mask))
    ensures forall k: nat :: k < Pow2(Count(mask)) ==> (Visited(mask, k) == sub <==> k == SubsetRank(mask, sub))
    ensures Visited(mask, Pow2(Count(mask))) == 0
  {
    RankBound(mask, sub, 64);
    hide IsSubset, NextSubset, RankTo;
    forall k: nat | k < Pow2(Count(mask))
      ensures Visited(mask, k) == sub <==> k == SubsetRank(mask, sub)
    {
      VisitedRank(mask, k);
      if k == SubsetRank(mask, sub) { RankInjective(mask, Visited(mask, k), sub); }
    }
    var last := Pow2(Count(mask)) - 1;
    VisitedRank(mask, last);
    FullRank(mask);
    FullIsSubset(mask);
    RankInjective(mask, Visited(mask, last), mask);
    StepWraps(mask);
  }

  lemma FullIsSubset(mask: bv64)
    ensures IsSubset(mask, mask)
  {}

  // ---- Numeric order ----

  /** The number spelt by the bits below the `n`-th. */
  function ValueTo(b: bv64, n: nat): nat
    requires n <= 64
  {
    if n == 0 then 0 else ValueTo(b, n - 1) + if Contains(b, n - 1) then Pow2(n - 1) else 0
  }

  lemma {:induction false} ValueBound(b: bv64, n: nat)
    requires n <= 64
    ensures ValueTo(b, n) < Pow2(n)
  {
    hide Contains;
    if n > 0 { ValueBound(b, n - 1); }
  }

  /** Squeezing out the gaps of the mask keeps the order of its subsets. */
  lemma {:induction false} RankKeepsOrder(mask: bv64, a: bv64, b: bv64, n: nat)
    requires n <= 64
    requires forall s: Square :: (Contains(a, s) ==> Contains(mask, s)) && (Contains(b, s) ==> Contains(mask, s))
    ensures RankTo(mask, a, n) < RankTo(mask, b, n) <==> ValueTo(a, n) < ValueTo(b, n)
    ensures RankTo(mask, b, n) < RankTo(mask, a, n) <==> ValueTo(b, n) < ValueTo(a, n)
  {
    hide Contains;
    if n > 0 {
      RankKeepsOrder(mask, a, b, n - 1);
      RankBound(mask, a, n - 1);
      RankBound(mask, b, n - 1);
      ValueBound(a, n - 1);
      ValueBound(b, n - 1);
    }
  }

  /** The subsets are visited in increasing numeric order. */
  lemma VisitedAscends(mask: bv64, j: nat, k: nat)
    requires j < k < Pow2(Count(mask))
    ensures ValueTo(Visited(mask, j), 64) < ValueTo(Visited(mask, k), 64)
  {
    hide Contains, IsSubset, Count;
    VisitedRank(mask, j);
    VisitedRank(mask, k);
    SubsetContains(Visited(mask, j), mask);
    SubsetContains(Visited(mask, k), mask);
    RankKeepsOrder(mask, Visited(mask, j), Visited(mask, k), 64);
  }
}
