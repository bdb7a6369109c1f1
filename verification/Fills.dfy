/** Shifts, fills and spans of bitboards, and the squares they stand for. */
module Fills {
  import opened Chess
  import opened Bits
  import opened Bitboards
  import opened SlowAttacks
  import Symmetry

  const FILE_A: bv64 := 0x0101_0101_0101_0101
  const FILE_H: bv64 := 0x8080_8080_8080_8080

  const NORTH: Compass := Direction(0, 1)
  const SOUTH: Compass := Direction(0, -1)
  const EAST: Compass := Direction(1, 0)
  const WEST: Compass := Direction(-1, 0)

  function OffFile(b: bv64, file: bv64): bv64 {
    b & !file
  }

  /** The eight one-step shifts, by direction. */
  function Shift(b: bv64, d: Compass): bv64 {
    match (d.file, d.rank)
    case (0, 1) => Up(b, 8)
    case (0, -1) => Down(b, 8)
    case (1, 0) => Up(OffFile(b, FILE_H), 1)
    case (-1, 0) => Down(OffFile(b, FILE_A), 1)
    case (1, 1) => Up(OffFile(b, FILE_H), 9)
    case (-1, 1) => Up(OffFile(b, FILE_A), 7)
    case (1, -1) => Down(OffFile(b, FILE_H), 7)
    case (-1, -1) => Down(OffFile(b, FILE_A), 9)
  }

  function NorthFill(b: bv64): bv64 {
    var b1 := Or(b, Up(b, 8));
    var b2 := Or(b1, Up(b1, 16));
    Or(b2, Up(b2, 32))
  }

  function SouthFill(b: bv64): bv64 {
    var b1 := Or(b, Down(b, 8));
    var b2 := Or(b1, Down(b1, 16));
    Or(b2, Down(b2, 32))
  }

  function FileFill(b: bv64): bv64 {
    Or(NorthFill(b), SouthFill(b))
  }

  function FrontSpans(side: Color, b: bv64): bv64 {
    if side.White? then NorthFill(Shift(b, NORTH)) else SouthFill(Shift(b, SOUTH))
  }

  function AttackFrontSpans(side: Color, b: bv64): bv64 {
    var spans := FrontSpans(side, b);
    Or(Or(spans, Shift(spans, EAST)), Shift(spans, WEST))
  }

  // ---- Single shifts ----

  /** `c` is `b` with every member moved `n` squares up the board, or down when `n` is negative. */
  ghost predicate Moved(b: bv64, c: bv64, n: int) {
    forall t: Square :: Contains(c, t) <==> 0 <= t - n < 64 && Contains(b, t - n)
  }

  function IndexOf(s: Square): bv6 {
    s as bv6
  }

  lemma ContainsIndex(b: bv64, s: Square)
    ensures Contains(b, s) == BitAt(b, IndexOf(s))
    ensures IndexOf(s) as int == s
  {
    hide BitAt;
    IndexRoundTrip(s);
  }

  lemma UpAt(b: bv64, n: bv6, k: int, t: Square)
    requires k == n as int
    ensures Contains(Up(b, n), t) <==> 0 <= t - k < 64 && Contains(b, t - k)
  {
    hide BitAt, Contains, IndexOf, Up;
    ContainsIndex(Up(b, n), t);
    if t < k {
      UpEmpties(b, n, IndexOf(t));
    } else {
      ContainsIndex(b, t - k);
      UpBit(b, n, IndexOf(t - k), IndexOf(t));
    }
  }

  lemma DownAt(b: bv64, n: bv6, k: int, t: Square)
    requires k == n as int
    ensures Contains(Down(b, n), t) <==> 0 <= t + k < 64 && Contains(b, t + k)
  {
    hide BitAt, Contains, IndexOf, Down;
    ContainsIndex(Down(b, n), t);
    if t + k < 64 {
      ContainsIndex(b, t + k);
      DownBit(b, n, IndexOf(t), IndexOf(t + k));
    } else {
      DownEmpties(b, n, IndexOf(t));
    }
  }

  /** A shift by any distance moves every member as many squares. */
  lemma Moves(b: bv64, n: bv6, k: int)
    requires k == n as int
    ensures Moved(b, Up(b, n), k) && Moved(b, Down(b, n), -k)
  {
    hide Contains, Up, Down;
    forall t: Square
      ensures Contains(Up(b, n), t) <==> 0 <= t - k < 64 && Contains(b, t - k)
    {
      UpAt(b, n, k, t);
    }
    forall t: Square
      ensures Contains(Down(b, n), t) <==> 0 <= t + k < 64 && Contains(b, t + k)
    {
      DownAt(b, n, k, t);
    }
  }

  // ---- The edge files ----

  lemma LowBits(i: bv6)
    ensures (i & 7) as int == (i as int) % 8
  {}

  lemma EdgeBits(i: bv6)
    ensures BitAt(FILE_A, i) == (i & 7 == 0)
    ensures BitAt(FILE_H, i) == (i & 7 == 7)
  {}

  lemma EdgeFiles(t: Square)
    ensures Contains(FILE_A, t) <==> File(t) == 0
    ensures Contains(FILE_H, t) <==> File(t) == 7
  {
    hide BitAt;
    EdgeBits(t as bv6);
    LowBits(t as bv6);
    IndexRoundTrip(t);
  }

  lemma OffFileAt(b: bv64, file: bv64, t: Square)
    ensures Contains(OffFile(b, file), t) <==> Contains(b, t) && !Contains(file, t)
  {
    hide BitAt;
    AndNotBit(b, file, t as bv6);
  }

  function Back(d: Compass): Compass {
    Direction(-d.file, -d.rank)
  }

  /** The step of the square numbers, and what it does to the coordinates. */
  lemma StepBack(t: Square, d: Compass)
    requires d.file != 0
    ensures var u := t - (8 * d.rank + d.file);
            var edge := if d.file == 1 then 7 else 0;
            HasNext(t, Back(d)) <==> 0 <= u < 64 && File(u) != edge
    ensures HasNext(t, Back(d)) ==> Neighbour(t, Back(d)) == t - (8 * d.rank + d.file)
  {}

  /** Every shift moves each member one step in its direction; no member wraps round an edge. */
  lemma ShiftSteps(b: bv64, d: Compass, t: Square)
    ensures Contains(Shift(b, d), t) <==> HasNext(t, Back(d)) && Contains(b, Neighbour(t, Back(d)))
  {
    hide Contains, Up, Down, OffFile;
    if d.file == 0 {
      StraightSteps(b, d, t);
    } else {
      SlantedSteps(b, d, t);
    }
  }

  lemma SlantedSteps(b: bv64, d: Compass, t: Square)
    requires d.file != 0
    ensures Contains(Shift(b, d), t) <==> HasNext(t, Back(d)) && Contains(b, Neighbour(t, Back(d)))
  {
    hide Contains, OffFile, HasNext, Neighbour, File;
    var edge := if d.file == 1 then FILE_H else FILE_A;
    var u := t - (8 * d.rank + d.file);
    ShiftMoves(b, d);
    StepBack(t, d);
    if 0 <= u < 64 {
      OffFileAt(b, edge, u);
      EdgeFiles(u);
    }
  }

  lemma ShiftMoves(b: bv64, d: Compass)
    requires d.file != 0
    ensures Moved(OffFile(b, if d.file == 1 then FILE_H else FILE_A), Shift(b, d), 8 * d.rank + d.file)
  {
    hide Moved, Up, Down, OffFile;
    var inner := OffFile(b, if d.file == 1 then FILE_H else FILE_A);
    Moves(inner, 1, 1);
    Moves(inner, 7, 7);
    Moves(inner, 9, 9);
  }

  lemma StraightMoves(b: bv64, d: Compass)
    requires d.file == 0
    ensures Moved(b, Shift(b, d), 8 * d.rank)
  {
    hide Moved, Up, Down;
    Moves(b, 8, 8);
  }

  lemma StraightSteps(b: bv64, d: Compass, t: Square)
    requires d.file == 0
    ensures Contains(Shift(b, d), t) <==> HasNext(t, Back(d)) && Contains(b, Neighbour(t, Back(d)))
  {
    hide Contains, Shift;
    StraightMoves(b, d);
  }

  // ---- Fills ----

  /** `s` is on `t`'s file, at most `k - 1` ranks below it (or above it, when not `up`). */
  predicate Within(s: Square, t: Square, up: bool, k: nat) {
    File(s) == File(t) && if up then Rank(s) <= Rank(t) < Rank(s) + k else Rank(t) <= Rank(s) < Rank(t) + k
  }

  ghost predicate Covered(b: bv64, t: Square, up: bool, k: nat) {
    exists s: Square :: Contains(b, s) && Within(s, t, up, k)
  }

  ghost predicate Covers(b: bv64, x: bv64, up: bool, k: nat) {
    forall t: Square :: Contains(x, t) <==> Covered(b, t, up, k)
  }

  lemma WithinDoubles(s: Square, t: Square, up: bool, k: nat)
    ensures var u := if up then t - 8 * k else t + 8 * k;
            Within(s, t, up, 2 * k) <==> Within(s, t, up, k) || (0 <= u < 64 && Within(s, u, up, k))
  {
    var u := if up then t - 8 * k else t + 8 * k;
    if 0 <= u < 64 {
      assert File(u) == File(t) && Rank(u) == if up then Rank(t) - k else Rank(t) + k;
    }
  }

  lemma CoveredDoubles(b: bv64, t: Square, up: bool, k: nat)
    ensures var u := if up then t - 8 * k else t + 8 * k;
            Covered(b, t, up, 2 * k) <==> Covered(b, t, up, k) || (0 <= u < 64 && Covered(b, u, up, k))
  {
    hide Contains, Within;
    var u := if up then t - 8 * k else t + 8 * k;
    forall s: Square
      ensures Within(s, t, up, 2 * k) <==> Within(s, t, up, k) || (0 <= u < 64 && Within(s, u, up, k))
    {
      WithinDoubles(s, t, up, k);
    }
  }

  lemma DoublingAt(b: bv64, x: bv64, y: bv64, up: bool, k: nat, t: Square)
    requires Covers(b, x, up, k)
    requires Moved(x, y, if up then 8 * k else -8 * k)
    ensures Contains(Or(x, y), t) <==> Covered(b, t, up, 2 * k)
  {
    hide *;
    OrContains(x, y, t);
    CoveredDoubles(b, t, up, k);
    CoversAt(b, x, up, k, t);
    var n := if up then 8 * k else -8 * k;
    MovedAt(x, y, n, t);
    if 0 <= t - n < 64 {
      CoversAt(b, x, up, k, t - n);
    }
  }

  lemma CoversAt(b: bv64, x: bv64, up: bool, k: nat, t: Square)
    requires Covers(b, x, up, k)
    ensures Contains(x, t) <==> Covered(b, t, up, k)
  {
    hide Contains, Covered;
  }

  lemma MovedAt(b: bv64, c: bv64, n: int, t: Square)
    requires Moved(b, c, n)
    ensures Contains(c, t) <==> 0 <= t - n < 64 && Contains(b, t - n)
  {
    hide Contains;
  }

  /** A word that covers `k` ranks, joined with itself moved `k` ranks, covers `2 * k`. */
  lemma Doubling(b: bv64, x: bv64, y: bv64, up: bool, k: nat)
    requires Covers(b, x, up, k)
    requires Moved(x, y, if up then 8 * k else -8 * k)
    ensures Covers(b, Or(x, y), up, 2 * k)
  {
    hide Contains, Or, Covered, Moved;
    forall t: Square
      ensures Contains(Or(x, y), t) <==> Covered(b, t, up, 2 * k)
    {
      hide Covers;
      DoublingAt(b, x, y, up, k, t);
    }
  }

  lemma OneCovers(b: bv64, up: bool)
    ensures Covers(b, b, up, 1)
  {
    hide Contains, Within;
    forall t: Square
      ensures Contains(b, t) <==> Covered(b, t, up, 1)
    {
      forall s: Square
        ensures Within(s, t, up, 1) <==> s == t
      {
        WithinOne(s, t, up);
      }
    }
  }

  lemma WithinOne(s: Square, t: Square, up: bool)
    ensures Within(s, t, up, 1) <==> s == t
  {}

  lemma NorthCovers(b: bv64)
    ensures Covers(b, NorthFill(b), true, 8)
  {
    hide Covers, Moved, Up, Or;
    var b1 := Or(b, Up(b, 8));
    var b2 := Or(b1, Up(b1, 16));
    OneCovers(b, true);
    Moves(b, 8, 8);
    Doubling(b, b, Up(b, 8), true, 1);
    Moves(b1, 16, 16);
    Doubling(b, b1, Up(b1, 16), true, 2);
    Moves(b2, 32, 32);
    Doubling(b, b2, Up(b2, 32), true, 4);
  }

  lemma SouthCovers(b: bv64)
    ensures Covers(b, SouthFill(b), false, 8)
  {
    hide Covers, Moved, Down, Or;
    var b1 := Or(b, Down(b, 8));
    var b2 := Or(b1, Down(b1, 16));
    OneCovers(b, false);
    Moves(b, 8, 8);
    Doubling(b, b, Down(b, 8), false, 1);
    Moves(b1, 16, 16);
    Doubling(b, b1, Down(b1, 16), false, 2);
    Moves(b2, 32, 32);
    Doubling(b, b2, Down(b2, 32), false, 4);
  }

  /** `s` stands on `t`'s file, on its rank or behind it as `side` moves. */
  predicate BehindOrOn(side: Color, s: Square, t: Square) {
    File(s) == File(t) && if side.White? then Rank(s) <= Rank(t) else Rank(t) <= Rank(s)
  }

  predicate Behind(side: Color, s: Square, t: Square) {
    BehindOrOn(side, s, t) && s != t
  }

  function FillOf(side: Color, b: bv64): bv64 {
    if side.White? then NorthFill(b) else SouthFill(b)
  }

  /** Three shifts fill a whole file in one direction. */
  lemma FillReaches(side: Color, b: bv64, t: Square)
    ensures Contains(FillOf(side, b), t) <==> exists s: Square :: Contains(b, s) && BehindOrOn(side, s, t)
  {
    hide Contains, NorthFill, SouthFill, Within, BehindOrOn;
    NorthCovers(b);
    SouthCovers(b);
    forall s: Square
      ensures BehindOrOn(side, s, t) <==> Within(s, t, side.White?, 8)
    {
      WithinEight(side, s, t);
    }
  }

  lemma WithinEight(side: Color, s: Square, t: Square)
    ensures BehindOrOn(side, s, t) <==> Within(s, t, side.White?, 8)
  {}

  lemma FileFillReaches(b: bv64, t: Square)
    ensures Contains(FileFill(b), t) <==> exists s: Square :: Contains(b, s) && File(s) == File(t)
  {
    hide Contains, NorthFill, SouthFill, Or;
    OrContains(NorthFill(b), SouthFill(b), t);
    FillReaches(White, b, t);
    FillReaches(Black, b, t);
    assert forall s: Square :: File(s) == File(t) <==> BehindOrOn(White, s, t) || BehindOrOn(Black, s, t);
  }

  lemma FileFillTwice(b: bv64)
    ensures FileFill(FileFill(b)) == FileFill(b)
  {
    hide Contains, FileFill, File;
    forall t: Square
      ensures Contains(FileFill(FileFill(b)), t) == Contains(FileFill(b), t)
    {
      FileFillReaches(b, t);
      FileFillReaches(FileFill(b), t);
      forall s: Square {
        FileFillReaches(b, s);
      }
    }
    Extensional(FileFill(FileFill(b)), FileFill(b));
  }

  /** A front span: strictly ahead of a member, on its file. */
  lemma FrontSpanReaches(side: Color, b: bv64, t: Square)
    ensures Contains(FrontSpans(side, b), t) <==> exists s: Square :: Contains(b, s) && Behind(side, s, t)
  {
    hide Contains, FrontSpans, Shift, BehindOrOn, Behind, HasNext, Neighbour, Back;
    var d := if side.White? then NORTH else SOUTH;
    FrontIsFill(side, b, d);
    FillReaches(side, Shift(b, d), t);
    if u: Square :| Contains(Shift(b, d), u) && BehindOrOn(side, u, t) {
      ShiftSteps(b, d, u);
      AheadFromNext(side, u, t, d);
      assert Behind(side, Neighbour(u, Back(d)), t);
    }
    if s: Square :| Contains(b, s) && Behind(side, s, t) {
      AheadIsNext(side, s, t, d);
      ShiftSteps(b, d, Neighbour(s, d));
    }
  }

  lemma FrontIsFill(side: Color, b: bv64, d: Compass)
    requires d == if side.White? then NORTH else SOUTH
    ensures FrontSpans(side, b) == FillOf(side, Shift(b, d))
  {}

  lemma AheadFromNext(side: Color, u: Square, t: Square, d: Compass)
    requires d == if side.White? then NORTH else SOUTH
    requires HasNext(u, Back(d)) && BehindOrOn(side, u, t)
    ensures Behind(side, Neighbour(u, Back(d)), t)
  {
    hide File, Rank, HasNext, Neighbour;
    RoomShrinks(u, Back(d));
    BehindByRank(side, Neighbour(u, Back(d)), t);
  }

  lemma AheadIsNext(side: Color, s: Square, t: Square, d: Compass)
    requires d == if side.White? then NORTH else SOUTH
    requires Behind(side, s, t)
    ensures HasNext(s, d) && BehindOrOn(side, Neighbour(s, d), t)
    ensures HasNext(Neighbour(s, d), Back(d)) && Neighbour(Neighbour(s, d), Back(d)) == s
  {}

  /** `s` is on `t`'s file or the one beside it, and `t` is strictly ahead of it. */
  predicate Ahead(side: Color, s: Square, t: Square) {
    -1 <= File(s) - File(t) <= 1 && if side.White? then Rank(s) < Rank(t) else Rank(t) < Rank(s)
  }

  ghost predicate SomeBehind(side: Color, b: bv64, t: Square) {
    exists s: Square :: Contains(b, s) && Behind(side, s, t)
  }

  /** An attack span: strictly ahead, on the member's file or an adjacent one, and nothing past the edge. */
  lemma AttackSpanReaches(side: Color, b: bv64, t: Square)
    ensures Contains(AttackFrontSpans(side, b), t) <==> exists s: Square :: Contains(b, s) && Ahead(side, s, t)
  {
    hide Contains, AttackFrontSpans, Behind, HasNext, Neighbour, Ahead;
    AttackSpanJoins(side, b, t);
    forall s: Square
      ensures Ahead(side, s, t) <==>
              Behind(side, s, t)
              || (HasNext(t, WEST) && Behind(side, s, Neighbour(t, WEST)))
              || (HasNext(t, EAST) && Behind(side, s, Neighbour(t, EAST)))
    {
      AheadByFile(side, s, t);
    }
  }

  lemma AttackSpanJoins(side: Color, b: bv64, t: Square)
    ensures Contains(AttackFrontSpans(side, b), t) <==>
            SomeBehind(side, b, t)
            || (HasNext(t, WEST) && SomeBehind(side, b, Neighbour(t, WEST)))
            || (HasNext(t, EAST) && SomeBehind(side, b, Neighbour(t, EAST)))
  {
    hide *;
    var spans := FrontSpans(side, b);
    AttackSpansAre(side, b);
    OrContains(spans, Shift(spans, EAST), t);
    OrContains(Or(spans, Shift(spans, EAST)), Shift(spans, WEST), t);
    SpanIsBehind(side, b, t);
    SpanEast(side, b, t);
    SpanWest(side, b, t);
  }

  lemma AttackSpansAre(side: Color, b: bv64)
    ensures var spans := FrontSpans(side, b);
            AttackFrontSpans(side, b) == Or(Or(spans, Shift(spans, EAST)), Shift(spans, WEST))
  {}

  lemma SpanEast(side: Color, b: bv64, t: Square)
    ensures Contains(Shift(FrontSpans(side, b), EAST), t) <==>
            HasNext(t, WEST) && SomeBehind(side, b, Neighbour(t, WEST))
  {
    hide Contains, FrontSpans, Shift, HasNext, Neighbour, SomeBehind;
    ShiftSteps(FrontSpans(side, b), EAST, t);
    if HasNext(t, WEST) {
      SpanIsBehind(side, b, Neighbour(t, WEST));
    }
  }

  lemma SpanWest(side: Color, b: bv64, t: Square)
    ensures Contains(Shift(FrontSpans(side, b), WEST), t) <==>
            HasNext(t, EAST) && SomeBehind(side, b, Neighbour(t, EAST))
  {
    hide Contains, FrontSpans, Shift, HasNext, Neighbour, SomeBehind;
    ShiftSteps(FrontSpans(side, b), WEST, t);
    if HasNext(t, EAST) {
      SpanIsBehind(side, b, Neighbour(t, EAST));
    }
  }

  lemma SpanIsBehind(side: Color, b: bv64, t: Square)
    ensures Contains(FrontSpans(side, b), t) <==> SomeBehind(side, b, t)
  {
    hide Contains, FrontSpans, Behind;
    FrontSpanReaches(side, b, t);
  }

  lemma AheadByFile(side: Color, s: Square, t: Square)
    ensures Ahead(side, s, t) <==>
            Behind(side, s, t)
            || (HasNext(t, WEST) && Behind(side, s, Neighbour(t, WEST)))
            || (HasNext(t, EAST) && Behind(side, s, Neighbour(t, EAST)))
  {
    hide File, Rank, Neighbour;
    BehindByRank(side, s, t);
    if HasNext(t, WEST) {
      RoomShrinks(t, WEST);
      BehindByRank(side, s, Neighbour(t, WEST));
    }
    if HasNext(t, EAST) {
      RoomShrinks(t, EAST);
      BehindByRank(side, s, Neighbour(t, EAST));
    }
  }

  lemma BehindByRank(side: Color, s: Square, t: Square)
    ensures Behind(side, s, t) <==>
            File(s) == File(t) && if side.White? then Rank(s) < Rank(t) else Rank(t) < Rank(s)
  {}

  /** Black's attack spans are White's, seen in the mirror. */
  lemma SpansMirror(b: bv64, mirror: bv64, t: Square)
    requires forall s: Square :: Contains(mirror, Symmetry.Flip(s)) == Contains(b, s)
    ensures Contains(AttackFrontSpans(Black, mirror), Symmetry.Flip(t)) == Contains(AttackFrontSpans(White, b), t)
  {
    hide Contains, AttackFrontSpans, Ahead, Symmetry.Flip;
    AttackSpanReaches(White, b, t);
    AttackSpanReaches(Black, mirror, Symmetry.Flip(t));
    if s: Square :| Contains(b, s) && Ahead(White, s, t) {
      AheadMirrors(s, t);
    }
    if s: Square :| Contains(mirror, s) && Ahead(Black, s, Symmetry.Flip(t)) {
      Symmetry.FlipTwice(s);
      AheadMirrors(Symmetry.Flip(s), t);
    }
  }

  lemma AheadMirrors(s: Square, t: Square)
    ensures Ahead(Black, Symmetry.Flip(s), Symmetry.Flip(t)) <==> Ahead(White, s, t)
  {
    hide File, Rank, Symmetry.Flip;
    Symmetry.FlipCoordinates(s);
    Symmetry.FlipCoordinates(t);
  }
}
