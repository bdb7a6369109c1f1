/** `between_bb` and `line_bb`: segments and lines as bitboards, walked square by square. */
module Segments {
  import opened Chess
  import opened Bitboards
  import opened SlowAttacks
  import opened Lines

  // ---- between_bb and line_bb ----

  function Sign(n: int): int {
    if n > 0 then 1 else if n < 0 then -1 else 0
  }

  predicate InLine(a: Square, b: Square) {
    Lined(RookSlider, a, b) || Lined(BishopSlider, a, b)
  }

  function Towards(a: Square, b: Square): Direction {
    Direction(Sign(File(b) - File(a)), Sign(Rank(b) - Rank(a)))
  }

  /** The `j`-th square of a ray, if it is on the board. */
  predicate NthOn(a: Square, d: Direction, j: int, u: Square) {
    File(u) == File(a) + j * d.file && Rank(u) == Rank(a) + j * d.rank
  }

  lemma BetweenNth(a: Square, b: Square)
    requires InLine(a, b)
    ensures NthOn(a, Towards(a, b), Steps(a, b), b) && Steps(a, b) >= 1
    ensures forall u: Square :: Inside(a, b, u) <==> exists j :: 1 <= j < Steps(a, b) && NthOn(a, Towards(a, b), j, u)
  {
    if File(a) == File(b) && Rank(a) == Rank(b) { SameSquare(a, b); }
    hide File, Rank;
    var d := Towards(a, b);
    forall u: Square
      ensures Inside(a, b, u) <==> exists j :: 1 <= j < Steps(a, b) && NthOn(a, d, j, u)
    {
      InsideIsNth(a, b, u);
    }
  }

  lemma InsideIsNth(a: Square, b: Square, u: Square)
    requires InLine(a, b)
    ensures Inside(a, b, u) ==> 1 <= Steps(a, u) < Steps(a, b) && NthOn(a, Towards(a, b), Steps(a, u), u)
    ensures forall j :: 1 <= j < Steps(a, b) && NthOn(a, Towards(a, b), j, u) ==> Inside(a, b, u)
  {
    hide File, Rank;
    var d := Towards(a, b);
    assert d.file == 0 || d.file == 1 || d.file == -1;
    assert d.rank == 0 || d.rank == 1 || d.rank == -1;
    forall j | 1 <= j < Steps(a, b) && NthOn(a, d, j, u)
      ensures Inside(a, b, u)
    {
    }
  }

  lemma WalkTowards(a: Square, b: Square, j: int)
    requires InLine(a, b) && 1 <= j <= Steps(a, b)
    ensures var d := Towards(a, b);
            var (f, r) := (File(a) + j * d.file, Rank(a) + j * d.rank);
            OnBoard(f, r) && (f == File(b) && r == Rank(b) <==> j == Steps(a, b))
  {
    hide File, Rank;
    var d := Towards(a, b);
    assert d.file == 0 || d.file == 1 || d.file == -1;
    assert d.rank == 0 || d.rank == 1 || d.rank == -1;
  }

  /** `u` is one of the squares from the first to the last before the `j`-th. */
  ghost predicate Before(a: Square, d: Direction, j: int, u: Square) {
    exists i :: 1 <= i < j && NthOn(a, d, i, u)
  }

  lemma BeforeNext(a: Square, d: Direction, j: int)
    requires j >= 1
    ensures forall u: Square :: Before(a, d, j + 1, u) <==> Before(a, d, j, u) || NthOn(a, d, j, u)
  {
    hide NthOn;
  }

  lemma AtIs(f: int, r: int, u: Square)
    ensures File(u) == f && Rank(u) == r <==> OnBoard(f, r) && u == At(f, r)
  {}

  lemma NoneBefore(a: Square, d: Direction)
    ensures forall u: Square :: !Before(a, d, 1, u)
  {}

  lemma NotInLine(a: Square, b: Square)
    requires !InLine(a, b)
    ensures forall u: Square :: !Inside(a, b, u)
  {
    if a != b && File(a) == File(b) && Rank(a) == Rank(b) { SameSquare(a, b); }
    hide File, Rank;
  }

  /** `between_bb`: the squares strictly between, walked from `from` towards `to`. */
  method BetweenBb(from: Square, to: Square) returns (bb: bv64)
    ensures forall u: Square :: Contains(bb, u) <==> Inside(from, to, u)
  {
    hide Contains, Inside, Steps, Before, NthOn;
    EmptyContains();
    bb := 0;
    if from == to {
      NotInLine(from, to);
      return;
    }
    var df := File(to) - File(from);
    var dr := Rank(to) - Rank(from);
    var stepF: int, stepR: int;
    if df == 0 && dr != 0 {
      stepF, stepR := 0, Sign(dr);
    } else if dr == 0 && df != 0 {
      stepF, stepR := Sign(df), 0;
    } else if Distance(df, 0) == Distance(dr, 0) && df != 0 {
      stepF, stepR := Sign(df), Sign(dr);
    } else {
      Unaligned(from, to);
      NotInLine(from, to);
      return;
    }
    Aligned(from, to);
    bb := WalkBetween(from, to, stepF, stepR);
  }

  /** The loop of `between_bb`. */
  method WalkBetween(from: Square, to: Square, stepF: int, stepR: int) returns (bb: bv64)
    requires InLine(from, to) && Towards(from, to) == Direction(stepF, stepR)
    ensures forall u: Square :: Contains(bb, u) <==> Inside(from, to, u)
  {
    hide Contains, Inside, Steps, Before, Towards, With, InLine, NthOn;
    ghost var d := Direction(stepF, stepR);
    EmptyContains();
    NoneBefore(from, d);
    BetweenNth(from, to);
    WalkFirst(from, to);
    bb := 0;
    var f := File(from) + stepF;
    var r := Rank(from) + stepR;
    ghost var j := 1;
    while !(f == File(to) && r == Rank(to))
      invariant 1 <= j <= Steps(from, to)
      invariant OnBoard(f, r) && NthOn(from, d, j, At(f, r))
      invariant forall u: Square :: Contains(bb, u) <==> Before(from, d, j, u)
      decreases Steps(from, to) - j
    {
      var next := At(f, r);
      AtIs(f, r, next);
      WalkNext(from, to, j, next);
      Collect(bb, from, d, j, next);
      bb := With(bb, next);
      f := f + stepF;
      r := r + stepR;
      j := j + 1;
    }
    AtIs(f, r, At(f, r));
    SameSquare(At(f, r), to);
    WalkNext(from, to, j, to);
    BeforeIsInside(from, to);
  }

  lemma WalkFirst(a: Square, b: Square)
    requires InLine(a, b)
    ensures var d := Towards(a, b);
            OnBoard(File(a) + d.file, Rank(a) + d.rank)
            && NthOn(a, d, 1, At(File(a) + d.file, Rank(a) + d.rank))
    ensures Steps(a, b) >= 1
  {
    WalkTowards(a, b, 1);
    var d := Towards(a, b);
    AtIs(File(a) + d.file, Rank(a) + d.rank, At(File(a) + d.file, Rank(a) + d.rank));
    BetweenNth(a, b);
  }

  /** The walk goes on until it meets its end. */
  lemma WalkNext(a: Square, b: Square, j: int, cur: Square)
    requires InLine(a, b) && 1 <= j <= Steps(a, b) && NthOn(a, Towards(a, b), j, cur)
    ensures cur == b <==> j == Steps(a, b)
    ensures var d := Towards(a, b);
            var (f, r) := (File(cur) + d.file, Rank(cur) + d.rank);
            j < Steps(a, b) ==> OnBoard(f, r) && NthOn(a, d, j + 1, At(f, r))
  {
    WalkTowards(a, b, j);
    if File(cur) == File(b) && Rank(cur) == Rank(b) { SameSquare(cur, b); }
    var d := Towards(a, b);
    var (f, r) := (File(cur) + d.file, Rank(cur) + d.rank);
    if j < Steps(a, b) {
      WalkTowards(a, b, j + 1);
      hide File, Rank, InLine, Towards, Steps;
      assert (j + 1) * d.file == j * d.file + d.file && (j + 1) * d.rank == j * d.rank + d.rank;
      AtIs(f, r, At(f, r));
    }
  }

  lemma Collect(bb: bv64, a: Square, d: Direction, j: int, next: Square)
    requires j >= 1 && NthOn(a, d, j, next)
    requires forall u: Square :: Contains(bb, u) <==> Before(a, d, j, u)
    ensures forall u: Square :: Contains(With(bb, next), u) <==> Before(a, d, j + 1, u)
  {
    hide Contains, With, Before;
    BeforeNext(a, d, j);
    WithContains(bb, next);
    forall u: Square
      ensures NthOn(a, d, j, u) <==> u == next
    {
      if NthOn(a, d, j, u) { SameSquare(u, next); }
    }
  }

  lemma BeforeIsInside(a: Square, b: Square)
    requires InLine(a, b)
    ensures forall u: Square :: Before(a, Towards(a, b), Steps(a, b), u) <==> Inside(a, b, u)
  {
    hide Inside, Towards, Steps, NthOn;
    BetweenNth(a, b);
  }

  lemma Aligned(a: Square, b: Square)
    requires var (df, dr) := (File(b) - File(a), Rank(b) - Rank(a));
             (df == 0 && dr != 0) || (dr == 0 && df != 0) || (Distance(df, 0) == Distance(dr, 0) && df != 0)
    ensures InLine(a, b)
  {
    hide File, Rank;
  }

  lemma Unaligned(a: Square, b: Square)
    requires a != b
    requires var (df, dr) := (File(b) - File(a), Rank(b) - Rank(a));
             !(df == 0 && dr != 0) && !(dr == 0 && df != 0) && !(Distance(df, 0) == Distance(dr, 0) && df != 0)
    ensures !InLine(a, b)
  {
    if File(a) == File(b) && Rank(a) == Rank(b) { SameSquare(a, b); }
    hide File, Rank;
  }

  // line_bb

  /** On-board squares of a ray, whatever their distance. */
  ghost predicate OnRay(a: Square, d: Direction, u: Square) {
    exists i :: 1 <= i && NthOn(a, d, i, u)
  }

  function Opposite(d: Direction): Direction {
    Direction(-d.file, -d.rank)
  }

  /** The line is its square, the ray one way and the ray the other way. */
  lemma LineIsTwoRays(a: Square, b: Square, d: Direction, u: Square)
    requires InLine(a, b) && (d == Towards(a, b) || d == Opposite(Towards(a, b)))
    ensures OnLine(a, b, u) <==> u == a || OnRay(a, d, u) || OnRay(a, Opposite(d), u)
  {
    hide File, Rank, InLine, OnLine, Towards, NthOn;
    var n := Steps(a, u);
    if OnLine(a, b, u) && u != a {
      LineToRay(a, b, u);
      assert Opposite(Opposite(d)) == d;
    }
    if i :| 1 <= i && NthOn(a, d, i, u) { RayOnLine(a, b, d, i, u); }
    if i :| 1 <= i && NthOn(a, Opposite(d), i, u) { RayOnLine(a, b, Opposite(d), i, u); }
    if u == a { OnLineStart(a, b); }
  }

  lemma OnLineStart(a: Square, b: Square)
    requires InLine(a, b)
    ensures OnLine(a, b, a)
  {
    hide File, Rank;
  }

  lemma LineToRay(a: Square, b: Square, u: Square)
    requires InLine(a, b) && OnLine(a, b, u) && u != a
    ensures Steps(a, u) >= 1
    ensures NthOn(a, Towards(a, b), Steps(a, u), u) || NthOn(a, Opposite(Towards(a, b)), Steps(a, u), u)
  {
    hide File, Rank;
    SamePlace(a, u);
    SamePlace(a, b);
    var (df, dr) := (File(b) - File(a), Rank(b) - Rank(a));
    var (ef, er) := (File(u) - File(a), Rank(u) - Rank(a));
    var n: int := Steps(a, u);
    Scale(n, Sign(df));
    Scale(n, Sign(dr));
    Scale(n, -Sign(df));
    Scale(n, -Sign(dr));
    if df == 0 {
      assert ef == 0 && (er == n || er == -n);
    } else if dr == 0 {
      assert er == 0 && (ef == n || ef == -n);
    } else {
      assert (df == dr && ef == er) || (df == -dr && ef == -er);
      assert ef == n || ef == -n;
    }
  }

  lemma Scale(n: int, s: int)
    requires s == 0 || s == 1 || s == -1
    ensures n * s == if s == 0 then 0 else if s == 1 then n else -n
  {}

  lemma SamePlace(a: Square, b: Square)
    requires a != b
    ensures File(a) != File(b) || Rank(a) != Rank(b)
  {}

  lemma RayOnLine(a: Square, b: Square, d: Direction, i: int, u: Square)
    requires InLine(a, b) && (d == Towards(a, b) || d == Opposite(Towards(a, b)))
    requires NthOn(a, d, i, u)
    ensures OnLine(a, b, u)
  {
    hide File, Rank;
    assert d.file == 0 || d.file == 1 || d.file == -1;
    assert d.rank == 0 || d.rank == 1 || d.rank == -1;
  }

  lemma BoardIsSmall(a: Square, d: Compass, j: int)
    requires j >= 0 && OnBoard(File(a) + j * d.file, Rank(a) + j * d.rank)
    ensures j < 8
  {
    hide File, Rank;
    Scale(j, d.file);
    Scale(j, d.rank);
  }

  lemma OffBoardStays(a: Square, d: Compass, j: int, i: int, u: Square)
    requires 1 <= j <= i && !OnBoard(File(a) + j * d.file, Rank(a) + j * d.rank)
    ensures !NthOn(a, d, i, u)
  {
    hide File, Rank;
    Scale(j, d.file);
    Scale(j, d.rank);
    Scale(i, d.file);
    Scale(i, d.rank);
  }

  lemma RayEnds(a: Square, d: Compass, j: int)
    requires j >= 1 && !OnBoard(File(a) + j * d.file, Rank(a) + j * d.rank)
    ensures forall u: Square :: OnRay(a, d, u) <==> Before(a, d, j, u)
  {
    hide NthOn, OnBoard;
    forall u: Square, i | i >= j
      ensures !NthOn(a, d, i, u)
    {
      OffBoardStays(a, d, j, i, u);
    }
  }

  /** One of the two sweeps of `line_bb`: from beside `a` to the edge. */
  method Sweep(start: bv64, a: Square, d: Compass) returns (bb: bv64)
    ensures forall u: Square :: Contains(bb, u) <==> Contains(start, u) || OnRay(a, d, u)
  {
    hide Contains, With, Before, OnRay, NthOn, OnBoard, File, Rank;
    bb := start;
    ghost var swept: bv64 := 0;
    EmptyContains();
    NoneBefore(a, d);
    var f := File(a) + d.file;
    var r := Rank(a) + d.rank;
    ghost var j := 1;
    while OnBoard(f, r)
      invariant 1 <= j <= 8
      invariant f == File(a) + j * d.file && r == Rank(a) + j * d.rank
      invariant forall u: Square :: Contains(swept, u) <==> Before(a, d, j, u)
      invariant forall u: Square :: Contains(bb, u) <==> Contains(start, u) || Contains(swept, u)
      decreases 8 - j
    {
      BoardIsSmall(a, d, j);
      CoordinatesOk(f, r);
      var next := At(f, r);
      NthHere(a, d, j, next);
      Collect(swept, a, d, j, next);
      WithContains(bb, next);
      WithContains(swept, next);
      bb := With(bb, next);
      swept := With(swept, next);
      assert (j + 1) * d.file == j * d.file + d.file && (j + 1) * d.rank == j * d.rank + d.rank;
      f := f + d.file;
      r := r + d.rank;
      j := j + 1;
    }
    RayEnds(a, d, j);
  }

  lemma CoordinatesOk(f: int, r: int)
    requires OnBoard(f, r)
    ensures 0 <= f < 8 && 0 <= r < 8
  {}

  lemma NthHere(a: Square, d: Direction, j: int, next: Square)
    requires OnBoard(File(a) + j * d.file, Rank(a) + j * d.rank)
    requires next == At(File(a) + j * d.file, Rank(a) + j * d.rank)
    ensures NthOn(a, d, j, next)
  {
    AtIs(File(a) + j * d.file, Rank(a) + j * d.rank, next);
  }

  lemma NoSelfLine(a: Square)
    ensures !InLine(a, a)
  {}

  /** `line_bb`: the whole line through two squares, or nothing. */
  method LineBb(from: Square, to: Square) returns (bb: bv64)
    ensures InLine(from, to) ==> forall u: Square :: Contains(bb, u) <==> OnLine(from, to, u)
    ensures !InLine(from, to) ==> bb == 0
  {
    hide Contains, With, OnRay, OnLine;
    NoSelfLine(from);
    if from == to {
      return 0;
    }
    var df := File(to) - File(from);
    var dr := Rank(to) - Rank(from);
    var stepF: int, stepR: int;
    if df == 0 && dr != 0 {
      stepF, stepR := 0, 1;
    } else if dr == 0 && df != 0 {
      stepF, stepR := 1, 0;
    } else if Distance(df, 0) == Distance(dr, 0) && df != 0 {
      stepF, stepR := Sign(df), Sign(dr);
    } else {
      Unaligned(from, to);
      return 0;
    }
    Aligned(from, to);
    bb := WalkLine(from, to, Direction(stepF, stepR));
  }

  method WalkLine(from: Square, to: Square, d: Compass) returns (bb: bv64)
    requires InLine(from, to) && (d == Towards(from, to) || d == Opposite(Towards(from, to)))
    ensures forall u: Square :: Contains(bb, u) <==> OnLine(from, to, u)
  {
    hide Contains, With, OnRay, OnLine, InLine, Towards;
    EmptyContains();
    WithContains(0, from);
    bb := With(0, from);
    bb := Sweep(bb, from, d);
    bb := Sweep(bb, from, Opposite(d));
    forall u: Square
      ensures OnLine(from, to, u) <==> u == from || OnRay(from, d, u) || OnRay(from, Opposite(d), u)
    {
      LineIsTwoRays(from, to, d, u);
    }
  }
}
