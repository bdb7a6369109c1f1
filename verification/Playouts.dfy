/** What perft counts: the ways to go on for so many plies by the laws of chess. */
module Playouts {
  import opened Chess
  import opened Rules
  import opened Legality
  import opened Generation
  import opened Perft
  import opened Book

  /** Each move is allowed where it is played. */
  ghost predicate Playout(c: Core, line: seq<Move>)
    decreases |line|
  {
    line == [] || (Allowed(c, line[0]) && Playout(Child(c, line[0]), line[1..]))
  }

  // ---- The tree as a set of lines ----

  function Headed(mv: Move, lines: set<seq<Move>>): set<seq<Move>> {
    set line <- lines :: [mv] + line
  }

  lemma HeadedHas(mv: Move, lines: set<seq<Move>>, line: seq<Move>)
    ensures line in Headed(mv, lines) <==> line != [] && line[0] == mv && line[1..] in lines
  {
    if line != [] {
      assert line == [line[0]] + line[1..];
    }
    if line in Headed(mv, lines) {
      var rest :| rest in lines && line == [mv] + rest;
      assert line[1..] == rest;
    }
  }

  lemma {:induction false} HeadedSize(mv: Move, lines: set<seq<Move>>)
    ensures |Headed(mv, lines)| == |lines|
    decreases |lines|
  {
    if lines != {} {
      var one :| one in lines;
      var rest := lines - {one};
      HeadedSize(mv, rest);
      HeadedHas(mv, rest, [mv] + one);
      assert ([mv] + one)[1..] == one;
      assert Headed(mv, lines) == Headed(mv, rest) + {[mv] + one};
    }
  }

  ghost function Lines(c: Core, depth: nat): set<seq<Move>>
    decreases depth, 0, 0
  {
    if depth == 0 then {[]} else LinesBelow(c, Gen(c), depth)
  }

  ghost function LinesBelow(c: Core, moves: seq<Move>, depth: nat): set<seq<Move>>
    requires depth > 0
    decreases depth - 1, 1, |moves|
  {
    if moves == [] then {}
    else
      var last := |moves| - 1;
      LinesBelow(c, moves[..last], depth) + Headed(moves[last], Lines(Child(c, moves[last]), depth - 1))
  }

  lemma {:induction false} BelowHas(c: Core, moves: seq<Move>, depth: nat, line: seq<Move>)
    requires depth > 0
    ensures line in LinesBelow(c, moves, depth) <==>
            line != [] && line[0] in moves && line[1..] in Lines(Child(c, line[0]), depth - 1)
    decreases |moves|
  {
    hide Child, Lines, Headed;
    if moves != [] {
      var last := |moves| - 1;
      BelowHas(c, moves[..last], depth, line);
      HeadedHas(moves[last], Lines(Child(c, moves[last]), depth - 1), line);
      assert moves == moves[..last] + [moves[last]];
    }
  }

  /** There are as many lines as leaves. */
  lemma {:induction false} LinesSize(c: Core, depth: nat)
    requires Fair(c)
    ensures |Lines(c, depth)| == Leaves(Gen, c, depth)
    decreases depth, 0, 0
  {
    hide Fair, Gen, Child, LinesBelow, LeavesBelow, Distinct;
    if depth > 0 {
      FairMoves(c);
      BelowSize(c, Gen(c), depth);
    }
  }

  lemma FairMoves(c: Core)
    requires Fair(c)
    ensures Distinct(Gen(c)) && forall mv :: mv in Gen(c) ==> Fair(Child(c, mv))
  {
    GuardedParts(c);
    GenIsLegal(c);
    forall mv | mv in Gen(c)
      ensures Fair(Child(c, mv))
    {
      FairChild(c, mv);
    }
    hide Fair, Sound, Gen, Child, Legal, Distinct;
  }

  lemma {:induction false} BelowSize(c: Core, moves: seq<Move>, depth: nat)
    requires depth > 0 && Distinct(moves) && forall mv :: mv in moves ==> Fair(Child(c, mv))
    ensures |LinesBelow(c, moves, depth)| == LeavesBelow(Gen, c, moves, depth)
    decreases depth - 1, 1, |moves|
  {
    hide Fair, Child, Lines, Leaves, Headed;
    if moves != [] {
      var last := |moves| - 1;
      var (before, here) := (LinesBelow(c, moves[..last], depth), Lines(Child(c, moves[last]), depth - 1));
      assert moves == moves[..last] + [moves[last]];
      BelowSize(c, moves[..last], depth);
      LinesSize(Child(c, moves[last]), depth - 1);
      HeadedSize(moves[last], here);
      forall line | line in before
        ensures line !in Headed(moves[last], here)
      {
        BelowHas(c, moves[..last], depth, line);
        HeadedHas(moves[last], here, line);
      }
      assert before !! Headed(moves[last], here);
    }
  }

  /** The lines are those of the book. */
  lemma {:induction false} LinesHas(c: Core, depth: nat, line: seq<Move>)
    requires Fair(c)
    ensures line in Lines(c, depth) <==> |line| == depth && Playout(c, line)
    decreases depth
  {
    hide Fair, Gen, Child, Allowed, LinesBelow, Distinct;
    if depth > 0 {
      FairMoves(c);
      GenIsByTheBook(c);
      BelowHas(c, Gen(c), depth, line);
      if line != [] && line[0] in Gen(c) {
        LinesHas(Child(c, line[0]), depth - 1, line[1..]);
      }
    }
  }

  /** From a fair position perft counts the ways to play `depth` plies by the book. */
  lemma LeavesArePlayouts(c: Core, depth: nat)
    requires Fair(c)
    ensures forall line :: line in Lines(c, depth) <==> |line| == depth && Playout(c, line)
    ensures |Lines(c, depth)| == Leaves(Gen, c, depth)
  {
    LinesSize(c, depth);
    forall line
      ensures line in Lines(c, depth) <==> |line| == depth && Playout(c, line)
    {
      LinesHas(c, depth, line);
    }
  }
}
