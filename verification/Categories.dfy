/** Perft with a count of each kind of move along the way. */
module Categories {
  import opened Chess
  import opened Bitboards
  import opened Rules
  import opened Subsets
  import opened Positions
  import opened Transition
  import opened Moves
  import opened Checks
  import opened Legality
  import opened Generation
  import opened Words
  import opened Lookups
  import opened Masks
  import opened Movegen
  import opened Perft

  datatype Counts = Counts(
    nodes: nat,
    captures: nat,
    enPassant: nat,
    castles: nat,
    promotions: nat,
    checks: nat,
    discoveryChecks: nat,
    doubleChecks: nat,
    checkmates: nat)

  const ZERO := Counts(0, 0, 0, 0, 0, 0, 0, 0, 0)

  function Add(a: Counts, b: Counts): Counts {
    Counts(
      a.nodes + b.nodes,
      a.captures + b.captures,
      a.enPassant + b.enPassant,
      a.castles + b.castles,
      a.promotions + b.promotions,
      a.checks + b.checks,
      a.discoveryChecks + b.discoveryChecks,
      a.doubleChecks + b.doubleChecks,
      a.checkmates + b.checkmates)
  }

  /** The squares of the pieces that check the side to move. */
  ghost function CheckersIn(c: Core): bv64 {
    WordOf((a: Square) => Sound(c) && CheckedBy(c.board, c.side, SideKing(c), a))
  }

  ghost function SideKing(c: Core): Square {
    if OneKing(c.board, c.side) then KingOf(c.board, c.side) else 0
  }

  function One(b: bool): nat {
    if b then 1 else 0
  }

  /** How one move counts, given the checkers it leaves and whether it was mate. Leaves count as nodes. */
  function Classify(mv: Move, checkers: bv64, leaf: bool, mate: bool): Counts {
    var check := Count(checkers) >= 1;
    var discovery := check && AndNot(checkers, With(0, mv.to)) != 0;
    Counts(
      One(leaf),
      One(mv.flag.IsCapture()),
      One(mv.flag.EnPassant?),
      One(mv.flag.IsCastle()),
      One(mv.flag.Promotion().Some?),
      One(check),
      One(discovery),
      One(Count(checkers) == 2),
      One(mate))
  }

  /** How the move `mv` counts `depth` plies above the leaves. */
  ghost function Edge(c: Core, mv: Move, depth: nat): Counts {
    var next := Child(c, mv);
    Classify(mv, CheckersIn(next), depth == 1, Count(CheckersIn(next)) >= 1 && depth == 1 && Gen(next) == [])
  }

  ghost function Tree(c: Core, depth: nat): Counts
    requires depth > 0
    decreases depth, 0, 0
  {
    TreeBelow(c, Gen(c), depth)
  }

  ghost function TreeBelow(c: Core, moves: seq<Move>, depth: nat): Counts
    requires depth > 0
    decreases depth - 1, 1, |moves|
  {
    if moves == [] then ZERO
    else
      var last := |moves| - 1;
      Add(TreeBelow(c, moves[..last], depth), Branch(c, moves[last], depth))
  }

  /** One move and everything below it. */
  ghost function Branch(c: Core, mv: Move, depth: nat): Counts
    requires depth > 0
    decreases depth - 1, 0, 1
  {
    var edge := Edge(c, mv, depth);
    if depth == 1 then edge else Add(edge, Tree(Child(c, mv), depth - 1))
  }

  // ---- What the counters mean together ----

  predicate Ordered(a: Counts) {
    && a.doubleChecks <= a.discoveryChecks <= a.checks
    && a.checkmates <= a.checks
    && a.enPassant <= a.captures
  }

  lemma {:induction false} OnlySquare(b: bv64, s: Square, n: nat)
    requires n <= 64
    requires forall t: Square :: Contains(b, t) ==> t == s
    ensures MembersTo(b, n) <= if s < n then 1 else 0
  {
    hide Contains;
    if n > 0 { OnlySquare(b, s, n - 1); }
  }

  /** Of two checkers at least one does not stand on the target square. */
  lemma TwoCheckersDiscover(checkers: bv64, to: Square)
    requires Count(checkers) == 2
    ensures AndNot(checkers, With(0, to)) != 0
  {
    hide Contains, AndNot, With;
    var rest := AndNot(checkers, With(0, to));
    WithContains(0, to);
    EmptyContains();
    if forall t: Square :: Contains(checkers, t) ==> t == to {
      OnlySquare(checkers, to, 64);
    }
    var t: Square :| Contains(checkers, t) && t != to;
    AndNotContains(checkers, With(0, to), t);
    assert Contains(rest, t);
  }

  lemma EdgeOrdered(mv: Move, checkers: bv64, leaf: bool, mate: bool)
    requires mate ==> Count(checkers) >= 1
    ensures Ordered(Classify(mv, checkers, leaf, mate))
  {
    if Count(checkers) == 2 { TwoCheckersDiscover(checkers, mv.to); }
    hide Count, AndNot, With;
  }

  /** In every tree the counters nest, and the nodes are the leaves perft counts. */
  lemma {:induction false} TreeCounts(c: Core, depth: nat)
    requires depth > 0
    ensures Ordered(Tree(c, depth))
    ensures Tree(c, depth).nodes == Leaves(Gen, c, depth)
    decreases depth, 0, 0
  {
    hide Gen;
    TreeBelowCounts(c, Gen(c), depth);
  }

  lemma {:induction false} TreeBelowCounts(c: Core, moves: seq<Move>, depth: nat)
    requires depth > 0
    ensures Ordered(TreeBelow(c, moves, depth))
    ensures TreeBelow(c, moves, depth).nodes == LeavesBelow(Gen, c, moves, depth)
    decreases depth - 1, 1, |moves|
  {
    hide Gen, Child, Branch, Leaves;
    if moves != [] {
      var last := |moves| - 1;
      TreeBelowCounts(c, moves[..last], depth);
      BranchCounts(c, moves[last], depth);
    }
  }

  lemma {:induction false} BranchCounts(c: Core, mv: Move, depth: nat)
    requires depth > 0
    ensures Ordered(Branch(c, mv, depth))
    ensures Branch(c, mv, depth).nodes == Leaves(Gen, Child(c, mv), depth - 1)
    decreases depth - 1, 0, 1
  {
    hide Gen, Child, Tree, Count, CheckersIn, LeavesBelow;
    var next := Child(c, mv);
    EdgeOrdered(mv, CheckersIn(next), depth == 1, Count(CheckersIn(next)) >= 1 && depth == 1 && Gen(next) == []);
    if depth > 1 { TreeCounts(next, depth - 1); }
  }

  /** On a fair position check without a generated move is mate: the king is attacked and no legal move is left. */
  lemma MateIsMate(c: Core)
    requires Fair(c)
    ensures OneKing(c.board, c.side)
    ensures CheckersIn(c) != 0 && Gen(c) == [] <==>
            Attacked(c.board, c.side.Flip(), KingOf(c.board, c.side)) && forall mv :: !Legal(c, mv)
  {
    GuardedParts(c);
    GenIsLegal(c);
    var k := KingOf(c.board, c.side);
    CheckersContain(c);
    NonemptyIff(CheckersIn(c));
    AttackedOrChecked(c.board, c.side, k);
    forall e: Square | Holds(c.board, e, c.side.Flip(), King)
      ensures !KingStep(e, k)
    {
      assert Holds(c.board, k, c.side, King);
      KingsApart(c, k, e);
    }
    hide Contains, Fair, Sound, Legal, Gen, CheckersIn, CheckedBy, Distinct;
    assert Gen(c) == [] || Gen(c)[0] in Gen(c);
  }

  lemma CheckersContain(c: Core)
    requires Sound(c)
    ensures OneKing(c.board, c.side)
    ensures forall a: Square :: Contains(CheckersIn(c), a) <==> CheckedBy(c.board, c.side, KingOf(c.board, c.side), a)
  {
    HasKings(c, c.side);
    hide Contains, CheckedBy;
    WordContains((a: Square) => Sound(c) && CheckedBy(c.board, c.side, SideKing(c), a));
  }

  // ---- perft_categorized ----

  /** `checkers_of` on the position as it stands, for its side to move. */
  method ChecksGiven(pos: Position, l: AttackTables) returns (found: bv64)
    requires Ready(l) && pos.Valid()
    ensures found == CheckersIn(pos.Recorded())
  {
    ValidForMoves(pos);
    CheckersContain(pos.Recorded());
    KingIs(pos.mailbox, pos.side, pos.kings[pos.side.Index()]);
    hide Contains, Ready, CheckersIn, CheckedBy, Sound, KingAt, OccupancyOf, KindsAgree, ColorsAgree, ValidSnapshot;
    var occ := AllOccupied(pos);
    found := CheckersOf(pos, l, pos.side, pos.kings[pos.side.Index()], occ);
    Extensional(found, CheckersIn(pos.Recorded()));
  }

  /** `perft_categorized_inner`: counters accumulate across the whole recursion. */
  method CategorizeInner(pos: Position, l: AttackTables, depth: nat, start: Counts) returns (counts: Counts)
    requires Ready(l) && pos.Valid() && depth > 0 && Tame(pos.Recorded(), depth + 1)
    modifies pos
    ensures pos.Fields() == old(pos.Fields())
    ensures counts == Add(start, Tree(old(pos.Recorded()), depth))
    decreases depth, 3
  {
    hide *;
    ChildrenTame(pos.Recorded(), depth + 1);
    TreeIs(pos.Recorded(), depth);
    var moves := GenerateMoves(pos, l);
    counts := CategorizeAll(pos, l, depth, moves, start);
  }

  lemma TreeIs(c: Core, depth: nat)
    requires depth > 0
    ensures Tree(c, depth) == TreeBelow(c, Gen(c), depth)
  {}

  method CategorizeAll(pos: Position, l: AttackTables, depth: nat, moves: seq<Move>, start: Counts) returns (counts: Counts)
    requires Ready(l) && pos.Valid() && depth > 0 && Playable(pos.Recorded(), moves, depth + 1)
    modifies pos
    ensures pos.Fields() == old(pos.Fields())
    ensures counts == Add(start, TreeBelow(old(pos.Recorded()), moves, depth))
    decreases depth, 2
  {
    hide ValidSnapshot, Sound, Ready, Gen, Child, Branch, Tame;
    ghost var before := pos.Fields();
    counts := start;
    for i := 0 to |moves|
      invariant pos.Fields() == before
      invariant counts == Add(start, TreeBelow(before.core, moves[..i], depth))
    {
      counts := CategorizeMove(pos, l, depth, moves[i], counts);
      assert moves[..i + 1][..i] == moves[..i];
    }
    assert moves[..|moves|] == moves;
  }

  /** Makes a move, looks at the checks it gives, counts below it, takes it back and files it. */
  method CategorizeMove(pos: Position, l: AttackTables, depth: nat, mv: Move, start: Counts) returns (counts: Counts)
    requires Ready(l) && pos.Valid() && depth > 0
    requires Sound(pos.Recorded()) && mv in Gen(pos.Recorded()) && Tame(Child(pos.Recorded(), mv), depth)
    modifies pos
    ensures pos.Fields() == old(pos.Fields())
    ensures counts == Add(start, Branch(old(pos.Recorded()), mv, depth))
    decreases depth, 1
  {
    hide ValidSnapshot, Sound, Ready, Gen, Child, Classify, Tame, Branch, BelowMove, CheckersIn;
    ghost var c := pos.Recorded();
    var found, mate, below := Explore(pos, l, depth, mv, start);
    counts := Add(below, Classify(mv, found, false, mate));
    FiledOnce(c, mv, depth, start);
  }

  /** Below a move, and the checks it gave: what is known when the move has been taken back. */
  method Explore(pos: Position, l: AttackTables, depth: nat, mv: Move, start: Counts)
    returns (found: bv64, mate: bool, below: Counts)
    requires Ready(l) && pos.Valid() && depth > 0
    requires Sound(pos.Recorded()) && mv in Gen(pos.Recorded()) && Tame(Child(pos.Recorded(), mv), depth)
    modifies pos
    ensures pos.Fields() == old(pos.Fields())
    ensures found == CheckersIn(Child(old(pos.Recorded()), mv))
    ensures mate == (Count(found) >= 1 && depth == 1 && Gen(Child(old(pos.Recorded()), mv)) == [])
    ensures below == BelowMove(old(pos.Recorded()), mv, depth, start)
    decreases depth, 0
  {
    hide *;
    ghost var before := pos.Fields();
    PositionParts(pos);
    GeneratedApplies(before.core, mv);
    TameIsSound(Child(before.core, mv), depth);
    MoverIsOurs(before.core, mv);
    BelowMoveIs(before.core, mv, depth, start);
    var undo := MakeMove(pos, mv);
    ghost var made := pos.Fields();
    PositionParts(pos);
    found, mate, below := Look(pos, l, depth, start);
    PositionParts(pos);
    UnmakeMove(pos, mv, undo, before);
  }

  lemma BelowMoveIs(c: Core, mv: Move, depth: nat, start: Counts)
    requires depth > 0
    ensures BelowMove(c, mv, depth, start) ==
            if depth == 1 then start.(nodes := start.nodes + 1) else Add(start, Tree(Child(c, mv), depth - 1))
  {}

  /** The part of a move's classification that looks at the position after it. */
  method Look(pos: Position, l: AttackTables, depth: nat, start: Counts) returns (found: bv64, mate: bool, below: Counts)
    requires Ready(l) && pos.Valid() && depth > 0 && Tame(pos.Recorded(), depth)
    modifies pos
    ensures pos.Fields() == old(pos.Fields())
    ensures found == CheckersIn(old(pos.Recorded()))
    ensures mate == (Count(found) >= 1 && depth == 1 && Gen(old(pos.Recorded())) == [])
    ensures below == if depth == 1 then start.(nodes := start.nodes + 1)
                     else Add(start, Tree(old(pos.Recorded()), depth - 1))
    decreases depth - 1, 4
  {
    hide *;
    found := ChecksGiven(pos, l);
    mate := false;
    if Count(found) >= 1 && depth == 1 {
      var replies := GenerateMoves(pos, l);
      mate := replies == [];
    }
    if depth == 1 {
      below := start.(nodes := start.nodes + 1);
    } else {
      below := CategorizeInner(pos, l, depth - 1, start);
    }
  }

  ghost function BelowMove(c: Core, mv: Move, depth: nat, start: Counts): Counts
    requires depth > 0
  {
    if depth == 1 then start.(nodes := start.nodes + 1) else Add(start, Tree(Child(c, mv), depth - 1))
  }

  lemma FiledOnce(c: Core, mv: Move, depth: nat, start: Counts)
    requires depth > 0
    ensures var found := CheckersIn(Child(c, mv));
            var mate := Count(found) >= 1 && depth == 1 && Gen(Child(c, mv)) == [];
            Add(BelowMove(c, mv, depth, start), Classify(mv, found, false, mate)) == Add(start, Branch(c, mv, depth))
  {
    hide Gen, Child, Tree, Count, CheckersIn, AndNot, With;
  }

  /** `perft_categorized`: as many nodes as `perft` counts, and the other counters nest. */
  method PerftCategorized(pos: Position, l: AttackTables, depth: nat) returns (counts: Counts)
    requires Ready(l) && pos.Valid() && Tame(pos.Recorded(), depth + 1)
    ensures counts.nodes == Leaves(Gen, pos.Recorded(), depth)
    ensures Ordered(counts)
    ensures depth > 0 ==> counts == Tree(pos.Recorded(), depth)
    ensures depth == 0 ==> counts == ZERO.(nodes := 1)
  {
    hide *;
    AtTheRoot(pos.Recorded());
    if depth == 0 {
      return ZERO.(nodes := 1);
    }
    TreeCounts(pos.Recorded(), depth);
    var working := new Position.Copy(pos);
    PositionParts(pos);
    PositionParts(working);
    counts := CategorizeInner(working, l, depth, ZERO);
    AddZero(Tree(pos.Recorded(), depth));
  }

  lemma AtTheRoot(c: Core)
    ensures Leaves(Gen, c, 0) == 1 && Ordered(ZERO.(nodes := 1))
  {
    hide Gen;
  }

  lemma AddZero(a: Counts)
    ensures Add(ZERO, a) == a
  {}
}
