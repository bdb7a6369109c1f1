/** What the categorized counters count, in the words of the laws of chess. */
module Edges {
  import opened Wrappers
  import opened Chess
  import opened Bitboards
  import opened Subsets
  import opened Rules
  import opened Soundness
  import opened Moves
  import opened Lines
  import opened Checks
  import opened Legality
  import opened Generation
  import opened Masks
  import opened Perft
  import opened Categories
  import opened Book

  /** The piece on `a` gives check to the side to move. */
  ghost predicate GivesCheck(c: Core, a: Square) {
    && c.board[a].Some? && c.board[a].value.color != c.side
    && exists k: Square :: Holds(c.board, k, c.side, King) && Strikes(c.board, a, k)
  }

  ghost predicate InCheck(c: Core) {
    exists a: Square :: GivesCheck(c, a)
  }

  ghost function Checking(c: Core): set<Square> {
    set a: Square | GivesCheck(c, a)
  }

  /** On a fair position the checkers are the pieces that give check. */
  lemma CheckersGive(c: Core, a: Square)
    requires Fair(c)
    ensures Contains(CheckersIn(c), a) <==> GivesCheck(c, a)
  {
    GuardedParts(c);
    CheckersContain(c);
    var k := KingOf(c.board, c.side);
    if c.board[a].Some? {
      StrikesIsHits(c.board, a, k);
      LoneKing(c, a);
    }
    if Holds(c.board, a, c.side.Flip(), King) { KingsApart(c, k, a); }
    hide Contains, CheckersIn, Fair, Sound, Clear, KnightJump, PawnHits, Lined, Strikes, KingStep;
  }

  lemma LoneKing(c: Core, a: Square)
    requires Sound(c)
    ensures OneKing(c.board, c.side)
    ensures (exists k: Square :: Holds(c.board, k, c.side, King) && Strikes(c.board, a, k)) <==>
            Strikes(c.board, a, KingOf(c.board, c.side))
  {
    HasKings(c, c.side);
    hide Strikes, Sound;
  }

  // ---- Counting checkers ----

  ghost function Members(b: bv64, n: nat): set<Square> {
    set s: Square | s < n && Contains(b, s)
  }

  lemma {:induction false} MembersCounted(b: bv64, n: nat)
    requires n <= 64
    ensures MembersTo(b, n) == |Members(b, n)|
  {
    hide Contains;
    if n > 0 {
      MembersCounted(b, n - 1);
      assert Members(b, n) == if Contains(b, n - 1) then Members(b, n - 1) + {n - 1} else Members(b, n - 1);
    }
  }

  lemma CountsChecks(c: Core, to: Square)
    requires Fair(c)
    ensures Count(CheckersIn(c)) >= 1 <==> InCheck(c)
    ensures Count(CheckersIn(c)) == |Checking(c)|
    ensures AndNot(CheckersIn(c), With(0, to)) != 0 <==> exists a: Square :: GivesCheck(c, a) && a != to
  {
    hide *;
    CheckersGiveAll(c);
    CheckCounted(c);
    CheckersCounted(c);
    OffTarget(c, to);
  }

  lemma CheckersGiveAll(c: Core)
    requires Fair(c)
    ensures forall a: Square :: Contains(CheckersIn(c), a) <==> GivesCheck(c, a)
  {
    hide Fair, CheckersIn, GivesCheck, Contains;
    forall a: Square
      ensures Contains(CheckersIn(c), a) <==> GivesCheck(c, a)
    {
      CheckersGive(c, a);
    }
  }

  lemma CheckCounted(c: Core)
    requires forall a: Square :: Contains(CheckersIn(c), a) <==> GivesCheck(c, a)
    ensures Count(CheckersIn(c)) >= 1 <==> InCheck(c)
  {
    hide CheckersIn, GivesCheck, Contains, Count;
    CountAtMostOne(CheckersIn(c));
  }

  lemma CheckersCounted(c: Core)
    requires forall a: Square :: Contains(CheckersIn(c), a) <==> GivesCheck(c, a)
    ensures Count(CheckersIn(c)) == |Checking(c)|
  {
    hide CheckersIn, GivesCheck, Contains;
    MembersCounted(CheckersIn(c), 64);
    assert Members(CheckersIn(c), 64) == Checking(c);
  }

  lemma OffTarget(c: Core, to: Square)
    requires forall a: Square :: Contains(CheckersIn(c), a) <==> GivesCheck(c, a)
    ensures AndNot(CheckersIn(c), With(0, to)) != 0 <==> exists a: Square :: GivesCheck(c, a) && a != to
  {
    hide CheckersIn, GivesCheck, Contains, With, AndNot;
    var rest := AndNot(CheckersIn(c), With(0, to));
    NonemptyIff(rest);
    WithContains(0, to);
    EmptyContains();
    forall a: Square
      ensures Contains(rest, a) <==> GivesCheck(c, a) && a != to
    {
      AndNotContains(CheckersIn(c), With(0, to), a);
    }
  }

  // ---- The counters ----

  /** How the shape of a move is told by its coordinates and the board. */
  lemma ShapeLaw(c: Core, mv: Move)
    requires Sound(c) && PseudoLegal(c, mv)
    ensures c.board[mv.from].Some? && Applicable(c, mv)
    ensures var mover := c.board[mv.from].value;
            && (mv.flag.IsCapture() <==> c.board[mv.to].Some? || TakesInPassing(c, mover, mv))
            && (mv.flag.EnPassant? <==> TakesInPassing(c, mover, mv))
            && (mv.flag.IsCastle() <==> TakesRookAlong(mover, mv))
            && (mv.flag.Promotion().Some? <==> Next(c, mv).board[mv.to] != Some(mover))
  {
    KindOfMove(c, mv);
    CaptureShows(c, mv);
    PromotionShows(c, mv);
    hide Sound, Applicable, Reaches, Next, TakesInPassing, TakesRookAlong;
  }

  lemma CaptureShows(c: Core, mv: Move)
    requires Sound(c) && PseudoLegal(c, mv)
    ensures mv.flag.IsCapture() <==> c.board[mv.to].Some? || mv.flag.EnPassant?
  {
    hide Sound, Reaches;
  }

  lemma PromotionShows(c: Core, mv: Move)
    requires Sound(c) && Applicable(c, mv)
    ensures c.board[mv.from].Some?
    ensures mv.flag.Promotion().Some? <==> Next(c, mv).board[mv.to] != c.board[mv.from]
  {
    NextBoardAt(c, mv);
    hide Sound, NextBoard, NextEp, NextCastling;
  }

  lemma MateShows(c: Core)
    requires Fair(c)
    ensures Gen(c) == [] <==> forall m :: !Allowed(c, m)
  {
    GenIsByTheBook(c);
    hide Fair, Gen, Allowed, Distinct;
    assert Gen(c) == [] || Gen(c)[0] in Gen(c);
  }

  /** How a generated move of a fair position is counted. */
  lemma EdgeLaw(c: Core, mv: Move, depth: nat)
    requires Fair(c) && mv in Gen(c)
    ensures Allowed(c, mv) && Sound(c) && Applicable(c, mv) && c.board[mv.from].Some?
    ensures var (edge, next, mover) := (Edge(c, mv, depth), Next(c, mv), c.board[mv.from].value);
            && (edge.nodes == if depth == 1 then 1 else 0)
            && (edge.captures == if c.board[mv.to].Some? || TakesInPassing(c, mover, mv) then 1 else 0)
            && (edge.enPassant == if TakesInPassing(c, mover, mv) then 1 else 0)
            && (edge.castles == if TakesRookAlong(mover, mv) then 1 else 0)
            && (edge.promotions == if next.board[mv.to] != Some(mover) then 1 else 0)
            && (edge.checks == if InCheck(next) then 1 else 0)
            && (edge.discoveryChecks == if exists a: Square :: GivesCheck(next, a) && a != mv.to then 1 else 0)
            && (edge.doubleChecks == if |Checking(next)| == 2 then 1 else 0)
            && (edge.checkmates == if depth == 1 && InCheck(next) && (forall m :: !Allowed(next, m)) then 1 else 0)
  {
    hide *;
    FairParts(c, mv);
    var next := Next(c, mv);
    ShapeLaw(c, mv);
    CountsChecks(next, mv.to);
    MateShows(next);
    Filed(c, mv, depth);
    if a: Square :| GivesCheck(next, a) && a != mv.to { CheckBy(next, a); }
  }

  lemma CheckBy(c: Core, a: Square)
    requires GivesCheck(c, a)
    ensures InCheck(c)
  {
    hide GivesCheck;
  }

  lemma FairParts(c: Core, mv: Move)
    requires Fair(c) && mv in Gen(c)
    ensures Sound(c) && PseudoLegal(c, mv) && Applicable(c, mv) && Allowed(c, mv) && Child(c, mv) == Next(c, mv)
    ensures Fair(Next(c, mv))
  {
    GuardedParts(c);
    GenIsByTheBook(c);
    AllowedIsLegal(c, mv);
    GeneratedApplies(c, mv);
    StaysFair(c, mv);
    hide Fair, Sound, Gen, Applicable, Reaches, Next, Allowed, Legal, Distinct;
  }

  lemma Filed(c: Core, mv: Move, depth: nat)
    ensures var (edge, next, found) := (Edge(c, mv, depth), Child(c, mv), CheckersIn(Child(c, mv)));
            && edge.nodes == One(depth == 1)
            && edge.captures == One(mv.flag.IsCapture())
            && edge.enPassant == One(mv.flag.EnPassant?)
            && edge.castles == One(mv.flag.IsCastle())
            && edge.promotions == One(mv.flag.Promotion().Some?)
            && edge.checks == One(Count(found) >= 1)
            && edge.discoveryChecks == One(Count(found) >= 1 && AndNot(found, With(0, mv.to)) != 0)
            && edge.doubleChecks == One(Count(found) == 2)
            && edge.checkmates == One(Count(found) >= 1 && depth == 1 && Gen(next) == [])
            && One(true) == 1 && One(false) == 0
  {
    hide Gen, Child, Count, CheckersIn, AndNot, With;
  }
}
