/**
 What the rules of chess say a move does, in the words of the rules: which squares castling crosses,
 when a double push may be answered in passing, which rights are lost, what the clocks and the turn count.
*/
module Laws {
  import opened Wrappers
  import opened Chess
  import opened Rules
  import opened Soundness
  import opened Moves
  import opened Lines
  import opened Checks
  import opened Legality
  import opened Generation
  import opened Runs
  import opened Games

  // ---- Castling ----

  /** The right to castle to the given side of the board. */
  function RightOf(color: Color, short: bool): CastlingRights {
    match (color, short)
    case (White, true) => 1
    case (White, false) => 2
    case (Black, true) => 4
    case (Black, false) => 8
  }

  /** From e1 or e8, two squares towards the rook. */
  function Castling(color: Color, short: bool): Move {
    var home := if color.White? then E1 else E8;
    Move(home, if short then home + 2 else home - 2, if short then KingCastle else QueenCastle)
  }

  function Corner(color: Color, short: bool): Square {
    match (color, short)
    case (White, true) => H1
    case (White, false) => A1
    case (Black, true) => H8
    case (Black, false) => A8
  }

  /** Nothing stands between king and rook. */
  ghost predicate RookSees(c: Core, short: bool) {
    forall s: Square :: Inside(Castling(c.side, short).from, Corner(c.side, short), s) ==> c.board[s].None?
  }

  /** The king is attacked neither at an end of its way nor between. */
  ghost predicate KingWalksSafely(c: Core, short: bool) {
    var mv := Castling(c.side, short);
    forall s: Square :: s == mv.from || s == mv.to || Inside(mv.from, mv.to, s) ==> !Attacked(c.board, c.side.Flip(), s)
  }

  /**
   Castling is generated exactly when the right is held, nothing stands between king and rook, and the
   king is attacked on no square from the one it leaves to the one it lands on.
   */
  lemma CastlingLaw(c: Core, short: bool)
    requires Sound(c)
    ensures Castling(c.side, short) in Gen(c) <==>
            HasRight(c.castling, RightOf(c.side, short)) && RookSees(c, short) && KingWalksSafely(c, short)
    ensures Castling(c.side, short) in Gen(c) <==> Legal(c, Castling(c.side, short))
  {
    var mv := Castling(c.side, short);
    GenHas(c);
    CastlingPseudoLegal(c, short);
    PassesNeedsReach(c, mv);
    LegalNeedsReach(c, mv);
    hide Sound, PseudoLegal, Gen, Passes, Legal, Attacked, HasRight, KingWalksSafely, RookSees, Castling;
    if PseudoLegal(c, mv) {
      CastlingIsCastle(c.side, short);
      CastleLegal(c, mv);
      CastlingSafe(c, mv);
      WayIs(c, short);
    }
  }

  lemma CastlingIsCastle(color: Color, short: bool)
    ensures Castling(color, short).flag == (if short then KingCastle else QueenCastle)
  {}

  lemma LegalNeedsReach(c: Core, mv: Move)
    requires Sound(c)
    ensures Legal(c, mv) ==> PseudoLegal(c, mv)
  {}

  lemma WayIs(c: Core, short: bool)
    ensures var mv := Castling(c.side, short);
            && 2 <= mv.from < 63
            && (KingWalksSafely(c, short) <==>
                var them := c.side.Flip();
                !Attacked(c.board, them, mv.from) && !Attacked(c.board, them, mv.to)
                && !Attacked(c.board, them, if short then mv.from + 1 else mv.from - 1))
  {
    CastlingPath(c, short);
    hide Attacked, Inside;
  }

  lemma PassesNeedsReach(c: Core, mv: Move)
    requires Sound(c)
    ensures Passes(c, mv) ==> PseudoLegal(c, mv)
  {}

  /** Along a rank, between is between in number. */
  lemma AlongRank(a: Square, b: Square, s: Square)
    requires Rank(a) == Rank(b)
    ensures Inside(a, b, s) <==> a < s < b || b < s < a
  {
    OnRank(a, s);
    OnRank(b, s);
    OnRank(a, b);
    hide File, Rank;
  }

  lemma OnRank(a: Square, s: Square)
    ensures a < s <==> Rank(a) < Rank(s) || (Rank(a) == Rank(s) && File(a) < File(s))
    ensures a == s <==> Rank(a) == Rank(s) && File(a) == File(s)
  {}

  /** The squares in question, by their distance from the king's home. */
  lemma CastlingPath(c: Core, short: bool)
    ensures var mv := Castling(c.side, short);
            && (forall s: Square :: Inside(mv.from, Corner(c.side, short), s) <==>
                                    if short then s == mv.from + 1 || s == mv.from + 2
                                    else s == mv.from - 1 || s == mv.from - 2 || s == mv.from - 3)
            && (forall s: Square :: Inside(mv.from, mv.to, s) <==> s == if short then mv.from + 1 else mv.from - 1)
  {
    var mv := Castling(c.side, short);
    assert Rank(mv.from) == Rank(mv.to) == Rank(Corner(c.side, short));
    hide Inside, Rank;
    forall s: Square
      ensures Inside(mv.from, Corner(c.side, short), s) <==>
              if short then s == mv.from + 1 || s == mv.from + 2
              else s == mv.from - 1 || s == mv.from - 2 || s == mv.from - 3
      ensures Inside(mv.from, mv.to, s) <==> s == if short then mv.from + 1 else mv.from - 1
    {
      AlongRank(mv.from, mv.to, s);
      AlongRank(mv.from, Corner(c.side, short), s);
    }
  }

  lemma CastlingPseudoLegal(c: Core, short: bool)
    requires Sound(c)
    ensures PseudoLegal(c, Castling(c.side, short)) <==> HasRight(c.castling, RightOf(c.side, short)) && RookSees(c, short)
  {
    CastlingPath(c, short);
    hide Inside;
    var home := Castling(c.side, short).from;
    assert RookSees(c, short) <==>
           if short then c.board[home + 1].None? && c.board[home + 2].None?
           else c.board[home - 1].None? && c.board[home - 2].None? && c.board[home - 3].None?;
    hide RookSees;
  }

  /** A castling move is legal when the king is attacked neither on its way nor at its ends, on the board as it stands. */
  lemma CastlingSafe(c: Core, mv: Move)
    requires Sound(c) && PseudoLegal(c, mv) && mv.flag.IsCastle()
    ensures 2 <= mv.from < 63
    ensures Legal(c, mv) <==>
            var them := c.side.Flip();
            !Attacked(c.board, them, mv.from) && !Attacked(c.board, them, mv.to)
            && !Attacked(c.board, them, if mv.flag.KingCastle? then mv.from + 1 else mv.from - 1)
  {
    CastleBoardsAre(c, mv);
    HasKings(c, c.side);
    CastlingFacts(c, mv);
    assert mv.from == KingOf(c.board, c.side);
    hide Sound, Applicable, Reaches, NextBoard, Attacked;
    var them := c.side.Flip();
    if !Attacked(c.board, them, mv.from) {
      LiftedKing(c.board, them, mv.from, mv.to);
      CastledKing(c.board, NextBoard(c, mv), c.side, mv.flag, mv.from, mv.to);
    }
  }

  /** King and rook change places as the rules say: the rook lands on the square the king crossed. */
  lemma CastledLaw(c: Core, short: bool)
    requires Sound(c) && Applicable(c, Castling(c.side, short))
    ensures var mv := Castling(c.side, short);
            var after := NextBoard(c, mv);
            && Holds(after, mv.to, c.side, King)
            && after[mv.from].None? && after[Corner(c.side, short)].None?
            && (forall s: Square :: Inside(mv.from, mv.to, s) ==> Holds(after, s, c.side, Rook))
            && (forall s: Square :: s != mv.from && s != Corner(c.side, short) && s != mv.to && !Inside(mv.from, mv.to, s) ==>
                                      after[s] == c.board[s])
  {
    CastlingPath(c, short);
    CastlingFacts(c, Castling(c.side, short));
    NextBoardAt(c, Castling(c.side, short));
    hide Sound, Applicable, NextBoard, Inside;
  }

  // ---- En passant ----

  /** An enemy pawn on the same rank, one file away. */
  predicate PawnBeside(board: Board, enemy: Color, s: Square, t: Square) {
    Holds(board, t, enemy, Pawn) && Rank(t) == Rank(s) && Distance(File(t), File(s)) == 1
  }

  /** A target is set by a double push past an enemy pawn, on the square passed over, and by nothing else. */
  lemma TargetLaw(c: Core, mv: Move)
    requires Sound(c) && Applicable(c, mv)
    ensures mv.flag.DoublePush? && (exists t: Square :: PawnBeside(c.board, c.side.Flip(), mv.to, t)) ==>
              Next(c, mv).ep.Some? && forall s: Square :: Inside(mv.from, mv.to, s) <==> Next(c, mv).ep == Some(s)
    ensures !(mv.flag.DoublePush? && exists t: Square :: PawnBeside(c.board, c.side.Flip(), mv.to, t)) ==>
              Next(c, mv).ep == None
  {
    if mv.flag.DoublePush? {
      NextBoardAt(c, mv);
      CapturerBeside(NextBoard(c, mv), c.side.Flip(), mv.from, mv.to);
      hide Sound, NextBoard;
      PassedOver(c.side, mv.from, mv.to);
      hide Inside;
      forall t: Square
        ensures PawnBeside(NextBoard(c, mv), c.side.Flip(), mv.to, t) <==> PawnBeside(c.board, c.side.Flip(), mv.to, t)
      {
        assert t != mv.to && t != mv.from ==> NextBoard(c, mv)[t] == c.board[t];
      }
    }
  }

  lemma PassedOver(side: Color, from: Square, to: Square)
    requires to == from + 2 * Forward(side)
    ensures forall s: Square :: Inside(from, to, s) <==> s == from + Forward(side)
  {
    forall s: Square
      ensures Inside(from, to, s) <==> s == from + Forward(side)
    {
      TwoRanks(side, from, to);
      OnRank(from + Forward(side), s);
      hide File, Rank;
    }
  }

  lemma TwoRanks(side: Color, from: Square, to: Square)
    requires to == from + 2 * Forward(side)
    ensures var one: Square := from + Forward(side);
            && File(one) == File(from) == File(to)
            && if side.White? then Rank(one) == Rank(from) + 1 == Rank(to) - 1 else Rank(one) == Rank(from) - 1 == Rank(to) + 1
  {}

  lemma CapturerBeside(board: Board, enemy: Color, from: Square, to: Square)
    requires File(from) == File(to)
    ensures EpCapturerExists(board, enemy, File(from), Rank(to)) <==> exists t: Square :: PawnBeside(board, enemy, to, t)
  {
    if t: Square :| PawnBeside(board, enemy, to, t) {
      assert t == At(File(t), Rank(to));
    }
    if File(from) > 0 && Holds(board, At(File(from) - 1, Rank(to)), enemy, Pawn) {
      assert PawnBeside(board, enemy, to, At(File(from) - 1, Rank(to)));
    }
    if File(from) < 7 && Holds(board, At(File(from) + 1, Rank(to)), enemy, Pawn) {
      assert PawnBeside(board, enemy, to, At(File(from) + 1, Rank(to)));
    }
  }

  /** The target set is as much as the parser would keep: nothing is dropped beyond what the sanitizer drops. */
  lemma TargetIsMaximal(c: Core, mv: Move, passed: Square)
    requires Sound(c) && Applicable(c, mv) && mv.flag.DoublePush? && Inside(mv.from, mv.to, passed)
    ensures Next(c, mv).ep == SanitizeEp(NextBoard(c, mv), c.side.Flip(), Some(passed))
  {
    NextBoardAt(c, mv);
    PassedOver(c.side, mv.from, mv.to);
    hide Sound, NextBoard, Inside;
  }

  /** A capture in passing removes the enemy pawn beside the one that moves, on the target's file. */
  lemma PassingLaw(c: Core, mv: Move, beside: Square)
    requires Sound(c) && Applicable(c, mv) && mv.flag.EnPassant?
    requires File(beside) == File(mv.to) && Rank(beside) == if c.side.White? then 4 else 3
    ensures Holds(c.board, beside, c.side.Flip(), Pawn) && c.board[mv.to].None?
    ensures NextBoard(c, mv)[beside].None? && Holds(NextBoard(c, mv), mv.to, c.side, Pawn)
  {
    VictimIsEnemy(c, mv);
    NextBoardAt(c, mv);
    hide Sound, NextBoard;
  }

  // ---- Castling rights ----

  /** A right is lost exactly by a move from or to its king's or its rook's home. */
  lemma RightsLaw(c: Core, mv: Move, color: Color, short: bool)
    requires Sound(c) && Applicable(c, mv)
    ensures HasRight(Next(c, mv).castling, RightOf(color, short)) <==>
            && HasRight(c.castling, RightOf(color, short))
            && mv.from != Castling(color, short).from && mv.from != Corner(color, short)
            && mv.to != Castling(color, short).from && mv.to != Corner(color, short)
  {
    var right := RightOf(color, short);
    RightsSurvive(c.castling, mv, right);
    MaskGuards(mv.from, right, color, Castling(color, short).from, Corner(color, short));
    MaskGuards(mv.to, right, color, Castling(color, short).from, Corner(color, short));
    hide Sound, Applicable, NextBoard, NextEp, CastlingMask, HasRight;
  }

  // ---- Turn and clock ----

  /** A pawn moves, or something stands on the target. */
  predicate Irreversible(c: Core, mv: Move) {
    (c.board[mv.from].Some? && c.board[mv.from].value.kind.Pawn?) || c.board[mv.to].Some?
  }

  /** Half-moves since the last pawn move or capture, those the line began with included. */
  function Idle(line: Line): nat {
    match line
    case Start(core) => core.halfmove
    case Then(before, step, _) =>
      if step.Moved? && Irreversible(before.core, step.mv) then 0 else Idle(before) + 1
  }

  /** The clock counts them, and stays at 255. */
  lemma {:induction false} ClockLaw(line: Line)
    requires Consistent(line)
    ensures line.core.halfmove == if Idle(line) <= 255 then Idle(line) else 255
  {
    hide Sound, CanStep, After;
    match line
    case Start(_) =>
    case Then(before, step, _) =>
      ClockLaw(before);
      ClockStep(before.core, step);
  }

  lemma ClockStep(c: Core, step: Step)
    requires CanStep(c, step)
    ensures After(c, step).halfmove ==
            if step.Moved? && Irreversible(c, step.mv) then 0
            else if c.halfmove == 255 then 255 else c.halfmove + 1
  {
    if step.Moved? { WhatIsCaptured(c, step.mv); }
    hide Sound, Applicable, NextBoard, NextCastling, NextEp;
  }

  lemma WhatIsCaptured(c: Core, mv: Move)
    requires Sound(c) && Applicable(c, mv)
    ensures Irreversible(c, mv) <==> c.board[mv.from].value.kind.Pawn? || mv.flag.IsCapture()
  {
    if mv.flag.IsCapture() { VictimIsEnemy(c, mv); }
    hide Sound;
  }

  /** The turn alternates. */
  lemma {:induction false} TurnLaw(line: Line)
    requires Consistent(line)
    ensures line.core.side == if line.Depth() % 2 == 0 then Origin(line).side else Origin(line).side.Flip()
  {
    hide Sound, CanStep, After;
    match line
    case Start(_) =>
    case Then(before, step, _) =>
      TurnLaw(before);
      TurnStep(before.core, step);
  }

  lemma TurnStep(c: Core, step: Step)
    requires CanStep(c, step)
    ensures After(c, step).side != c.side
  {
    hide Sound, Applicable, NextBoard, NextCastling, NextEp;
  }
}
