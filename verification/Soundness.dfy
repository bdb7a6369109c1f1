/** A move that takes no king, and every null move, leads from a sound position to a sound position. */
module Soundness {
  import opened Wrappers
  import opened Chess
  import opened Rules

  /** Square by square, what a move leaves on the board. */
  function CellAfter(c: Core, mv: Move, s: Square): Cell
    requires Sound(c) && Applicable(c, mv)
  {
    if mv.flag.IsCastle() && s == CastleRookSquares(c.side, mv.flag).1 then Some(Piece(c.side, Rook))
    else if mv.flag.IsCastle() && s == CastleRookSquares(c.side, mv.flag).0 then None
    else if s == mv.to then Some(Landed(c, mv))
    else if s == mv.from || (mv.flag.IsCapture() && s == CaptureSquare(c, mv)) then None
    else c.board[s]
  }

  lemma NextBoardAt(c: Core, mv: Move)
    requires Sound(c) && Applicable(c, mv)
    ensures forall s: Square :: NextBoard(c, mv)[s] == CellAfter(c, mv, s)
  {
    hide Sound, Applicable, CaptureSquare, Landed;
  }

  /** What a move captures is an enemy piece, never on the mover's square. */
  lemma VictimIsEnemy(c: Core, mv: Move)
    requires Sound(c) && Applicable(c, mv) && mv.flag.IsCapture()
    ensures HoldsEnemy(c.board, CaptureSquare(c, mv), c.side)
    ensures CaptureSquare(c, mv) != mv.from
    ensures mv.flag.EnPassant? ==> c.board[mv.to].None? && Holds(c.board, CaptureSquare(c, mv), c.side.Flip(), Pawn)
    ensures mv.flag.EnPassant? ==> 3 <= Rank(CaptureSquare(c, mv)) <= 4
    ensures !mv.flag.EnPassant? ==> CaptureSquare(c, mv) == mv.to
    ensures mv.to != mv.from
  {}

  lemma CastlingFacts(c: Core, mv: Move)
    requires Sound(c) && Applicable(c, mv) && mv.flag.IsCastle()
    ensures var (rookFrom, rookTo) := CastleRookSquares(c.side, mv.flag);
            && Holds(c.board, mv.from, c.side, King)
            && Holds(c.board, rookFrom, c.side, Rook)
            && c.board[mv.to].None? && c.board[rookTo].None?
            && mv.from != rookFrom && mv.to != rookTo
  {}

  /** What lands on the target is a king exactly when a king moved. */
  lemma LandedKing(c: Core, mv: Move)
    requires Sound(c) && Applicable(c, mv)
    ensures Landed(c, mv).color == c.side
    ensures Landed(c, mv).kind.King? <==> Holds(c.board, mv.from, c.side, King)
  {
    hide Sound;
  }

  lemma TargetKing(c: Core, mv: Move)
    requires Sound(c) && Applicable(c, mv)
    ensures !Holds(c.board, mv.to, c.side, King)
    ensures Holds(c.board, mv.to, c.side.Flip(), King) <==> TakesKing(c, mv)
  {
    if mv.flag.IsCapture() { VictimIsEnemy(c, mv); }
    hide Sound;
  }

  lemma MoverKingAfter(c: Core, mv: Move, k: Square)
    requires Sound(c) && Applicable(c, mv) && KingAt(c.board, c.side, k)
    ensures KingAt(NextBoard(c, mv), c.side, if mv.from == k then mv.to else k)
  {
    hide NextBoard, Sound, Applicable, CaptureSquare, Landed;
    KingEitherSide(c, mv);
    TargetKing(c, mv);
    assert Holds(c.board, k, c.side, King) && (mv.from == k <==> Holds(c.board, mv.from, c.side, King));
  }

  lemma MoverKeepsKing(c: Core, mv: Move)
    requires Sound(c) && Applicable(c, mv)
    ensures OneKing(NextBoard(c, mv), c.side)
  {
    hide Applicable, NextBoard;
    assert c.side == White || c.side == Black;
    var mine: Square :| KingAt(c.board, c.side, mine);
    MoverKingAfter(c, mv, mine);
  }

  lemma OtherKingAfter(c: Core, mv: Move, k: Square)
    requires Sound(c) && Applicable(c, mv) && !TakesKing(c, mv) && KingAt(c.board, c.side.Flip(), k)
    ensures KingAt(NextBoard(c, mv), c.side.Flip(), k)
  {
    assert c.board[mv.from].value.color == c.side;
    hide NextBoard, Sound, Applicable, CaptureSquare, Landed;
    KingEitherSide(c, mv);
    TargetKing(c, mv);
    assert Holds(c.board, k, c.side.Flip(), King);
  }

  /** The squares holding a king afterwards. */
  lemma KingEitherSide(c: Core, mv: Move)
    requires Sound(c) && Applicable(c, mv)
    ensures forall t: Square, color: Color :: Holds(NextBoard(c, mv), t, color, King) <==>
                                              if t == mv.to then color == c.side && Holds(c.board, mv.from, c.side, King)
                                              else t != mv.from && Holds(c.board, t, color, King)
  {
    hide NextBoard, Sound, Applicable, CaptureSquare, Landed;
    NextBoardAt(c, mv);
    LandedKing(c, mv);
    TargetKing(c, mv);
    if mv.flag.IsCapture() { VictimIsEnemy(c, mv); }
    if mv.flag.IsCastle() { CastlingFacts(c, mv); }
  }

  lemma KingsAfter(c: Core, mv: Move)
    requires Sound(c) && Applicable(c, mv) && !TakesKing(c, mv)
    ensures OneKing(NextBoard(c, mv), White) && OneKing(NextBoard(c, mv), Black)
  {
    hide NextBoard;
    var mine: Square :| KingAt(c.board, c.side, mine);
    var theirs: Square :| KingAt(c.board, c.side.Flip(), theirs);
    MoverKingAfter(c, mv, mine);
    OtherKingAfter(c, mv, theirs);
  }

  lemma PawnsAfter(c: Core, mv: Move)
    requires Sound(c) && Applicable(c, mv)
    ensures NoBackRankPawns(NextBoard(c, mv))
  {
    NextBoardAt(c, mv);
    hide NextBoard, CaptureSquare;
  }

  lemma RightsSurvive(rights: CastlingRights, mv: Move, right: CastlingRights)
    requires right in {WHITE_KING, WHITE_QUEEN, BLACK_KING, BLACK_QUEEN}
    ensures HasRight(NextCastling(rights, mv), right)
         == (HasRight(rights, right) && HasRight(CastlingMask(mv.from), right) && HasRight(CastlingMask(mv.to), right))
  {}

  ghost predicate IsHome(right: CastlingRights, color: Color, king: Square, rook: Square) {
    || (right == WHITE_KING && color.White? && king == E1 && rook == H1)
    || (right == WHITE_QUEEN && color.White? && king == E1 && rook == A1)
    || (right == BLACK_KING && color.Black? && king == E8 && rook == H8)
    || (right == BLACK_QUEEN && color.Black? && king == E8 && rook == A8)
  }

  lemma MaskGuards(s: Square, right: CastlingRights, color: Color, king: Square, rook: Square)
    requires IsHome(right, color, king, rook)
    ensures HasRight(CastlingMask(s), right) <==> s != king && s != rook
  {}

  /** A right that survives the mask has neither its king's nor its rook's home square touched. */
  lemma HomeUntouched(c: Core, mv: Move, right: CastlingRights, color: Color, king: Square, rook: Square)
    requires Sound(c) && Applicable(c, mv) && IsHome(right, color, king, rook)
    requires HasRight(NextCastling(c.castling, mv), right)
    ensures KingAndRookHome(NextBoard(c, mv), color, king, rook)
  {
    RightsSurvive(c.castling, mv, right);
    MaskGuards(mv.from, right, color, king, rook);
    MaskGuards(mv.to, right, color, king, rook);
    assert KingAndRookHome(c.board, color, king, rook) && (rook == A1 || rook == H1 || rook == A8 || rook == H8);
    assert HasRight(c.castling, right);
    hide HasRight, CastlingMask, NextCastling, CastlingConsistent;
    HomeKept(c, mv, color, king, rook);
  }

  lemma HomeKept(c: Core, mv: Move, color: Color, king: Square, rook: Square)
    requires Sound(c) && Applicable(c, mv) && KingAndRookHome(c.board, color, king, rook)
    requires rook == A1 || rook == H1 || rook == A8 || rook == H8
    requires mv.from != king && mv.from != rook && mv.to != king && mv.to != rook
    requires king == KingHome(color)
    ensures KingAndRookHome(NextBoard(c, mv), color, king, rook)
  {
    hide NextBoard, Sound, CaptureSquare;
    NextBoardAt(c, mv);
    if mv.flag.IsCapture() { VictimIsEnemy(c, mv); }
    if mv.flag.IsCastle() { CastlingFacts(c, mv); CastlingUsesOwnHome(c, mv, color, king, rook); }
    hide Applicable;
  }

  lemma CastlingUsesOwnHome(c: Core, mv: Move, color: Color, king: Square, rook: Square)
    requires Sound(c) && Applicable(c, mv) && mv.flag.IsCastle()
    requires KingAndRookHome(c.board, color, king, rook)
    requires king == KingHome(color) && mv.from != king
    requires rook == A1 || rook == H1 || rook == A8 || rook == H8
    ensures CastleRookSquares(c.side, mv.flag).0 != rook && CastleRookSquares(c.side, mv.flag).1 != rook
    ensures CastleRookSquares(c.side, mv.flag).0 != king && CastleRookSquares(c.side, mv.flag).1 != king
  {
    CastlingFacts(c, mv);
    hide Sound;
  }

  lemma CastlingAfter(c: Core, mv: Move)
    requires Sound(c) && Applicable(c, mv)
    ensures CastlingConsistent(NextBoard(c, mv), NextCastling(c.castling, mv))
  {
    hide Sound, Applicable, NextBoard, NextCastling, HasRight, KingAndRookHome;
    var rights := NextCastling(c.castling, mv);
    if HasRight(rights, WHITE_KING) { HomeUntouched(c, mv, WHITE_KING, White, E1, H1); }
    if HasRight(rights, WHITE_QUEEN) { HomeUntouched(c, mv, WHITE_QUEEN, White, E1, A1); }
    if HasRight(rights, BLACK_KING) { HomeUntouched(c, mv, BLACK_KING, Black, E8, H8); }
    if HasRight(rights, BLACK_QUEEN) { HomeUntouched(c, mv, BLACK_QUEEN, Black, E8, A8); }
  }

  /** The target left by a double push is one the FEN parser would keep. */
  lemma EpAfter(c: Core, mv: Move)
    requires Sound(c) && Applicable(c, mv)
    ensures SanitizeEp(NextBoard(c, mv), c.side.Flip(), NextEp(c, mv)) == NextEp(c, mv)
  {
    NextBoardAt(c, mv);
    hide NextBoard, CaptureSquare, Sound;
  }

  /** Taking a king leaves none of its colour. */
  lemma KingGone(c: Core, mv: Move)
    requires Sound(c) && Applicable(c, mv) && TakesKing(c, mv)
    ensures forall s: Square :: !Holds(NextBoard(c, mv), s, c.side.Flip(), King)
  {
    hide NextBoard, Applicable;
    var theirs: Square :| KingAt(c.board, c.side.Flip(), theirs);
    assert theirs == mv.to;
    KingEitherSide(c, mv);
  }

  /** Soundness survives a move of any of the fourteen kinds exactly when the move takes no king. */
  lemma NextSoundUnlessKingTaken(c: Core, mv: Move)
    requires Sound(c) && Applicable(c, mv)
    ensures Sound(Next(c, mv)) <==> !TakesKing(c, mv)
  {
    hide NextBoard, NextCastling, NextEp, Applicable, TakesKing;
    if TakesKing(c, mv) {
      KingGone(c, mv);
      assert forall s: Square :: KingAt(NextBoard(c, mv), c.side.Flip(), s) ==> Holds(NextBoard(c, mv), s, c.side.Flip(), King);
      assert !OneKing(NextBoard(c, mv), c.side.Flip());
    } else {
      NextSound(c, mv);
    }
  }

  lemma NextSound(c: Core, mv: Move)
    requires Sound(c) && Applicable(c, mv) && !TakesKing(c, mv)
    ensures Sound(Next(c, mv))
  {
    hide Applicable, NextBoard, NextCastling, NextEp;
    KingsAfter(c, mv);
    PawnsAfter(c, mv);
    CastlingAfter(c, mv);
    EpAfter(c, mv);
  }

  lemma NextNullSound(c: Core)
    requires Sound(c)
    ensures Sound(NextNull(c))
  {}
}
