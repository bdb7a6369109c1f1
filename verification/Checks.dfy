/**
 Which pieces attack which squares, and what a move does to the safety of the mover's king: it stays
 safe exactly when the move answers every check and keeps every pin.
*/
module Checks {
  import opened Wrappers
  import opened Chess
  import opened SlowAttacks
  import opened Moves
  import opened Lines

  // ---- Attacks ----

  ghost predicate Clear(board: Board, a: Square, b: Square) {
    forall u: Square :: Inside(a, b, u) ==> board[u].None?
  }

  predicate Leaps(p: Piece, a: Square, b: Square) {
    match p.kind
    case Pawn => PawnHits(p.color, a, b)
    case Knight => KnightJump(a, b)
    case King => KingStep(a, b)
    case _ => false
  }

  /** The piece moves along lines, and `b` is on one of them. */
  predicate Aims(kind: PieceKind, a: Square, b: Square) {
    || ((kind.Bishop? || kind.Queen?) && Lined(BishopSlider, a, b))
    || ((kind.Rook? || kind.Queen?) && Lined(RookSlider, a, b))
  }

  ghost predicate Hits(board: Board, p: Piece, a: Square, b: Square) {
    Leaps(p, a, b) || (Aims(p.kind, a, b) && Clear(board, a, b))
  }

  predicate Ours(board: Board, color: Color, a: Square) {
    board[a].Some? && board[a].value.color == color
  }

  ghost predicate Attacked(board: Board, side: Color, t: Square) {
    exists a: Square :: Ours(board, side, a) && Hits(board, board[a].value, a, t)
  }

  // ---- Checks and pins ----

  /** A piece other than the king gives check from `a`. */
  ghost predicate CheckedBy(board: Board, us: Color, k: Square, a: Square) {
    Ours(board, us.Flip(), a) && !board[a].value.kind.King? && Hits(board, board[a].value, a, k)
  }

  ghost predicate Checked(board: Board, us: Color, k: Square) {
    exists a: Square :: CheckedBy(board, us, k, a)
  }

  /** The piece on `f` is all that stands between the king and a slider on `a`. */
  ghost predicate Pins(board: Board, us: Color, k: Square, a: Square, f: Square) {
    && Ours(board, us.Flip(), a)
    && Aims(board[a].value.kind, a, k)
    && Inside(k, a, f)
    && Ours(board, us, f)
    && forall u: Square :: Inside(k, a, u) && u != f ==> board[u].None?
  }

  /** Moving to `t` captures every checker or stands in its way. */
  ghost predicate Resolves(board: Board, us: Color, k: Square, t: Square) {
    forall a: Square :: CheckedBy(board, us, k, a) ==> t == a || (Aims(board[a].value.kind, a, k) && Inside(k, a, t))
  }

  ghost predicate PinKept(board: Board, us: Color, k: Square, f: Square, t: Square) {
    forall a: Square :: Pins(board, us, k, a, f) ==> OnLine(k, a, t)
  }

  // ---- One piece moves from `f` to `t` ----

  ghost predicate Relocated(board: Board, after: Board, us: Color, k: Square, f: Square, t: Square) {
    && Ours(board, us, f) && Ours(board, us, k) && k != f && k != t && f != t
    && !Ours(board, us, t)
    && Ours(after, us, t)
    && after[f].None?
    && (forall u: Square :: u != f && u != t ==> after[u] == board[u])
    && Clear(board, f, t)
  }

  lemma ClearSymmetric(board: Board, a: Square, b: Square)
    ensures Clear(board, a, b) == Clear(board, b, a)
  {
    hide Inside;
    forall u: Square
      ensures Inside(a, b, u) == Inside(b, a, u)
    {
      LinesSymmetric(a, b, u);
    }
  }

  lemma LeapsOrAims(p: Piece, a: Square, b: Square)
    ensures !(Leaps(p, a, b) && Aims(p.kind, a, b))
  {}

  /** A check after the move is one it did not answer, or one from behind a pinned piece that left the line. */
  lemma CheckedAfter(board: Board, after: Board, us: Color, k: Square, f: Square, t: Square, a: Square)
    requires Relocated(board, after, us, k, f, t) && CheckedBy(after, us, k, a)
    ensures !(Resolves(board, us, k, t) && PinKept(board, us, k, f, t))
  {
    hide Inside, OnLine, Leaps, Aims;
    var p := board[a].value;
    assert after[a] == board[a];
    LeapsOrAims(p, a, k);
    ClearSymmetric(after, a, k);
    if Aims(p.kind, a, k) && Clear(after, k, a) {
      ClearSymmetric(board, a, k);
      assert !Inside(k, a, t);
      if Inside(k, a, f) {
        assert Pins(board, us, k, a, f);
        if OnLine(k, a, t) { LeavingSegment(k, a, f, t); }
      } else {
        assert Clear(board, k, a);
      }
    }
  }

  lemma AnsweredAndKept(board: Board, after: Board, us: Color, k: Square, f: Square, t: Square)
    requires Relocated(board, after, us, k, f, t) && !Checked(after, us, k)
    ensures Resolves(board, us, k, t) && PinKept(board, us, k, f, t)
  {
    hide Inside, OnLine, Leaps, Aims, Lined;
    forall a: Square | CheckedBy(board, us, k, a) && t != a
      ensures Aims(board[a].value.kind, a, k) && Inside(k, a, t)
    {
      assert after[a] == board[a];
      assert !CheckedBy(after, us, k, a);
      ClearSymmetric(board, a, k);
      ClearSymmetric(after, a, k);
    }
    forall a: Square | Pins(board, us, k, a, f)
      ensures OnLine(k, a, t)
    {
      EndOnLine(k, a, f);
      if t != a {
        assert after[a] == board[a];
        assert !CheckedBy(after, us, k, a);
        AimsIsNoKing(board[a].value.kind, a, k);
        ClearSymmetric(after, a, k);
        if Inside(k, a, t) { InsideOnLine(k, a, t); }
      }
    }
  }

  lemma AimsIsNoKing(kind: PieceKind, a: Square, b: Square)
    requires Aims(kind, a, b)
    ensures !kind.King?
  {}

  lemma InsideOnLine(k: Square, a: Square, t: Square)
    requires Inside(k, a, t)
    ensures OnLine(k, a, t)
  {}

  /** The king is safe after the move exactly when every check is answered and every pin kept. */
  lemma SafeByMasks(board: Board, after: Board, us: Color, k: Square, f: Square, t: Square)
    requires Relocated(board, after, us, k, f, t)
    ensures !Checked(after, us, k) <==> Resolves(board, us, k, t) && PinKept(board, us, k, f, t)
  {
    hide Resolves, PinKept, Relocated, CheckedBy;
    if a: Square :| CheckedBy(after, us, k, a) {
      CheckedAfter(board, after, us, k, f, t, a);
    } else {
      AnsweredAndKept(board, after, us, k, f, t);
    }
  }
}
