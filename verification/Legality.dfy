/**
 The moves move generation lets through, the moves the rules of chess allow, and when the two agree.
*/
module Legality {
  import opened Wrappers
  import opened Chess
  import opened Rules
  import opened Soundness
  import opened SlowAttacks
  import opened Moves
  import opened Lines
  import opened Checks
  import Bitboards
  import opened Words

  // ---- Squares of the kings ----

  /** The king of `color`, wherever it stands. */
  ghost function KingOf(board: Board, color: Color): Square
    requires OneKing(board, color)
  {
    var k: Square :| KingAt(board, color, k);
    k
  }

  lemma KingIs(board: Board, color: Color, k: Square)
    requires KingAt(board, color, k)
    ensures OneKing(board, color) && KingOf(board, color) == k
  {
    assert Holds(board, k, color, King);
  }

  lemma HasKings(c: Core, color: Color)
    requires Sound(c)
    ensures OneKing(c.board, color) && KingAt(c.board, color, KingOf(c.board, color))
  {
    assert color == White || color == Black;
  }

  // ---- What generation lets through ----

  /** The king passes over `Middle` on its way. */
  function Middle(mv: Move): Square
    requires mv.flag.IsCastle() && 2 <= mv.from < 63
  {
    if mv.flag.KingCastle? then mv.from + 1 else mv.from - 1
  }

  ghost predicate AtMostOneCheck(board: Board, us: Color, k: Square) {
    forall a: Square, b: Square :: CheckedBy(board, us, k, a) && CheckedBy(board, us, k, b) ==> a == b
  }

  ghost predicate SlidersBlocked(board: Board, us: Color, k: Square) {
    forall a: Square :: Ours(board, us.Flip(), a) && Aims(board[a].value.kind, a, k) ==> !Clear(board, k, a)
  }

  /**
   The tests of the generator: the king of a king move lands on no attacked square; a castling king
   leaves no check and crosses no attack; an en passant capture answers at most one check and opens no
   line; any other move leaves no check by a piece other than the enemy king.
   */
  ghost predicate Passes(c: Core, mv: Move)
    requires Sound(c)
  {
    && PseudoLegal(c, mv)
    && (HasKings(c, c.side);
        var k := KingOf(c.board, c.side);
        var them := c.side.Flip();
        if mv.flag.IsCastle() then
          && !Checked(c.board, c.side, k)
          && !Attacked(c.board[mv.from := None], them, mv.from)
          && !Attacked(c.board[mv.from := None], them, Middle(mv))
          && !Attacked(c.board[mv.from := None], them, mv.to)
        else if mv.flag.EnPassant? then
          AtMostOneCheck(c.board, c.side, k) && SlidersBlocked(NextBoard(c, mv), c.side, k)
        else if mv.from == k then !Attacked(NextBoard(c, mv), them, mv.to)
        else !Checked(NextBoard(c, mv), c.side, k))
  }

  // ---- The rules of chess ----

  /** A pseudo-legal move that leaves the mover's king unattacked; castling neither from nor through an attack. */
  ghost predicate Legal(c: Core, mv: Move)
    requires Sound(c)
  {
    && PseudoLegal(c, mv)
    && (HasKings(c, c.side);
        var k := KingOf(c.board, c.side);
        var them := c.side.Flip();
        && !Attacked(NextBoard(c, mv), them, if mv.from == k then mv.to else k)
        && (mv.flag.IsCastle() ==> !Attacked(c.board, them, mv.from) && !Attacked(c.board, them, Middle(mv))))
  }

  ghost predicate LeapCheck(board: Board, us: Color, k: Square, a: Square) {
    CheckedBy(board, us, k, a) && Leaps(board[a].value, a, k)
  }

  /** With an en passant target set, the only piece that may be checking by a leap is the pawn just pushed. */
  ghost predicate EpQuiet(c: Core)
    requires Sound(c)
  {
    HasKings(c, c.side);
    c.ep.Some? ==>
      forall a: Square :: LeapCheck(c.board, c.side, KingOf(c.board, c.side), a) ==> a == c.ep.value - Forward(c.side)
  }

  /** The side to move does not attack the idle king. */
  ghost predicate Guarded(c: Core) {
    Sound(c) && (HasKings(c, c.side.Flip()); !Attacked(c.board, c.side, KingOf(c.board, c.side.Flip())))
  }

  /** Neither is the idle king attacked, nor is there an en passant target no game could have left. */
  ghost predicate Fair(c: Core) {
    Guarded(c) && EpQuiet(c)
  }

  // ---- Reaching and hitting ----

  lemma SlidesAlongLines(board: Board, slider: Slider, a: Square, b: Square)
    ensures Slides(board, slider, a, b) <==> Lined(slider, a, b) && Clear(board, a, b)
  {
    hide Slides, Inside, Lined, Attacks;
    var occ := Occupied(board);
    forall s: Square
      ensures Bitboards.Contains(occ, s) <==> board[s].Some?
    {
      OccupiedContains(board, s);
    }
    SlidesAreAttacks(board, occ, slider, a, b);
    AttacksAlongLines(slider, a, b, occ);
  }

  /** What a pseudo-legal move captures on its target, the mover attacks. */
  lemma CaptureHits(c: Core, mv: Move)
    requires PseudoLegal(c, mv) && mv.flag.IsCapture()
    ensures Hits(c.board, c.board[mv.from].value, mv.from, mv.to)
  {
    SlidesAlongLines(c.board, BishopSlider, mv.from, mv.to);
    SlidesAlongLines(c.board, RookSlider, mv.from, mv.to);
    hide Slides, Clear, Lined, PawnHits, KnightJump, KingStep;
  }

  /** With the idle king unattacked no pseudo-legal move takes it. */
  lemma GuardedKeepsKing(c: Core, mv: Move)
    requires Guarded(c) && PseudoLegal(c, mv)
    ensures !TakesKing(c, mv)
  {
    hide Hits;
    HasKings(c, c.side.Flip());
    if mv.flag.IsCapture() {
      CaptureHits(c, mv);
      assert Ours(c.board, c.side, mv.from);
      assert Attacked(c.board, c.side, mv.to);
    }
  }

  // ---- Passing is legality, on fair positions ----

  /** Attacked is checked, or the enemy king stands next door. */
  lemma AttackedOrChecked(board: Board, us: Color, k: Square)
    ensures Attacked(board, us.Flip(), k) <==>
            Checked(board, us, k) || exists e: Square :: Holds(board, e, us.Flip(), King) && KingStep(e, k)
  {
    hide Clear, PawnHits, KnightJump, KingStep, Lined;
    if a: Square :| Ours(board, us.Flip(), a) && Hits(board, board[a].value, a, k) {
      assert board[a].value.kind.King? || CheckedBy(board, us, k, a);
    }
    if a: Square :| CheckedBy(board, us, k, a) {
      assert Ours(board, us.Flip(), a) && Hits(board, board[a].value, a, k);
    }
    if e: Square :| Holds(board, e, us.Flip(), King) && KingStep(e, k) {
      assert Ours(board, us.Flip(), e) && Hits(board, board[e].value, e, k);
    }
  }

  /** Then the kings are not neighbours either. */
  lemma KingsApart(c: Core, k: Square, e: Square)
    requires Guarded(c) && Holds(c.board, k, c.side, King) && Holds(c.board, e, c.side.Flip(), King)
    ensures !KingStep(k, e) && !KingStep(e, k)
  {
    hide Clear;
    HasKings(c, c.side.Flip());
    assert Ours(c.board, c.side, k);
    assert Hits(c.board, c.board[k].value, k, e) <==> KingStep(k, e);
    assert e == KingOf(c.board, c.side.Flip());
  }

  lemma GuardedParts(c: Core)
    requires Guarded(c)
    ensures Sound(c) && OneKing(c.board, c.side) && OneKing(c.board, c.side.Flip())
    ensures KingAt(c.board, c.side, KingOf(c.board, c.side))
    ensures KingAt(c.board, c.side.Flip(), KingOf(c.board, c.side.Flip()))
    ensures !Attacked(c.board, c.side, KingOf(c.board, c.side.Flip()))
  {
    HasKings(c, c.side);
    HasKings(c, c.side.Flip());
    hide Attacked;
  }

  /** For a king that stays, being attacked after a move is being checked, or being beside the enemy king. */
  lemma StayingKing(c: Core, mv: Move, k: Square, e: Square)
    requires Sound(c) && PseudoLegal(c, mv) && KingAt(c.board, c.side, k) && mv.from != k
    requires KingAt(c.board, c.side.Flip(), e)
    ensures Attacked(NextBoard(c, mv), c.side.Flip(), k) <==>
            Checked(NextBoard(c, mv), c.side, k) || (KingStep(e, k) && !TakesKing(c, mv))
  {
    hide Sound, Applicable, Reaches, NextBoard, KingStep, Attacked, Checked;
    AttackedOrChecked(NextBoard(c, mv), c.side, k);
    EnemyKingAfter(c, mv, e);
  }

  /** The enemy king stands where it stood, or nowhere. */
  lemma EnemyKingAfter(c: Core, mv: Move, e: Square)
    requires Sound(c) && Applicable(c, mv) && KingAt(c.board, c.side.Flip(), e)
    ensures forall s: Square :: Holds(NextBoard(c, mv), s, c.side.Flip(), King) <==> s == e && !TakesKing(c, mv)
  {
    assert Holds(c.board, e, c.side.Flip(), King);
    if TakesKing(c, mv) {
      KingGone(c, mv);
    } else {
      OtherKingAfter(c, mv, e);
    }
  }

  // ---- En passant ----

  /** A king a pushed pawn checks is not in line with the square that pawn passed over. */
  lemma PassedSquareOffLine(us: Color, cap: Square, to: Square, k: Square, b: Square)
    requires cap == to - Forward(us) && PawnHits(us.Flip(), cap, k)
    ensures !Inside(k, b, to)
  {
    RankBehind(us, cap, to);
    hide File, Rank;
  }

  lemma RankBehind(us: Color, behind: Square, s: Square)
    requires behind == s - Forward(us)
    ensures File(behind) == File(s) && Rank(behind) == Rank(s) - Forward(us) / 8
  {}

  /** The board after an en passant capture: two pawns gone from where they were, one on the target. */
  ghost predicate EpBoards(board: Board, after: Board, us: Color, f: Square, cap: Square, to: Square) {
    && Ours(board, us, f) && Holds(board, cap, us.Flip(), Pawn) && board[to].None?
    && Ours(after, us, to) && after[f].None? && after[cap].None?
    && forall u: Square :: u != f && u != cap && u != to ==> after[u] == board[u]
  }

  lemma EpBoardsAre(c: Core, mv: Move)
    requires Sound(c) && Applicable(c, mv) && mv.flag.EnPassant?
    ensures EpBoards(c.board, NextBoard(c, mv), c.side, mv.from, CaptureSquare(c, mv), mv.to)
    ensures CaptureSquare(c, mv) == mv.to - Forward(c.side)
  {
    NextBoardAt(c, mv);
    VictimIsEnemy(c, mv);
    hide Sound, NextBoard;
  }

  /** A slider that checks before and is blocked after is blocked on the target. */
  lemma BlockedOnTarget(board: Board, after: Board, us: Color, f: Square, cap: Square, to: Square, k: Square, a: Square)
    requires EpBoards(board, after, us, f, cap, to) && SlidersBlocked(after, us, k)
    requires CheckedBy(board, us, k, a) && Aims(board[a].value.kind, a, k)
    ensures Inside(k, a, to)
  {
    hide Inside, Lined;
    LeapsOrAims(board[a].value, a, k);
    ClearSymmetric(board, a, k);
    assert a != cap;
    assert after[a] == board[a];
    assert !Clear(after, k, a);
  }

  lemma EpOneCheck(board: Board, after: Board, us: Color, f: Square, cap: Square, to: Square, k: Square)
    requires EpBoards(board, after, us, f, cap, to) && SlidersBlocked(after, us, k) && cap == to - Forward(us)
    requires forall a: Square :: LeapCheck(board, us, k, a) ==> a == cap
    ensures AtMostOneCheck(board, us, k)
  {
    hide Inside, Lined, EpBoards, SlidersBlocked, PawnHits, KnightJump, KingStep;
    forall a: Square, b: Square | CheckedBy(board, us, k, a) && CheckedBy(board, us, k, b)
      ensures a == b
    {
      var slidesA := Aims(board[a].value.kind, a, k);
      var slidesB := Aims(board[b].value.kind, b, k);
      if slidesA { BlockedOnTarget(board, after, us, f, cap, to, k, a); } else { assert LeapCheck(board, us, k, a); }
      if slidesB { BlockedOnTarget(board, after, us, f, cap, to, k, b); } else { assert LeapCheck(board, us, k, b); }
      if slidesA && slidesB && a != b {
        NearerInside(k, a, b, to);
        LeapsOrAims(board[a].value, a, k);
        LeapsOrAims(board[b].value, b, k);
        ClearSymmetric(board, a, k);
        ClearSymmetric(board, b, k);
      }
      if slidesA != slidesB {
        PawnChecks(board, after, us, f, cap, to, k);
        PassedSquareOffLine(us, cap, to, k, if slidesA then a else b);
      }
    }
  }

  lemma PawnChecks(board: Board, after: Board, us: Color, f: Square, cap: Square, to: Square, k: Square)
    requires EpBoards(board, after, us, f, cap, to) && LeapCheck(board, us, k, cap)
    ensures PawnHits(us.Flip(), cap, k)
  {}

  /** The predicate a caller can check: no piece but the captured pawn gives check by a leap. */
  ghost predicate OnlyLeap(board: Board, us: Color, k: Square, cap: Square) {
    forall a: Square :: LeapCheck(board, us, k, a) ==> a == cap
  }

  lemma EpOpensNothing(board: Board, after: Board, us: Color, f: Square, cap: Square, to: Square, k: Square)
    requires EpBoards(board, after, us, f, cap, to) && !Checked(after, us, k)
    ensures SlidersBlocked(after, us, k) && OnlyLeap(board, us, k, cap)
  {
    hide Inside, Lined, PawnHits, KnightJump, KingStep;
    forall a: Square | Ours(after, us.Flip(), a) && Aims(after[a].value.kind, a, k)
      ensures !Clear(after, k, a)
    {
      ClearSymmetric(after, a, k);
      AimsIsNoKing(after[a].value.kind, a, k);
      assert !CheckedBy(after, us, k, a);
    }
    LeapsStay(board, after, us, f, cap, to, k);
  }

  lemma LeapsStay(board: Board, after: Board, us: Color, f: Square, cap: Square, to: Square, k: Square)
    requires EpBoards(board, after, us, f, cap, to)
    ensures forall a: Square :: LeapCheck(board, us, k, a) && a != cap ==> CheckedBy(after, us, k, a)
  {
    hide Inside, Lined, PawnHits, KnightJump, KingStep;
    forall a: Square | LeapCheck(board, us, k, a) && a != cap
      ensures CheckedBy(after, us, k, a)
    {
      assert after[a] == board[a];
    }
  }

  /** After an en passant capture the king is safe exactly when generation's tests hold and no other leaper checks. */
  lemma EpSafe(board: Board, after: Board, us: Color, f: Square, cap: Square, to: Square, k: Square)
    requires EpBoards(board, after, us, f, cap, to) && cap == to - Forward(us)
    ensures !Checked(after, us, k) <==>
            AtMostOneCheck(board, us, k) && SlidersBlocked(after, us, k) && OnlyLeap(board, us, k, cap)
  {
    hide Inside, Lined, AtMostOneCheck, PawnHits, KnightJump, KingStep;
    if !Checked(after, us, k) {
      EpOpensNothing(board, after, us, f, cap, to, k);
      EpOneCheck(board, after, us, f, cap, to, k);
    }
    if SlidersBlocked(after, us, k) && OnlyLeap(board, us, k, cap) {
      forall a: Square
        ensures !CheckedBy(after, us, k, a)
      {
        ClearSymmetric(after, a, k);
        assert Ours(after, us.Flip(), a) ==> after[a] == board[a] && a != cap;
        assert Ours(after, us.Flip(), a) && Aims(after[a].value.kind, a, k) ==> !Clear(after, a, k);
        assert LeapCheck(board, us, k, a) ==> a == cap;
      }
    }
  }

  // ---- Castling ----

  /** A slider that reaches past the king once it is lifted attacks the king where it stands. */
  lemma PastTheKing(board: Board, them: Color, k: Square, a: Square, s: Square)
    requires Ours(board, them, a) && Aims(board[a].value.kind, a, s) && Inside(a, s, k)
    requires Clear(board[k := None], a, s)
    ensures Attacked(board, them, k)
  {
    hide Inside, Lined;
    var kind := board[a].value.kind;
    if kind.Bishop? || kind.Queen? {
      if Lined(BishopSlider, a, s) { LinedToMiddle(BishopSlider, a, s, k); }
    }
    if kind.Rook? || kind.Queen? {
      if Lined(RookSlider, a, s) { LinedToMiddle(RookSlider, a, s, k); }
    }
    forall u: Square | Inside(a, k, u)
      ensures board[u].None?
    {
      NotInsideItself(a, k);
      Nested(a, s, k, u);
    }
    assert Hits(board, board[a].value, a, k);
  }

  /** Lifting a king that is not attacked opens no attack. */
  lemma LiftedKing(board: Board, them: Color, k: Square, s: Square)
    requires Ours(board, them.Flip(), k)
    requires s == k || !Attacked(board, them, k)
    ensures Attacked(board[k := None], them, s) <==> Attacked(board, them, s)
  {
    hide Inside, Lined, Leaps, Aims;
    var bare := board[k := None];
    NotInsideEither(s);
    if a: Square :| Ours(bare, them, a) && Hits(bare, bare[a].value, a, s) {
      if Aims(board[a].value.kind, a, s) && Clear(bare, a, s) && Inside(a, s, k) {
        PastTheKing(board, them, k, a, s);
      }
      assert Hits(board, board[a].value, a, s);
    }
    if a: Square :| Ours(board, them, a) && Hits(board, board[a].value, a, s) {
      assert Ours(bare, them, a) && Hits(bare, bare[a].value, a, s);
    }
  }

  lemma NotInsideEither(s: Square)
    ensures forall a: Square :: !Inside(a, s, s)
  {}

  /** King and rook after castling. */
  ghost predicate CastleBoards(board: Board, after: Board, us: Color, flag: MoveFlag, k: Square, to: Square)
    requires flag.IsCastle()
  {
    var (rookFrom, rookTo) := CastleRookSquares(us, flag);
    && Ours(board, us, k) && Ours(board, us, rookFrom) && board[to].None? && board[rookTo].None?
    && k == KingHome(us) && to == (if flag.KingCastle? then k + 2 else k - 2)
    && after[k].None? && after[rookFrom].None? && Ours(after, us, to) && Ours(after, us, rookTo)
    && forall u: Square :: u != k && u != rookFrom && u != to && u != rookTo ==> after[u] == board[u]
  }

  lemma CastleBoardsAre(c: Core, mv: Move)
    requires Sound(c) && Applicable(c, mv) && mv.flag.IsCastle()
    ensures CastleBoards(c.board, NextBoard(c, mv), c.side, mv.flag, mv.from, mv.to)
  {
    NextBoardAt(c, mv);
    CastlingFacts(c, mv);
    hide Sound, NextBoard;
  }

  /** Nothing attacks along the rank from beyond the corner, nor past the rook without passing the king's home. */
  lemma CastleGeometry(us: Color, flag: MoveFlag, to: Square, a: Square)
    requires flag.IsCastle() && to == (if flag.KingCastle? then KingHome(us) + 2 else KingHome(us) - 2)
    ensures !Inside(a, to, CastleRookSquares(us, flag).0)
    ensures Inside(a, to, CastleRookSquares(us, flag).1) ==> a == KingHome(us) || Inside(a, to, KingHome(us))
  {}

  lemma CastledKing(board: Board, after: Board, us: Color, flag: MoveFlag, k: Square, to: Square)
    requires flag.IsCastle() && CastleBoards(board, after, us, flag, k, to)
    requires !Attacked(board, us.Flip(), k)
    ensures Attacked(after, us.Flip(), to) <==> Attacked(board[k := None], us.Flip(), to)
  {
    hide Inside, Lined, Leaps, Aims;
    var bare := board[k := None];
    var them := us.Flip();
    NotInsideEither(to);
    if a: Square :| Ours(after, them, a) && Hits(after, after[a].value, a, to) {
      CastleGeometry(us, flag, to, a);
      assert bare[a] == after[a];
      assert Clear(after, a, to) ==> Clear(bare, a, to);
      assert Ours(bare, them, a) && Hits(bare, bare[a].value, a, to);
    }
    if a: Square :| Ours(bare, them, a) && Hits(bare, bare[a].value, a, to) {
      CastleGeometry(us, flag, to, a);
      assert bare[a] == after[a] == board[a];
      if Aims(bare[a].value.kind, a, to) && Clear(bare, a, to) && Inside(a, to, k) {
        PastTheKing(board, them, k, a, to);
      }
      assert Ours(after, them, a) && Hits(after, after[a].value, a, to);
    }
  }

  /** For castling, generation's tests are the rules. */
  lemma CastleLegal(c: Core, mv: Move)
    requires Sound(c) && PseudoLegal(c, mv) && mv.flag.IsCastle()
    ensures Passes(c, mv) <==> Legal(c, mv)
  {
    CastleBoardsAre(c, mv);
    HasKings(c, c.side);
    CastlingFacts(c, mv);
    assert mv.from == KingOf(c.board, c.side);
    hide Sound, Applicable, Reaches, NextBoard, Attacked, Checked;
    var them := c.side.Flip();
    LiftedKing(c.board, them, mv.from, mv.from);
    AttackedOrChecked(c.board, c.side, mv.from);
    if !Attacked(c.board, them, mv.from) {
      LiftedKing(c.board, them, mv.from, Middle(mv));
      LiftedKing(c.board, them, mv.from, mv.to);
      CastledKing(c.board, NextBoard(c, mv), c.side, mv.flag, mv.from, mv.to);
    }
  }

  // ---- When the two agree ----

  /** The king stays beside the enemy king, which the move does not take. */
  ghost predicate KingsTouch(c: Core, mv: Move)
    requires Sound(c)
  {
    HasKings(c, c.side);
    HasKings(c, c.side.Flip());
    var k := KingOf(c.board, c.side);
    mv.from != k && KingStep(KingOf(c.board, c.side.Flip()), k) && !TakesKing(c, mv)
  }

  lemma EpLegal(c: Core, mv: Move)
    requires Sound(c) && PseudoLegal(c, mv) && mv.flag.EnPassant?
    ensures OneKing(c.board, c.side)
    ensures Legal(c, mv) <==>
            && Passes(c, mv)
            && OnlyLeap(c.board, c.side, KingOf(c.board, c.side), CaptureSquare(c, mv))
            && !KingsTouch(c, mv)
  {
    HasKings(c, c.side);
    HasKings(c, c.side.Flip());
    EpBoardsAre(c, mv);
    var k := KingOf(c.board, c.side);
    assert mv.from != k by {
      assert Holds(c.board, k, c.side, King);
    }
    StayingKing(c, mv, k, KingOf(c.board, c.side.Flip()));
    hide Sound, Applicable, Reaches, NextBoard, Attacked, Checked, AtMostOneCheck, SlidersBlocked, OnlyLeap, EpBoards;
    EpSafe(c.board, NextBoard(c, mv), c.side, mv.from, CaptureSquare(c, mv), mv.to, k);
  }

  /**
   On every sound position: the legal moves are those the generator lets through, less the en passant
   captures that leave a check by a leaper other than the captured pawn, and less the moves that leave
   the kings side by side.
   */
  lemma PassesExactly(c: Core, mv: Move)
    requires Sound(c)
    ensures OneKing(c.board, c.side)
    ensures Legal(c, mv) <==>
            && Passes(c, mv)
            && (mv.flag.EnPassant? ==> OnlyLeap(c.board, c.side, KingOf(c.board, c.side), mv.to - Forward(c.side)))
            && !KingsTouch(c, mv)
  {
    HasKings(c, c.side);
    HasKings(c, c.side.Flip());
    hide Sound, Applicable, Reaches, NextBoard, Attacked, Checked, AtMostOneCheck, SlidersBlocked, OnlyLeap;
    if PseudoLegal(c, mv) {
      if mv.flag.IsCastle() {
        CastleLegal(c, mv);
        CastlerIsKing(c, mv);
      } else if mv.flag.EnPassant? {
        EpBoardsAre(c, mv);
        EpLegal(c, mv);
      } else if mv.from != KingOf(c.board, c.side) {
        StayingKing(c, mv, KingOf(c.board, c.side), KingOf(c.board, c.side.Flip()));
      }
    }
  }

  lemma CastlerIsKing(c: Core, mv: Move)
    requires Sound(c) && PseudoLegal(c, mv) && mv.flag.IsCastle()
    ensures OneKing(c.board, c.side) && mv.from == KingOf(c.board, c.side)
  {
    HasKings(c, c.side);
    CastlingFacts(c, mv);
  }

  lemma EpTargetIs(c: Core, mv: Move)
    requires PseudoLegal(c, mv) && mv.flag.EnPassant?
    ensures c.ep == Some(mv.to)
  {}

  /** On fair positions the generator lets through exactly the legal moves. */
  lemma PassesIsLegal(c: Core, mv: Move)
    requires Fair(c)
    ensures Passes(c, mv) <==> Legal(c, mv)
  {
    GuardedParts(c);
    PassesExactly(c, mv);
    KingsApart(c, KingOf(c.board, c.side), KingOf(c.board, c.side.Flip()));
    hide Sound, PseudoLegal, NextBoard, Attacked, Checked, AtMostOneCheck, SlidersBlocked, LeapCheck, Guarded, KingStep;
    if PseudoLegal(c, mv) && mv.flag.EnPassant? { EpTargetIs(c, mv); }
  }

  // ---- Legal play stays fair ----

  lemma KingAfter(c: Core, mv: Move)
    requires Sound(c) && PseudoLegal(c, mv)
    ensures OneKing(c.board, c.side)
    ensures var k := KingOf(c.board, c.side);
            KingAt(NextBoard(c, mv), c.side, if mv.from == k then mv.to else k)
  {
    HasKings(c, c.side);
    MoverKingAfter(c, mv, KingOf(c.board, c.side));
  }

  lemma LeapsWereThere(c: Core, mv: Move, k: Square)
    requires Sound(c) && Applicable(c, mv) && mv.flag.DoublePush?
    ensures forall a: Square :: LeapCheck(NextBoard(c, mv), c.side.Flip(), k, a) && a != mv.to ==> Attacked(c.board, c.side, k)
  {
    NextBoardAt(c, mv);
    hide Sound, NextBoard, Inside, Lined;
    forall a: Square | LeapCheck(NextBoard(c, mv), c.side.Flip(), k, a) && a != mv.to
      ensures Attacked(c.board, c.side, k)
    {
      assert Ours(c.board, c.side, a) && Hits(c.board, c.board[a].value, a, k);
    }
  }

  /** A target left by a double push finds no leaper checking but the pushed pawn: the others were there before. */
  lemma NextEpQuiet(c: Core, mv: Move)
    requires Guarded(c) && PseudoLegal(c, mv) && Sound(Next(c, mv))
    ensures EpQuiet(Next(c, mv))
  {
    var d := Next(c, mv);
    if d.ep.Some? {
      GuardedParts(c);
      var k := KingOf(c.board, d.side);
      GuardedKeepsKing(c, mv);
      OtherKingAfter(c, mv, k);
      KingIs(d.board, d.side, k);
      NextBoardAt(c, mv);
      hide Sound, Applicable, Reaches, NextBoard, LeapCheck, Attacked;
      LeapsWereThere(c, mv, k);
    }
  }

  /** Legal moves lead from fair positions to fair positions. */
  lemma StaysFair(c: Core, mv: Move)
    requires Fair(c) && Legal(c, mv)
    ensures Fair(Next(c, mv)) && !TakesKing(c, mv)
  {
    GuardedKeepsKing(c, mv);
    NextSound(c, mv);
    NextEpQuiet(c, mv);
    KingAfter(c, mv);
    var k := KingOf(c.board, c.side);
    KingIs(NextBoard(c, mv), c.side, if mv.from == k then mv.to else k);
    hide Sound, Applicable, Reaches, NextBoard, Attacked, EpQuiet;
  }
}
