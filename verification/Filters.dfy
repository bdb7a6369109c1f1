/** The masks, applied to one candidate move, decide whether it passes. */
module Filters {
  import opened Wrappers
  import opened Chess
  import opened Bitboards
  import opened Rules
  import opened Soundness
  import opened SlowAttacks
  import opened Moves
  import opened Lines
  import opened Checks
  import opened Legality
  import opened Generation
  import opened Masks

  // ---- Moves of pieces other than the king ----

  predicate Ordinary(mv: Move) {
    !mv.flag.IsCastle() && !mv.flag.EnPassant?
  }

  lemma PawnStepClear(board: Board, a: Square, b: Square)
    requires Distance(File(a), File(b)) <= 1 && Distance(Rank(a), Rank(b)) <= 1
    ensures Clear(board, a, b)
  {
    hide File, Rank;
  }

  lemma KnightClear(board: Board, a: Square, b: Square)
    requires KnightJump(a, b)
    ensures Clear(board, a, b)
  {
    hide File, Rank;
  }

  lemma DoubleStepClear(board: Board, a: Square, b: Square, middle: Square)
    requires File(a) == File(b) == File(middle) && Amid(Rank(a), Rank(b), Rank(middle)) && Distance(Rank(a), Rank(b)) == 2
    requires board[middle].None?
    ensures Clear(board, a, b)
  {
    forall u: Square | Inside(a, b, u)
      ensures u == middle
    {
      SameSquareIf(u, middle);
      hide File, Rank;
    }
  }

  lemma SameSquareIf(a: Square, b: Square)
    ensures File(a) == File(b) && Rank(a) == Rank(b) ==> a == b
  {}

  /** Coordinates of the pawn moves. */
  lemma PawnCoordinates(c: Core, mv: Move)
    requires Sound(c) && PseudoLegal(c, mv) && Ordinary(mv) && PawnOn(c, mv.from)
    ensures mv.flag.DoublePush? ==>
              var middle := mv.from + Forward(c.side);
              && 0 <= middle < 64 && c.board[middle].None?
              && File(mv.from) == File(mv.to) == File(middle)
              && Amid(Rank(mv.from), Rank(mv.to), Rank(middle)) && Distance(Rank(mv.from), Rank(mv.to)) == 2
    ensures !mv.flag.DoublePush? ==>
              Distance(File(mv.from), File(mv.to)) <= 1 && Distance(Rank(mv.from), Rank(mv.to)) <= 1
  {
    PawnTargets(c, mv);
    hide Sound;
  }

  /** No ordinary move of a piece other than the king jumps over anything, knights apart. */
  lemma PathClear(c: Core, mv: Move)
    requires Sound(c) && PseudoLegal(c, mv) && Ordinary(mv) && !Holds(c.board, mv.from, c.side, King)
    ensures Clear(c.board, mv.from, mv.to)
  {
    FlagKinds(c, mv);
    var p := c.board[mv.from].value;
    assert p == Piece(p.color, p.kind);
    if p.kind.Pawn? {
      PawnCoordinates(c, mv);
      if mv.flag.DoublePush? {
        DoubleStepClear(c.board, mv.from, mv.to, mv.from + Forward(c.side));
      } else {
        PawnStepClear(c.board, mv.from, mv.to);
      }
    } else {
      OfficerClear(c, mv);
    }
  }

  lemma OfficerClear(c: Core, mv: Move)
    requires PseudoLegal(c, mv) && (mv.flag.Quiet? || mv.flag.Capture?)
    requires !c.board[mv.from].value.kind.Pawn? && !c.board[mv.from].value.kind.King?
    ensures Clear(c.board, mv.from, mv.to)
  {
    assert c.board[mv.from].Some?;
    hide Applicable, Slides, Clear, Lined, KnightJump;
    if KnightJump(mv.from, mv.to) { KnightClear(c.board, mv.from, mv.to); }
    SlidesAlongLines(c.board, BishopSlider, mv.from, mv.to);
    SlidesAlongLines(c.board, RookSlider, mv.from, mv.to);
  }

  /** An ordinary move takes one piece from one square to another, past nothing. */
  lemma Relocates(c: Core, mv: Move, k: Square)
    requires Sound(c) && PseudoLegal(c, mv) && Ordinary(mv) && KingAt(c.board, c.side, k) && mv.from != k
    ensures Relocated(c.board, NextBoard(c, mv), c.side, k, mv.from, mv.to)
  {
    assert Holds(c.board, k, c.side, King);
    PathClear(c, mv);
    OrdinaryCells(c, mv);
    hide Sound, Applicable, Reaches, NextBoard, Clear;
  }

  lemma OrdinaryCells(c: Core, mv: Move)
    requires Sound(c) && Applicable(c, mv) && Ordinary(mv)
    ensures Ours(c.board, c.side, mv.from) && !Ours(c.board, c.side, mv.to) && mv.from != mv.to
    ensures Ours(NextBoard(c, mv), c.side, mv.to) && NextBoard(c, mv)[mv.from].None?
    ensures forall u: Square :: u != mv.from && u != mv.to ==> NextBoard(c, mv)[u] == c.board[u]
  {
    NextBoardAt(c, mv);
    if mv.flag.IsCapture() { VictimIsEnemy(c, mv); }
    LandedKing(c, mv);
    hide Sound, NextBoard;
  }

  /** An ordinary move of a piece other than the king passes when it answers the checks and keeps the pins. */
  lemma OrdinaryPasses(c: Core, mv: Move, k: Square)
    requires Sound(c) && PseudoLegal(c, mv) && Ordinary(mv) && KingAt(c.board, c.side, k) && mv.from != k
    ensures Passes(c, mv) <==> Resolves(c.board, c.side, k, mv.to) && PinKept(c.board, c.side, k, mv.from, mv.to)
  {
    KingIs(c.board, c.side, k);
    Relocates(c, mv, k);
    hide Sound, PseudoLegal, NextBoard, Resolves, PinKept, Checked, Relocated, Attacked;
    SafeByMasks(c.board, NextBoard(c, mv), c.side, k, mv.from, mv.to);
  }

  /** What the masks say of a target. */
  predicate Admits(info: MaskInfo, from: Square, to: Square)
    requires |info.pinRays| == 64
  {
    && (Contains(info.captureMask, to) || Contains(info.pushMask, to))
    && (Contains(info.pinned, from) ==> Contains(info.pinRays[from], to))
  }

  lemma RaysAre64(info: MaskInfo, board: Board, us: Color, k: Square)
    requires Right(info, board, us, k)
    ensures |info.pinRays| == 64
  {}

  lemma MasksDecide(info: MaskInfo, board: Board, us: Color, k: Square, f: Square, t: Square)
    requires Right(info, board, us, k) && !Ours(board, us, t)
    ensures |info.pinRays| == 64
    ensures Admits(info, f, t) <==> Resolves(board, us, k, t) && PinKept(board, us, k, f, t)
    ensures board[t].None? ==> !Contains(info.captureMask, t)
    ensures board[t].Some? ==> !Contains(info.pushMask, t)
  {
    hide Contains, Resolves, Pins, OnLine, CheckedBy, Attacked;
    assert board[t].None? || Ours(board, us.Flip(), t);
    if Contains(info.pinned, f) {
      var a: Square :| Pins(board, us, k, a, f);
      assert IsLine(info.pinRays[f], k, a);
      forall b: Square | Pins(board, us, k, b, f)
        ensures OnLine(k, b, t) <==> Contains(info.pinRays[f], t)
      {
        assert IsLine(info.pinRays[f], k, b);
      }
    }
  }

  lemma OrdinaryAdmits(c: Core, info: MaskInfo, mv: Move, k: Square)
    requires Sound(c) && PseudoLegal(c, mv) && Ordinary(mv) && KingAt(c.board, c.side, k) && mv.from != k
    requires Right(info, c.board, c.side, k)
    ensures |info.pinRays| == 64
    ensures Passes(c, mv) <==> Admits(info, mv.from, mv.to)
    ensures c.board[mv.to].None? ==> !Contains(info.captureMask, mv.to)
    ensures c.board[mv.to].Some? ==> !Contains(info.pushMask, mv.to)
  {
    OrdinaryCells(c, mv);
    hide Sound, Applicable, Reaches, Passes, Right, Admits, Resolves, PinKept, KingAt, NextBoard;
    OrdinaryPasses(c, mv, k);
    MasksDecide(info, c.board, c.side, k, mv.from, mv.to);
  }

  lemma PlainIs(c: Core, from: Square, to: Square)
    ensures Plain(c, from, to).from == from && Plain(c, from, to).to == to && Ordinary(Plain(c, from, to))
  {}

  /** Candidates of knights, bishops, rooks and queens. */
  lemma OfficerPasses(c: Core, info: MaskInfo, k: Square, from: Square, to: Square)
    requires Sound(c) && KingAt(c.board, c.side, k) && Right(info, c.board, c.side, k)
    requires Ours(c.board, c.side, from) && !c.board[from].value.kind.Pawn? && !c.board[from].value.kind.King?
    ensures |info.pinRays| == 64
    ensures Passes(c, Plain(c, from, to)) <==>
            && PieceReaches(c, Plain(c, from, to), c.board[from].value.kind)
            && !Ours(c.board, c.side, to) && Admits(info, from, to)
  {
    RaysAre64(info, c.board, c.side, k);
    assert Holds(c.board, k, c.side, King) && from != k;
    PlainPseudoLegal(c, from, to);
    PlainIs(c, from, to);
    PassesIsPseudoLegal(c, Plain(c, from, to));
    hide Sound, Passes, PseudoLegal, PieceReaches, KingAt, Right, Admits, Plain, Ordinary, Ours;
    if PseudoLegal(c, Plain(c, from, to)) {
      OrdinaryAdmits(c, info, Plain(c, from, to), k);
    }
  }

  lemma PassesIsPseudoLegal(c: Core, mv: Move)
    requires Sound(c)
    ensures Passes(c, mv) ==> PseudoLegal(c, mv)
  {}

  lemma PlainPseudoLegal(c: Core, from: Square, to: Square)
    requires Ours(c.board, c.side, from) && !c.board[from].value.kind.Pawn?
    ensures PseudoLegal(c, Plain(c, from, to)) <==>
            PieceReaches(c, Plain(c, from, to), c.board[from].value.kind) && !Ours(c.board, c.side, to)
  {
    assert c.board[to].Some? ==> c.board[to].value.color == c.side || c.board[to].value.color == c.side.Flip();
  }

  // ---- King moves ----

  /** The attacks on the square a king steps to are those on the board from which it has been lifted. */
  lemma SteppedKing(board: Board, after: Board, us: Color, k: Square, to: Square)
    requires Ours(board, us, k) && !Ours(board, us, to) && k != to
    requires Ours(after, us, to) && after[k].None?
    requires forall u: Square :: u != k && u != to ==> after[u] == board[u]
    ensures Attacked(after, us.Flip(), to) <==> Attacked(board[k := None], us.Flip(), to)
  {
    hide Inside, Lined, PawnHits, KnightJump, KingStep;
    var bare := board[k := None];
    var them := us.Flip();
    NothingHitsItself(to);
    NotInsideEither(to);
    if a: Square :| Ours(after, them, a) && Hits(after, after[a].value, a, to) {
      assert bare[a] == after[a];
      assert Clear(after, a, to) ==> Clear(bare, a, to);
      assert Ours(bare, them, a) && Hits(bare, bare[a].value, a, to);
    }
    if a: Square :| Ours(bare, them, a) && Hits(bare, bare[a].value, a, to) {
      assert a != to;
      assert bare[a] == after[a];
      assert Clear(bare, a, to) ==> Clear(after, a, to);
      assert Ours(after, them, a) && Hits(after, after[a].value, a, to);
    }
  }

  lemma NothingHitsItself(s: Square)
    ensures !PawnHits(White, s, s) && !PawnHits(Black, s, s) && !KnightJump(s, s) && !KingStep(s, s)
    ensures !Lined(RookSlider, s, s) && !Lined(BishopSlider, s, s)
  {}

  /** A king steps where the other side does not attack the board from which the king has been lifted. */
  lemma KingSteps(c: Core, k: Square, to: Square)
    requires Sound(c) && KingAt(c.board, c.side, k)
    ensures Passes(c, Plain(c, k, to)) <==>
            KingStep(k, to) && !Ours(c.board, c.side, to) && !Attacked(c.board[k := None], c.side.Flip(), to)
  {
    assert Holds(c.board, k, c.side, King);
    KingIs(c.board, c.side, k);
    PlainPseudoLegal(c, k, to);
    PlainIs(c, k, to);
    var mv := Plain(c, k, to);
    hide Sound, PseudoLegal, KingStep, KingAt, Attacked, Checked, NextBoard, Plain, AtMostOneCheck, SlidersBlocked;
    if PseudoLegal(c, mv) {
      IsApplicable(c, mv);
      OrdinaryCells(c, mv);
      SteppedKing(c.board, NextBoard(c, mv), c.side, k, to);
    }
  }

  lemma KingPasses(c: Core, info: MaskInfo, k: Square, to: Square)
    requires Sound(c) && KingAt(c.board, c.side, k) && Right(info, c.board, c.side, k)
    ensures Passes(c, Plain(c, k, to)) <==> KingStep(k, to) && !Ours(c.board, c.side, to) && !Contains(info.danger, to)
  {
    hide Sound, Passes, KingStep, KingAt, Right, Attacked, Plain;
    KingSteps(c, k, to);
    DangerIs(info, c.board, c.side, k, to);
  }

  lemma IsApplicable(c: Core, mv: Move)
    requires PseudoLegal(c, mv)
    ensures Applicable(c, mv)
  {}

  lemma DangerIs(info: MaskInfo, board: Board, us: Color, k: Square, s: Square)
    requires Right(info, board, us, k)
    ensures Contains(info.danger, s) <==> Attacked(board[k := None], us.Flip(), s)
  {
    hide Contains, Attacked, Answers, PinsKnown, CheckedBy;
  }

  // ---- Pawn moves ----

  predicate PinAllows(info: MaskInfo, from: Square, to: Square)
    requires |info.pinRays| == 64
  {
    Contains(info.pinned, from) ==> Contains(info.pinRays[from], to)
  }

  lemma NotTheKing(c: Core, k: Square, from: Square)
    requires KingAt(c.board, c.side, k) && PawnOn(c, from)
    ensures from != k
  {
    assert Holds(c.board, k, c.side, King);
  }

  lemma PawnRank(c: Core, from: Square)
    requires Sound(c) && PawnOn(c, from)
    ensures 1 <= Rank(from) <= 6
  {}

  predicate IsPromotion(flag: MoveFlag) {
    flag.KnightPromo? || flag.BishopPromo? || flag.RookPromo? || flag.QueenPromo?
  }

  /** For a pawn move the masks split by whether the target is occupied. */
  lemma PawnAdmits(c: Core, info: MaskInfo, k: Square, mv: Move)
    requires Sound(c) && KingAt(c.board, c.side, k) && Right(info, c.board, c.side, k)
    requires PawnOn(c, mv.from) && Ordinary(mv)
    ensures |info.pinRays| == 64
    ensures Passes(c, mv) <==>
            PseudoLegal(c, mv) && PinAllows(info, mv.from, mv.to)
            && if c.board[mv.to].None? then Contains(info.pushMask, mv.to) else Contains(info.captureMask, mv.to)
  {
    NotTheKing(c, k, mv.from);
    hide Sound, Passes, PseudoLegal, KingAt, Right, PawnOn, Ordinary;
    RaysAre64(info, c.board, c.side, k);
    PassesIsPseudoLegal(c, mv);
    if PseudoLegal(c, mv) {
      OrdinaryAdmits(c, info, mv, k);
    }
  }

  /** A push by one square, promoting on the last rank. */
  lemma PushPasses(c: Core, info: MaskInfo, k: Square, from: Square, flag: MoveFlag)
    requires Sound(c) && KingAt(c.board, c.side, k) && Right(info, c.board, c.side, k)
    requires PawnOn(c, from) && 0 <= from + Forward(c.side) < 64
    requires if Rank(from + Forward(c.side)) == LastRank(c.side) then IsPromotion(flag) else flag.Quiet?
    ensures |info.pinRays| == 64
    ensures var to: Square := from + Forward(c.side);
            Passes(c, Move(from, to, flag)) <==>
            c.board[to].None? && Contains(info.pushMask, to) && PinAllows(info, from, to)
  {
    PawnRank(c, from);
    var to: Square := from + Forward(c.side);
    PushPseudoLegal(c, from, flag);
    PawnAdmits(c, info, k, Move(from, to, flag));
    hide Sound, Passes, PseudoLegal, KingAt, Right, PawnOn, IsPromotion;
  }

  lemma PushPseudoLegal(c: Core, from: Square, flag: MoveFlag)
    requires PawnOn(c, from) && 0 <= from + Forward(c.side) < 64 && 1 <= Rank(from) <= 6
    requires if Rank(from + Forward(c.side)) == LastRank(c.side) then IsPromotion(flag) else flag.Quiet?
    ensures PseudoLegal(c, Move(from, from + Forward(c.side), flag)) <==> c.board[from + Forward(c.side)].None?
  {}

  lemma DoublePasses(c: Core, info: MaskInfo, k: Square, from: Square)
    requires Sound(c) && KingAt(c.board, c.side, k) && Right(info, c.board, c.side, k)
    requires PawnOn(c, from) && Rank(from) == PawnHome(c.side)
    ensures |info.pinRays| == 64 && 0 <= from + 2 * Forward(c.side) < 64
    ensures var to: Square := from + 2 * Forward(c.side);
            Passes(c, Move(from, to, DoublePush)) <==>
            c.board[from + Forward(c.side)].None? && Contains(info.pushMask, to) && PinAllows(info, from, to)
  {
    DoubleRoom(c, from);
    DoublePseudoLegal(c, from);
    hide *;
    DoubleAdmits(c, info, k, Move(from, from + 2 * Forward(c.side), DoublePush));
  }

  lemma DoubleAdmits(c: Core, info: MaskInfo, k: Square, mv: Move)
    requires Sound(c) && KingAt(c.board, c.side, k) && Right(info, c.board, c.side, k)
    requires PawnOn(c, mv.from) && mv.flag.DoublePush?
    ensures |info.pinRays| == 64
    ensures Passes(c, mv) <==> PseudoLegal(c, mv) && Contains(info.pushMask, mv.to) && PinAllows(info, mv.from, mv.to)
  {
    DoubleIsQuiet(c, mv);
    hide Sound, Passes, PseudoLegal, KingAt, Right, PawnOn, Contains, PinAllows;
    RaysAre64(info, c.board, c.side, k);
    PushIsFree(info, c.board, c.side, k, mv.to);
    PawnAdmits(c, info, k, mv);
  }

  lemma DoubleIsQuiet(c: Core, mv: Move)
    ensures PseudoLegal(c, mv) && mv.flag.DoublePush? ==> c.board[mv.to].None?
  {}

  lemma DoubleRoom(c: Core, from: Square)
    requires Rank(from) == PawnHome(c.side)
    ensures 0 <= from + 2 * Forward(c.side) < 64
  {}

  lemma DoublePseudoLegal(c: Core, from: Square)
    requires PawnOn(c, from) && Rank(from) == PawnHome(c.side) && 0 <= from + 2 * Forward(c.side) < 64
    ensures PseudoLegal(c, Move(from, from + 2 * Forward(c.side), DoublePush)) <==>
            c.board[from + Forward(c.side)].None? && c.board[from + 2 * Forward(c.side)].None?
  {}

  lemma PushIsFree(info: MaskInfo, board: Board, us: Color, k: Square, t: Square)
    requires Right(info, board, us, k)
    ensures Contains(info.pushMask, t) ==> board[t].None?
  {
    hide Contains, Attacked, PinsKnown, CheckedBy, Resolves;
    assert board[t].Some? ==> Ours(board, us, t) || Ours(board, us.Flip(), t);
  }

  /** A capture by a pawn, promoting on the last rank. */
  lemma PawnCapturePasses(c: Core, info: MaskInfo, k: Square, from: Square, to: Square, flag: MoveFlag)
    requires Sound(c) && KingAt(c.board, c.side, k) && Right(info, c.board, c.side, k) && PawnOn(c, from)
    requires if Rank(to) == LastRank(c.side) then flag.IsPromoCapture() else flag.Capture?
    ensures |info.pinRays| == 64
    ensures Passes(c, Move(from, to, flag)) <==>
            && PawnHits(c.side, from, to) && Ours(c.board, c.side.Flip(), to)
            && Contains(info.captureMask, to) && PinAllows(info, from, to)
  {
    PawnRank(c, from);
    CapturePseudoLegal(c, from, to, flag);
    PawnAdmits(c, info, k, Move(from, to, flag));
    hide Sound, Passes, PseudoLegal, KingAt, Right, PawnOn, PawnHits, MoveFlag.IsPromoCapture;
  }

  lemma CapturePseudoLegal(c: Core, from: Square, to: Square, flag: MoveFlag)
    requires PawnOn(c, from) && 1 <= Rank(from) <= 6
    requires if Rank(to) == LastRank(c.side) then flag.IsPromoCapture() else flag.Capture?
    ensures PseudoLegal(c, Move(from, to, flag)) <==> PawnHits(c.side, from, to) && Ours(c.board, c.side.Flip(), to)
  {
    hide File;
  }

  // ---- Double check, and en passant ----

  /** In double check only the king moves. */
  lemma DoubleCheckKingOnly(c: Core, k: Square, a: Square, b: Square)
    requires Sound(c) && KingAt(c.board, c.side, k)
    requires CheckedBy(c.board, c.side, k, a) && CheckedBy(c.board, c.side, k, b) && a != b
    ensures OtherMoves(c) == []
  {
    KingIs(c.board, c.side, k);
    OtherMovesHas(c);
    assert OtherMoves(c) == [] || OtherMoves(c)[0] in OtherMoves(c);
    forall mv
      ensures !(Passes(c, mv) && mv.from != k)
    {
      if PseudoLegal(c, mv) && mv.from != k && Ordinary(mv) {
        OrdinaryPasses(c, mv, k);
        DoubleCheck(c.board, c.side, k, a, b, mv.to);
      }
      if PseudoLegal(c, mv) && mv.flag.IsCastle() {
        CastleIsKings(c, mv);
      }
      hide Sound, PseudoLegal, CheckedBy, Resolves, PinKept, NextBoard;
    }
    hide Sound, Passes, OtherMoves, Distinct;
  }

  lemma EpPasses(c: Core, k: Square, from: Square)
    requires Sound(c) && KingAt(c.board, c.side, k) && PawnOn(c, from) && c.ep.Some?
    ensures Applicable(c, Move(from, c.ep.value, EnPassant))
    ensures Passes(c, Move(from, c.ep.value, EnPassant)) <==>
            && PawnHits(c.side, from, c.ep.value)
            && AtMostOneCheck(c.board, c.side, k) && SlidersBlocked(NextBoard(c, Move(from, c.ep.value, EnPassant)), c.side, k)
  {
    KingIs(c.board, c.side, k);
    hide Sound, NextBoard, AtMostOneCheck, SlidersBlocked, PawnHits, KingAt;
  }
}
