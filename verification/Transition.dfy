/**
 Making and unmaking moves in place. Making keeps the position valid, that is, every incremental
 cache equal to its recomputation; unmaking restores every field from the token.
*/
module Transition {
  import opened Wrappers
  import opened Chess
  import opened Bitboards
  import opened Folds
  import opened Rules
  import opened Soundness
  import opened Zobrist
  import opened Evaluation
  import opened Positions

  datatype Undo = Undo(
    captured: Option<Piece>,
    castling: CastlingRights,
    ep: Option<Square>,
    halfmove: U8,
    hash: bv64,
    pawnHash: bv64,
    mg: int,
    eg: int,
    phase: U8)

  datatype NullUndo = NullUndo(ep: Option<Square>, halfmove: U8, hash: bv64)

  /** The token a move made from `s` hands back. */
  ghost function TokenFor(s: Snapshot, mv: Move): Undo
    requires Sound(s.core) && Applicable(s.core, mv)
  {
    Undo(Captured(s.core, mv), s.core.castling, s.core.ep, s.core.halfmove, s.hash, s.pawnHash, s.mg, s.eg, s.phase)
  }

  ghost function NullTokenFor(s: Snapshot): NullUndo {
    NullUndo(s.core.ep, s.core.halfmove, s.hash)
  }

  // ---- The board ----

  /** The king cache follows the king. */
  function KingsAfterMove(kings: seq<Square>, mover: Piece, to: Square): seq<Square>
    requires |kings| == 2
  {
    if mover.kind.King? then kings[mover.color.Index() := to] else kings
  }

  method Castle(pos: Position, mv: Move, mover: Piece, rookFrom: Square, rookTo: Square)
    requires pos.Agree()
    requires mv.from != rookFrom && mv.to != rookFrom
    modifies pos`kindBits, pos`colorBits, pos`mailbox, pos`kings
    ensures pos.Agree()
    ensures pos.mailbox == old(pos.mailbox)[mv.from := None][mv.to := Some(mover)][rookFrom := None]
                           [rookTo := Some(Piece(mover.color, Rook))]
    ensures pos.kings == KingsAfterMove(old(pos.kings), mover, mv.to)
  {
    hide KindsAgree, ColorsAgree;
    pos.ClearSquare(mv.from);
    pos.ClearSquare(rookFrom);
    pos.SetPiece(mv.to, mover);
    pos.SetPiece(rookTo, Piece(mover.color, Rook));
    ghost var lifted := old(pos.mailbox)[mv.from := None];
    assert lifted[rookFrom := None][mv.to := Some(mover)] == lifted[mv.to := Some(mover)][rookFrom := None];
  }

  /** The mutation block of `make_move`. */
  method MoveMen(pos: Position, mv: Move, mover: Piece, captureSquare: Square, ghost c: Core)
    requires pos.Agree() && Sound(c) && Applicable(c, mv) && pos.mailbox == c.board
    requires c.board[mv.from] == Some(mover)
    requires captureSquare == if mv.flag.IsCapture() then CaptureSquare(c, mv) else mv.to
    modifies pos`kindBits, pos`colorBits, pos`mailbox, pos`kings
    ensures pos.Agree()
    ensures pos.mailbox == NextBoard(c, mv)
    ensures pos.kings == KingsAfterMove(old(pos.kings), mover, mv.to)
  {
    if mv.flag.IsCapture() { VictimIsEnemy(c, mv); }
    if mv.flag.IsCastle() { CastlingFacts(c, mv); }
    assert mover.color == c.side;
    assert mv.flag.Promotion().Some? ==> mover.kind.Pawn?;
    hide Sound, Applicable, CaptureSquare, KindsAgree, ColorsAgree;
    match mv.flag {
      case Quiet | DoublePush =>
        pos.ClearSquare(mv.from);
        pos.SetPiece(mv.to, mover);
      case Capture =>
        pos.ClearSquare(mv.from);
        pos.ClearSquare(mv.to);
        pos.SetPiece(mv.to, mover);
      case EnPassant =>
        pos.ClearSquare(mv.from);
        pos.ClearSquare(captureSquare);
        pos.SetPiece(mv.to, mover);
      case KingCastle | QueenCastle =>
        var (rookFrom, rookTo) := CastleRookSquares(mover.color, mv.flag);
        Castle(pos, mv, mover, rookFrom, rookTo);
      case KnightPromo | BishopPromo | RookPromo | QueenPromo =>
        pos.ClearSquare(mv.from);
        pos.SetPiece(mv.to, Piece(mover.color, mv.flag.Promotion().value));
      case KnightPromoCapture | BishopPromoCapture | RookPromoCapture | QueenPromoCapture =>
        pos.ClearSquare(mv.from);
        pos.ClearSquare(mv.to);
        pos.SetPiece(mv.to, Piece(mover.color, mv.flag.Promotion().value));
    }
  }

  // ---- The hashes ----

  /** The piece toggles of `update_zobrist_after_make`. */
  method ToggleMen(keys: Keys, mv: Move, mover: Piece, undo: Undo, captureSquare: Square, ghost c: Core)
    returns (z: bv64)
    requires Sound(c) && Applicable(c, mv)
    requires c.board[mv.from] == Some(mover)
    requires captureSquare == if mv.flag.IsCapture() then CaptureSquare(c, mv) else mv.to
    requires undo.captured == Captured(c, mv)
    ensures z == ToggleMoved(keys, false, c, mv, undo.hash)
  {
    MovedKinds(mv, mover, undo.captured, c);
    hide Sound, Applicable, CaptureSquare, Captured, Xor, PieceKey, MoveFlag.IsCapture, MoveFlag.IsCastle;
    var landsAs := if mv.flag.Promotion().Some? then Piece(mover.color, mv.flag.Promotion().value) else mover;
    z := Xor(undo.hash, PieceKey(keys, mover, mv.from));
    z := Xor(z, PieceKey(keys, landsAs, mv.to));
    if undo.captured.Some? {
      z := Xor(z, PieceKey(keys, undo.captured.value, captureSquare));
    }
    if mv.flag.IsCastle() {
      var (rookFrom, rookTo) := CastleRookSquares(mover.color, mv.flag);
      z := Xor(z, PieceKey(keys, Piece(mover.color, Rook), rookFrom));
      z := Xor(z, PieceKey(keys, Piece(mover.color, Rook), rookTo));
    }
  }

  /** First half of `update_zobrist_after_make`. */
  method UpdateHash(pos: Position, mv: Move, mover: Piece, undo: Undo, captureSquare: Square,
                    priorEp: Option<Coordinate>, newEp: Option<Coordinate>, newCastling: CastlingRights, ghost c: Core)
    requires Sound(c) && Applicable(c, mv)
    requires c.board[mv.from] == Some(mover)
    requires captureSquare == if mv.flag.IsCapture() then CaptureSquare(c, mv) else mv.to
    requires undo.captured == Captured(c, mv) && undo.castling == c.castling
    requires newCastling == NextCastling(c.castling, mv)
    requires priorEp == EpFileToHash(c) && newEp == EpFileToHash(Next(c, mv))
    modifies pos`hash
    ensures pos.hash == ToggleMove(pos.tables.keys, c, mv, undo.hash)
  {
    hide Sound, Applicable, CaptureSquare, Captured, Xor, NextCastling, EpFileToHash, Next, ToggleMoved, ToggleRights;
    var z := ToggleMen(pos.tables.keys, mv, mover, undo, captureSquare, c);
    z := ToggleChangedRights(pos.tables.keys, z, undo.castling ^ newCastling);
    XorZero(z);
    if priorEp.Some? {
      z := Xor(z, pos.tables.keys[772 + priorEp.value]);
    }
    XorZero(z);
    if newEp.Some? {
      z := Xor(z, pos.tables.keys[772 + newEp.value]);
    }
    pos.hash := Xor(z, pos.tables.keys[780]);
  }

  method ToggleChangedRights(keys: Keys, start: bv64, delta: CastlingRights) returns (z: bv64)
    ensures z == ToggleRights(keys, start, delta)
  {
    hide Xor, CastlingKey, ToggleRight;
    z := start;
    z := ToggleRight(keys, z, delta, WHITE_KING);
    z := ToggleRight(keys, z, delta, WHITE_QUEEN);
    z := ToggleRight(keys, z, delta, BLACK_KING);
    z := ToggleRight(keys, z, delta, BLACK_QUEEN);
  }

  /** Second half of `update_zobrist_after_make`: three conditional toggles, no look at the flag. */
  method UpdatePawnHash(pos: Position, mv: Move, mover: Piece, undo: Undo, captureSquare: Square, ghost c: Core)
    requires Sound(c) && Applicable(c, mv)
    requires c.board[mv.from] == Some(mover)
    requires captureSquare == if mv.flag.IsCapture() then CaptureSquare(c, mv) else mv.to
    requires undo.captured == Captured(c, mv)
    modifies pos`pawnHash
    ensures pos.pawnHash == ToggleMoved(pos.tables.keys, true, c, mv, undo.pawnHash)
  {
    hide Sound, Applicable, CaptureSquare, Captured, Xor, PieceKey, ToggleMoved;
    PawnCells(pos.tables.keys, mv, mover, undo.captured, captureSquare, c, undo.pawnHash);
    pos.pawnHash := TogglePawnCells(pos.tables.keys, mv, mover, undo.captured, captureSquare, undo.pawnHash);
  }

  method TogglePawnCells(keys: Keys, mv: Move, mover: Piece, captured: Option<Piece>, captureSquare: Square, start: bv64)
    returns (z: bv64)
    ensures z == PawnCellsToggled(keys, mv, mover, captured, captureSquare, start)
  {
    hide Xor, PieceKey;
    z := start;
    if mover.kind.Pawn? {
      z := Xor(z, PieceKey(keys, Piece(mover.color, Pawn), mv.from));
    }
    if mover.kind.Pawn? && mv.flag.Promotion().None? {
      z := Xor(z, PieceKey(keys, Piece(mover.color, Pawn), mv.to));
    }
    if captured.Some? && captured.value.kind.Pawn? {
      z := Xor(z, PieceKey(keys, Piece(mover.color.Flip(), Pawn), captureSquare));
    }
  }

  function XorIf(z: bv64, condition: bool, key: bv64): bv64 {
    if condition then Xor(z, key) else z
  }

  function PawnCellsToggled(keys: Keys, mv: Move, mover: Piece, captured: Option<Piece>, captureSquare: Square, z: bv64)
    : bv64
  {
    var lifted := XorIf(z, mover.kind.Pawn?, PieceKey(keys, Piece(mover.color, Pawn), mv.from));
    var landed := XorIf(lifted, mover.kind.Pawn? && mv.flag.Promotion().None?,
                        PieceKey(keys, Piece(mover.color, Pawn), mv.to));
    XorIf(landed, captured.Some? && captured.value.kind.Pawn?,
          PieceKey(keys, Piece(mover.color.Flip(), Pawn), captureSquare))
  }

  lemma PawnCell(keys: Keys, p: Piece, s: Square, z: bv64)
    ensures Xor(z, CellKey(keys, true, Some(p), s)) == XorIf(z, p.kind.Pawn?, PieceKey(keys, Piece(p.color, Pawn), s))
  {
    XorZero(z);
  }

  lemma MovedKinds(mv: Move, mover: Piece, captured: Option<Piece>, c: Core)
    requires Sound(c) && Applicable(c, mv)
    requires c.board[mv.from] == Some(mover) && captured == Captured(c, mv)
    ensures mover.color == c.side
    ensures mv.flag.Promotion().None? ==> Landed(c, mv) == mover
    ensures mv.flag.Promotion().Some? ==> mover.kind.Pawn? && !Landed(c, mv).kind.Pawn?
    ensures captured.Some? <==> mv.flag.IsCapture()
    ensures captured.Some? ==> captured.value.color == c.side.Flip()
  {
    if mv.flag.IsCapture() { VictimIsEnemy(c, mv); }
  }

  /** Of the cells a move touches, only three can hold a pawn. */
  lemma PawnCells(keys: Keys, mv: Move, mover: Piece, captured: Option<Piece>, captureSquare: Square, c: Core, z: bv64)
    requires Sound(c) && Applicable(c, mv)
    requires c.board[mv.from] == Some(mover)
    requires captureSquare == if mv.flag.IsCapture() then CaptureSquare(c, mv) else mv.to
    requires captured == Captured(c, mv)
    ensures ToggleMoved(keys, true, c, mv, z) == PawnCellsToggled(keys, mv, mover, captured, captureSquare, z)
  {
    MovedKinds(mv, mover, captured, c);
    hide Sound, Applicable, CaptureSquare, Captured, Landed, Xor, PieceKey, CellKey,
      MoveFlag.IsCapture, MoveFlag.IsCastle, MoveFlag.Promotion;
    var lifted := Xor(z, CellKey(keys, true, c.board[mv.from], mv.from));
    var landed := Xor(lifted, CellKey(keys, true, Some(Landed(c, mv)), mv.to));
    PawnCell(keys, mover, mv.from, z);
    PawnCell(keys, Landed(c, mv), mv.to, lifted);
    if captured.Some? {
      PawnCell(keys, captured.value, captureSquare, landed);
    }
    if mv.flag.IsCastle() {
      var (rookFrom, rookTo) := CastleRookSquares(c.side, mv.flag);
      PawnCell(keys, Piece(c.side, Rook), rookFrom, landed);
      PawnCell(keys, Piece(c.side, Rook), rookTo, landed);
    }
  }

  // ---- The evaluation triple ----

  /** The change of one table's fold, flag by flag, as `update_static_eval_after_make` spells it out. */
  method TableDelta(t: Table, mv: Move, mover: Piece, captured: Option<Piece>, captureSquare: Square, ghost c: Core)
    returns (delta: int)
    requires Sound(c) && Applicable(c, mv)
    requires c.board[mv.from] == Some(mover)
    requires captureSquare == if mv.flag.IsCapture() then CaptureSquare(c, mv) else mv.to
    requires captured == Captured(c, mv)
    ensures delta == Delta(t, c, mv)
  {
    if mv.flag.IsCapture() { VictimIsEnemy(c, mv); }
    if mv.flag.IsCastle() { CastlingFacts(c, mv); }
    assert mover.color == c.side && mover == Piece(mover.color, mover.kind);
    assert mv.flag.Promotion().Some? || mv.flag.EnPassant? ==> mover.kind.Pawn?;
    hide Sound, Applicable, CaptureSquare, Entry;
    var us := mover.color;
    match mv.flag {
      case Quiet | DoublePush =>
        delta := Entry(t, mover, mv.to) - Entry(t, mover, mv.from);
      case Capture =>
        delta := Entry(t, mover, mv.to) - Entry(t, mover, mv.from) - Entry(t, captured.value, captureSquare);
      case EnPassant =>
        delta := Entry(t, Piece(us, Pawn), mv.to) - Entry(t, Piece(us, Pawn), mv.from)
        - Entry(t, captured.value, captureSquare);
      case KingCastle | QueenCastle =>
        var (rookFrom, rookTo) := CastleRookSquares(us, mv.flag);
        delta := Entry(t, Piece(us, King), mv.to) - Entry(t, Piece(us, King), mv.from)
        + Entry(t, Piece(us, Rook), rookTo) - Entry(t, Piece(us, Rook), rookFrom);
      case KnightPromo | BishopPromo | RookPromo | QueenPromo =>
        delta := Entry(t, Piece(us, mv.flag.Promotion().value), mv.to) - Entry(t, Piece(us, Pawn), mv.from);
      case KnightPromoCapture | BishopPromoCapture | RookPromoCapture | QueenPromoCapture =>
        delta := Entry(t, Piece(us, mv.flag.Promotion().value), mv.to) - Entry(t, Piece(us, Pawn), mv.from)
        - Entry(t, captured.value, captureSquare);
    }
  }

  /** The change of phase: only captures of, and promotions to, pieces with a weight matter. */
  method PhaseDelta(mv: Move, captured: Option<Piece>, ghost c: Core) returns (delta: int)
    requires Sound(c) && Applicable(c, mv)
    requires captured == Captured(c, mv)
    ensures delta == Delta(PhaseTable(), c, mv)
  {
    ghost var mover := c.board[mv.from].value;
    if mv.flag.IsCapture() {
      VictimIsEnemy(c, mv);
      PhaseEntry(captured.value, CaptureSquare(c, mv));
    }
    assert mv.flag.Promotion().Some? ==> mover.kind.Pawn?;
    PhaseEntry(mover, mv.from);
    PhaseEntry(Landed(c, mv), mv.to);
    PhaseEntry(Piece(c.side, Rook), if mv.flag.IsCastle() then CastleRookSquares(c.side, mv.flag).0 else 0);
    PhaseEntry(Piece(c.side, Rook), if mv.flag.IsCastle() then CastleRookSquares(c.side, mv.flag).1 else 0);
    hide Sound, Applicable, CaptureSquare, Entry, PhaseTable;
    match mv.flag {
      case Quiet | DoublePush | EnPassant | KingCastle | QueenCastle =>
        delta := 0;
      case Capture =>
        delta := 0 - PhaseWeight(captured.value.kind);
      case KnightPromo | BishopPromo | RookPromo | QueenPromo =>
        delta := PhaseWeight(mv.flag.Promotion().value);
      case KnightPromoCapture | BishopPromoCapture | RookPromoCapture | QueenPromoCapture =>
        delta := PhaseWeight(mv.flag.Promotion().value) - PhaseWeight(captured.value.kind);
    }
  }

  /** `update_static_eval_after_make`. The narrowing to a byte never loses anything. */
  method UpdateEval(pos: Position, mv: Move, mover: Piece, captured: Option<Piece>, captureSquare: Square, ghost c: Core)
    requires Sound(c) && Applicable(c, mv)
    requires c.board[mv.from] == Some(mover)
    requires captureSquare == if mv.flag.IsCapture() then CaptureSquare(c, mv) else mv.to
    requires captured == Captured(c, mv)
    requires pos.mg == Sum(pos.tables.mg, c.board)
    requires pos.eg == Sum(pos.tables.eg, c.board)
    requires pos.phase == Sum(PhaseTable(), c.board)
    modifies pos`mg, pos`eg, pos`phase
    ensures pos.mg == Sum(pos.tables.mg, NextBoard(c, mv))
    ensures pos.eg == Sum(pos.tables.eg, NextBoard(c, mv))
    ensures pos.phase == Sum(PhaseTable(), NextBoard(c, mv))
  {
    hide Sound, Applicable, CaptureSquare, Captured, NextBoard, Delta, Sum, PhaseTable;
    var mgDelta := TableDelta(pos.tables.mg, mv, mover, captured, captureSquare, c);
    var egDelta := TableDelta(pos.tables.eg, mv, mover, captured, captureSquare, c);
    var phaseDelta := PhaseDelta(mv, captured, c);
    SumAfter(pos.tables.mg, c, mv);
    SumAfter(pos.tables.eg, c, mv);
    SumAfter(PhaseTable(), c, mv);
    MoverKeepsKing(c, mv);
    PhaseFitsByte(NextBoard(c, mv));
    assert OneKing(NextBoard(c, mv), White) || OneKing(NextBoard(c, mv), Black) by {
      assert c.side == White || c.side == Black;
    }
    pos.mg := pos.mg + mgDelta;
    pos.eg := pos.eg + egDelta;
    pos.phase := pos.phase + phaseDelta;
  }

  // ---- make_move ----

  /** `ep_capturer_exists` on the board a double push has just produced. */
  method EpTargetAfter(pos: Position, mv: Move, us: Color, ghost c: Core) returns (target: Option<Square>)
    requires Sound(c) && Applicable(c, mv) && us == c.side
    requires pos.mailbox == NextBoard(c, mv)
    ensures target == NextEp(c, mv)
  {
    hide Sound, NextBoard, EpCapturerExists;
    if mv.flag.DoublePush? {
      var rank := if us.White? then Rank(mv.from) + 1 else Rank(mv.from) - 1;
      var skipped := At(File(mv.from), rank);
      if EpCapturerExists(pos.mailbox, us.Flip(), File(mv.from), Rank(mv.to)) {
        return Some(skipped);
      }
    }
    return None;
  }

  /** `captured_sq`: one rank behind the target for en passant. */
  method CaptureSquareOf(mv: Move, us: Color, ghost c: Core) returns (s: Square)
    requires Sound(c) && Applicable(c, mv) && us == c.side
    ensures s == if mv.flag.IsCapture() then CaptureSquare(c, mv) else mv.to
  {
    if mv.flag.EnPassant? {
      var rank := if us.White? then Rank(mv.to) - 1 else Rank(mv.to) + 1;
      s := At(File(mv.to), rank);
    } else {
      s := mv.to;
    }
  }

  /** A king cache that follows the mover is right on the next board. */
  lemma KingsCached(c: Core, mv: Move, kings: seq<Square>, mover: Piece)
    requires Sound(c) && Applicable(c, mv) && !TakesKing(c, mv) && c.board[mv.from] == Some(mover)
    requires |kings| == 2 && KingAt(c.board, White, kings[0]) && KingAt(c.board, Black, kings[1])
    ensures var after := KingsAfterMove(kings, mover, mv.to);
            KingAt(NextBoard(c, mv), White, after[0]) && KingAt(NextBoard(c, mv), Black, after[1])
  {
    assert mover.color == c.side;
    var mine := kings[c.side.Index()];
    assert KingAt(c.board, c.side, mine);
    MoverKingAfter(c, mv, mine);
    OtherKingAfter(c, mv, kings[c.side.Flip().Index()]);
    assert mv.from == mine <==> mover.kind.King? by {
      assert Holds(c.board, mv.from, c.side, King) <==> mv.from == mine;
      assert mover == Piece(mover.color, mover.kind);
    }
    hide KingAt, NextBoard, Sound, Applicable;
  }

  /** Everything `make_move` writes outside the three caches. */
  method MoveAndAux(pos: Position, mv: Move, mover: Piece, captureSquare: Square, ghost c: Core)
    requires pos.Agree() && pos.Recorded() == c && Sound(c) && Applicable(c, mv)
    requires c.board[mv.from] == Some(mover)
    requires captureSquare == if mv.flag.IsCapture() then CaptureSquare(c, mv) else mv.to
    modifies pos`kindBits, pos`colorBits, pos`mailbox, pos`kings
    modifies pos`side, pos`castling, pos`ep, pos`halfmove, pos`fullmove
    ensures pos.Agree()
    ensures pos.Recorded() == Next(c, mv)
    ensures pos.kings == KingsAfterMove(old(pos.kings), mover, mv.to)
  {
    assert mover.color == c.side;
    hide KindsAgree, ColorsAgree, Sound, Applicable, NextBoard, NextEp, NextCastling, MaskedRights, CaptureSquare,
      MoveFlag.IsCapture, KingsAfterMove, Tick, NextFullmove;
    var us := mover.color;
    MoveMen(pos, mv, mover, captureSquare, c);
    var newCastling := MaskedRights(pos.tables.castling, pos.castling, mv);
    var newEp := EpTargetAfter(pos, mv, us, c);
    var newHalfmove := if mover.kind.Pawn? || mv.flag.IsCapture() then 0 else Tick(pos.halfmove);
    var newFullmove := NextFullmove(us, pos.fullmove);
    pos.SetAuxState(us.Flip(), newCastling, newEp, newHalfmove, newFullmove);
  }

  /** The incremental half of `make_move`: each cache of the old position becomes that of the new one. */
  method UpdateCaches(pos: Position, mv: Move, mover: Piece, undo: Undo, captureSquare: Square,
                      priorEp: Option<Coordinate>, newEp: Option<Coordinate>, ghost c: Core)
    requires Sound(c) && Applicable(c, mv) && pos.Recorded() == Next(c, mv)
    requires c.board[mv.from] == Some(mover)
    requires captureSquare == if mv.flag.IsCapture() then CaptureSquare(c, mv) else mv.to
    requires undo.captured == Captured(c, mv) && undo.castling == c.castling
    requires priorEp == EpFileToHash(c) && newEp == EpFileToHash(Next(c, mv))
    requires undo.hash == HashOf(pos.tables.keys, c) && undo.pawnHash == PawnHashOf(pos.tables.keys, c.board)
    requires pos.mg == Sum(pos.tables.mg, c.board) && pos.eg == Sum(pos.tables.eg, c.board)
    requires pos.phase == Sum(PhaseTable(), c.board)
    modifies pos`hash, pos`pawnHash, pos`mg, pos`eg, pos`phase
    ensures pos.hash == HashOf(pos.tables.keys, pos.Recorded())
    ensures pos.pawnHash == PawnHashOf(pos.tables.keys, pos.mailbox)
    ensures pos.mg == Sum(pos.tables.mg, pos.mailbox) && pos.eg == Sum(pos.tables.eg, pos.mailbox)
    ensures pos.phase == Sum(PhaseTable(), pos.mailbox)
  {
    hide HashOf, XorAll, Sum, PhaseTable, Sound, Applicable, NextBoard, NextEp, NextCastling, Captured, CaptureSquare,
      EpFileToHash, ToggleMove, ToggleMoved;
    UpdateHash(pos, mv, mover, undo, captureSquare, priorEp, newEp, pos.castling, c);
    UpdatePawnHash(pos, mv, mover, undo, captureSquare, c);
    UpdateEval(pos, mv, mover, undo.captured, captureSquare, c);
    HashAfter(pos.tables.keys, c, mv);
    PieceKeysAfter(pos.tables.keys, true, c, mv);
  }

  /** Board, recorded fields and caches, in that order; the old en passant file is read first. */
  method Advance(pos: Position, mv: Move, mover: Piece, undo: Undo, captureSquare: Square, ghost c: Core)
    requires pos.Agree() && pos.Recorded() == c && Sound(c) && Applicable(c, mv)
    requires c.board[mv.from] == Some(mover)
    requires captureSquare == if mv.flag.IsCapture() then CaptureSquare(c, mv) else mv.to
    requires undo.captured == Captured(c, mv) && undo.castling == c.castling
    requires undo.hash == HashOf(pos.tables.keys, c) && undo.pawnHash == PawnHashOf(pos.tables.keys, c.board)
    requires pos.mg == Sum(pos.tables.mg, c.board) && pos.eg == Sum(pos.tables.eg, c.board)
    requires pos.phase == Sum(PhaseTable(), c.board)
    modifies pos
    ensures pos.Agree() && pos.Recorded() == Next(c, mv)
    ensures pos.kings == KingsAfterMove(old(pos.kings), mover, mv.to)
    ensures pos.hash == HashOf(pos.tables.keys, pos.Recorded())
    ensures pos.pawnHash == PawnHashOf(pos.tables.keys, pos.mailbox)
    ensures pos.mg == Sum(pos.tables.mg, pos.mailbox) && pos.eg == Sum(pos.tables.eg, pos.mailbox)
    ensures pos.phase == Sum(PhaseTable(), pos.mailbox)
  {
    hide Sound, Applicable, Next, NextBoard, CaptureSquare, Captured, KindsAgree, ColorsAgree, HashOf, XorAll,
      Sum, PhaseTable, EpFileToHash, KingsAfterMove;
    var priorEp := pos.EpFile();
    MoveAndAux(pos, mv, mover, captureSquare, c);
    var newEp := pos.EpFile();
    UpdateCaches(pos, mv, mover, undo, captureSquare, priorEp, newEp, c);
  }

  /**
   Every redundant field but the king squares is right afterwards, whatever is captured. The position
   is valid again unless the move took a king, which nothing here looks at.
   */
  method MakeMove(pos: Position, mv: Move) returns (undo: Undo)
    requires pos.Valid() && Applicable(pos.Recorded(), mv)
    modifies pos
    ensures pos.Coherent()
    ensures pos.Valid() <==> !TakesKing(old(pos.Recorded()), mv)
    ensures pos.Recorded() == Next(old(pos.Recorded()), mv)
    ensures pos.kings == KingsAfterMove(old(pos.kings), old(pos.mailbox)[mv.from].value, mv.to)
    ensures undo == TokenFor(old(pos.Fields()), mv)
  {
    ghost var c := pos.Recorded();
    hide ValidSnapshot, CoherentSnapshot, Sound, Applicable, Next, NextBoard, CaptureSquare, KindsAgree, ColorsAgree, KingAt,
      HashOf, XorAll, Sum, PhaseTable, EpFileToHash, KingsAfterMove, TakesKing;
    ValidParts(pos.tables, pos.Fields());
    MoverIsOurs(c, mv);
    var mover := pos.mailbox[mv.from].value;
    var captureSquare := CaptureSquareOf(mv, mover.color, c);
    var captured := if mv.flag.IsCapture() then pos.mailbox[captureSquare] else None;
    undo := Undo(captured, pos.castling, pos.ep, pos.halfmove, pos.hash, pos.pawnHash, pos.mg, pos.eg, pos.phase);
    Advance(pos, mv, mover, undo, captureSquare, c);
    CoherentWhole(pos.tables, pos.Fields());
    ValidUnlessKingTaken(pos.tables, pos.Fields(), c, mv, old(pos.kings), mover);
  }

  lemma ValidUnlessKingTaken(t: Tables, s: Snapshot, c: Core, mv: Move, kings: seq<Square>, mover: Piece)
    requires Sound(c) && Applicable(c, mv) && s.core == Next(c, mv) && CoherentSnapshot(t, s)
    requires c.board[mv.from] == Some(mover)
    requires |kings| == 2 && KingAt(c.board, White, kings[0]) && KingAt(c.board, Black, kings[1])
    requires s.kings == KingsAfterMove(kings, mover, mv.to)
    ensures ValidSnapshot(t, s) <==> !TakesKing(c, mv)
  {
    hide CoherentSnapshot, Sound, Applicable, Next, NextBoard, KingAt, TakesKing, KingsAfterMove;
    NextSoundUnlessKingTaken(c, mv);
    NextBoardIs(c, mv);
    if !TakesKing(c, mv) {
      KingsCached(c, mv, kings, mover);
    }
  }

  /** What a valid snapshot consists of, part by part. */
  lemma ValidParts(t: Tables, s: Snapshot)
    requires ValidSnapshot(t, s)
    ensures Sound(s.core)
    ensures KindsAgree(s.kindBits, s.core.board) && ColorsAgree(s.colorBits, s.core.board)
    ensures |s.kings| == 2 && KingAt(s.core.board, White, s.kings[0]) && KingAt(s.core.board, Black, s.kings[1])
    ensures s.hash == HashOf(t.keys, s.core) && s.pawnHash == PawnHashOf(t.keys, s.core.board)
    ensures s.mg == Sum(t.mg, s.core.board) && s.eg == Sum(t.eg, s.core.board)
    ensures s.phase == Sum(PhaseTable(), s.core.board)
  {}

  lemma CoherentWhole(t: Tables, s: Snapshot)
    requires KindsAgree(s.kindBits, s.core.board) && ColorsAgree(s.colorBits, s.core.board) && |s.kings| == 2
    requires s.hash == HashOf(t.keys, s.core) && s.pawnHash == PawnHashOf(t.keys, s.core.board)
    requires s.mg == Sum(t.mg, s.core.board) && s.eg == Sum(t.eg, s.core.board)
    requires s.phase == Sum(PhaseTable(), s.core.board)
    ensures CoherentSnapshot(t, s)
  {}

  /** How the parts of a position are named. */
  lemma PositionParts(pos: Position)
    ensures pos.Fields().core == pos.Recorded() && pos.Fields().kings == pos.kings && pos.Recorded().board == pos.mailbox
    ensures pos.Valid() <==> ValidSnapshot(pos.tables, pos.Fields())
    ensures pos.Coherent() <==> CoherentSnapshot(pos.tables, pos.Fields())
    ensures pos.Valid() ==> pos.Coherent() && Sound(pos.Recorded())
  {
    hide Sound, KindsAgree, ColorsAgree, KingAt, HashOf, PawnHashOf, Sum, PhaseTable;
  }

  lemma ValidIsCoherent(t: Tables, s: Snapshot)
    requires ValidSnapshot(t, s)
    ensures CoherentSnapshot(t, s) && Sound(s.core)
  {}

  lemma ValidWhole(t: Tables, s: Snapshot)
    requires Sound(s.core)
    requires KindsAgree(s.kindBits, s.core.board) && ColorsAgree(s.colorBits, s.core.board)
    requires |s.kings| == 2 && KingAt(s.core.board, White, s.kings[0]) && KingAt(s.core.board, Black, s.kings[1])
    requires s.hash == HashOf(t.keys, s.core) && s.pawnHash == PawnHashOf(t.keys, s.core.board)
    requires s.mg == Sum(t.mg, s.core.board) && s.eg == Sum(t.eg, s.core.board)
    requires s.phase == Sum(PhaseTable(), s.core.board)
    ensures ValidSnapshot(t, s)
  {}

  lemma MoverIsOurs(c: Core, mv: Move)
    requires Sound(c) && Applicable(c, mv)
    ensures c.board[mv.from].Some? && c.board[mv.from].value.color == c.side
  {}

  lemma NextBoardIs(c: Core, mv: Move)
    requires Sound(c) && Applicable(c, mv)
    ensures Next(c, mv).board == NextBoard(c, mv)
  {}

  // ---- unmake_move ----

  /** The king cache after putting back the mover, then what it captured. */
  ghost function KingsBefore(kings: seq<Square>, c: Core, mv: Move): seq<Square>
    requires Sound(c) && Applicable(c, mv) && |kings| == 2
  {
    var back := KingsAfterMove(kings, c.board[mv.from].value, mv.from);
    if Captured(c, mv).Some? then KingsAfterMove(back, Captured(c, mv).value, CaptureSquare(c, mv)) else back
  }

  /** The mutation block of `unmake_move`. */
  method UnmoveMen(pos: Position, mv: Move, us: Color, captured: Option<Piece>, ghost c: Core)
    requires pos.Agree() && Sound(c) && Applicable(c, mv) && us == c.side
    requires pos.mailbox == NextBoard(c, mv)
    requires captured == Captured(c, mv)
    modifies pos`kindBits, pos`colorBits, pos`mailbox, pos`kings
    ensures pos.Agree()
    ensures pos.mailbox == c.board
    ensures pos.kings == KingsBefore(old(pos.kings), c, mv)
  {
    hide Sound, Applicable, NextBoard, KindsAgree, ColorsAgree, CaptureSquare;
    UnmovedBoard(c, mv);
    var captureSquare := CaptureSquareOf(mv, us, c);
    match mv.flag {
      case Quiet | DoublePush =>
        var man := pos.mailbox[mv.to].value;
        pos.ClearSquare(mv.to);
        pos.SetPiece(mv.from, man);
      case Capture | EnPassant =>
        var man := pos.mailbox[mv.to].value;
        pos.ClearSquare(mv.to);
        pos.SetPiece(mv.from, man);
        pos.SetPiece(captureSquare, captured.value);
      case KingCastle | QueenCastle =>
        Uncastle(pos, mv, us);
      case KnightPromo | BishopPromo | RookPromo | QueenPromo =>
        pos.ClearSquare(mv.to);
        pos.SetPiece(mv.from, Piece(us, Pawn));
      case KnightPromoCapture | BishopPromoCapture | RookPromoCapture | QueenPromoCapture =>
        pos.ClearSquare(mv.to);
        pos.SetPiece(mv.from, Piece(us, Pawn));
        pos.SetPiece(captureSquare, captured.value);
    }
  }

  /** Undoing the rewrites of a move, in the order `unmake_move` undoes them, gives the old board. */
  lemma UnmovedBoard(c: Core, mv: Move)
    requires Sound(c) && Applicable(c, mv)
    ensures c.board[mv.from].Some? && c.board[mv.from].value.color == c.side
    ensures var mover := c.board[mv.from].value;
            var after := NextBoard(c, mv);
            var lifted := after[mv.to := None];
            && (mv.flag.Promotion().Some? ==> mover == Piece(c.side, Pawn))
            && (mv.flag.Promotion().None? ==> after[mv.to] == Some(mover))
            && (mv.flag.IsCapture() ==>
                  && Captured(c, mv).Some?
                  && c.board == lifted[mv.from := Some(mover)][CaptureSquare(c, mv) := Captured(c, mv)])
            && (mv.flag.IsCastle() ==>
                  var (rookFrom, rookTo) := CastleRookSquares(c.side, mv.flag);
                  && after[rookTo] == Some(Piece(c.side, Rook))
                  && c.board == lifted[rookTo := None][mv.from := Some(mover)][rookFrom := Some(Piece(c.side, Rook))])
            && (!mv.flag.IsCapture() && !mv.flag.IsCastle() ==> c.board == lifted[mv.from := Some(mover)])
  {
    NextBoardAt(c, mv);
    MoverIsOurs(c, mv);
    if mv.flag.Promotion().Some? { PromotesPawn(c, mv); }
    if mv.flag.IsCapture() {
      VictimIsEnemy(c, mv);
    } else {
      QuietTarget(c, mv);
    }
    if mv.flag.IsCastle() { CastlingFacts(c, mv); }
    hide Sound, Applicable, NextBoard, CaptureSquare;
  }

  lemma PromotesPawn(c: Core, mv: Move)
    requires Sound(c) && Applicable(c, mv) && mv.flag.Promotion().Some?
    ensures c.board[mv.from] == Some(Piece(c.side, Pawn))
  {}

  lemma QuietTarget(c: Core, mv: Move)
    requires Sound(c) && Applicable(c, mv) && !mv.flag.IsCapture()
    ensures c.board[mv.to].None?
  {}

  method Uncastle(pos: Position, mv: Move, us: Color)
    requires pos.Agree() && mv.flag.IsCastle()
    requires pos.mailbox[mv.to].Some?
    requires pos.mailbox[CastleRookSquares(us, mv.flag).1] == Some(Piece(us, Rook))
    modifies pos`kindBits, pos`colorBits, pos`mailbox, pos`kings
    ensures pos.Agree()
    ensures var (rookFrom, rookTo) := CastleRookSquares(us, mv.flag);
            pos.mailbox == old(pos.mailbox)[mv.to := None][rookTo := None][mv.from := old(pos.mailbox[mv.to])]
            [rookFrom := Some(Piece(us, Rook))]
    ensures pos.kings == KingsAfterMove(old(pos.kings), old(pos.mailbox[mv.to].value), mv.from)
  {
    hide KindsAgree, ColorsAgree;
    var king := pos.mailbox[mv.to].value;
    var (rookFrom, rookTo) := CastleRookSquares(us, mv.flag);
    var rook := pos.mailbox[rookTo].value;
    pos.ClearSquare(mv.to);
    pos.ClearSquare(rookTo);
    pos.SetPiece(mv.from, king);
    pos.SetPiece(rookFrom, rook);
  }

  /** Undoing the counter: decrement after Black's move, wrapping at sixteen bits. */
  function PriorFullmove(side: Color, fullmove: U16): U16 {
    if side.Black? then (fullmove + 0xFFFF) % 0x1_0000 else fullmove
  }

  lemma FullmoveRestored(side: Color, fullmove: U16)
    ensures PriorFullmove(side, NextFullmove(side, fullmove)) == fullmove
  {}

  /** The king cache comes back, even when it was stale because a king had been taken. */
  lemma KingsRestored(c: Core, mv: Move, kings: seq<Square>)
    requires Sound(c) && Applicable(c, mv)
    requires |kings| == 2 && KingAt(c.board, White, kings[0]) && KingAt(c.board, Black, kings[1])
    ensures KingsBefore(KingsAfterMove(kings, c.board[mv.from].value, mv.to), c, mv) == kings
  {
    MoverIsOurs(c, mv);
    var mover := c.board[mv.from].value;
    var mine := kings[mover.color.Index()];
    assert KingAt(c.board, mover.color, mine);
    assert mover == Piece(mover.color, mover.kind);
    assert mover.kind.King? ==> Holds(c.board, mv.from, mover.color, King);
    if mv.flag.IsCapture() {
      VictimIsEnemy(c, mv);
      var square := CaptureSquare(c, mv);
      var victim := c.board[square].value;
      assert victim == Piece(victim.color, victim.kind);
      assert KingAt(c.board, victim.color, kings[victim.color.Index()]);
      assert victim.kind.King? ==> Holds(c.board, square, victim.color, King);
    }
    hide Sound, Applicable, CaptureSquare;
  }

  /** A valid position reached by a move has the king cache that move leaves. */
  lemma KingsFollowed(c: Core, mv: Move, before: seq<Square>, after: seq<Square>)
    requires Sound(c) && Applicable(c, mv) && !TakesKing(c, mv)
    requires |before| == 2 && KingAt(c.board, White, before[0]) && KingAt(c.board, Black, before[1])
    requires |after| == 2 && KingAt(NextBoard(c, mv), White, after[0]) && KingAt(NextBoard(c, mv), Black, after[1])
    ensures c.board[mv.from].Some? && after == KingsAfterMove(before, c.board[mv.from].value, mv.to)
  {
    MoverIsOurs(c, mv);
    KingsCached(c, mv, before, c.board[mv.from].value);
    SameKings(NextBoard(c, mv), after, KingsAfterMove(before, c.board[mv.from].value, mv.to));
  }

  lemma OneKingSquare(board: Board, color: Color, a: Square, b: Square)
    requires KingAt(board, color, a) && KingAt(board, color, b)
    ensures a == b
  {
    assert Holds(board, a, color, King);
  }

  /** A snapshot that repeats the fields of a valid one, and whose bitboards agree, is that one. */
  lemma FieldsRestored(t: Tables, a: Snapshot, b: Snapshot)
    requires ValidSnapshot(t, b)
    requires a.core == b.core && a.kings == b.kings
    requires KindsAgree(a.kindBits, a.core.board) && ColorsAgree(a.colorBits, a.core.board)
    requires a.hash == b.hash && a.pawnHash == b.pawnHash && a.mg == b.mg && a.eg == b.eg && a.phase == b.phase
    ensures a == b
  {
    hide Sound, KindsAgree, ColorsAgree, KingAt, HashOf, PawnHashOf, Sum, PhaseTable;
    ValidDetermined(t, a, b);
  }

  /** Board, recorded fields and caches, restored from the token. */
  method TakeBack(pos: Position, mv: Move, undo: Undo, ghost c: Core)
    requires pos.Agree() && Sound(c) && Applicable(c, mv)
    requires pos.Recorded() == Next(c, mv)
    requires undo.captured == Captured(c, mv) && undo.castling == c.castling
    requires undo.ep == c.ep && undo.halfmove == c.halfmove
    modifies pos
    ensures pos.Agree() && pos.Recorded() == c
    ensures pos.kings == KingsBefore(old(pos.kings), c, mv)
    ensures pos.hash == undo.hash && pos.pawnHash == undo.pawnHash
    ensures pos.mg == undo.mg && pos.eg == undo.eg && pos.phase == undo.phase
  {
    hide Sound, Applicable, NextBoard, CaptureSquare, Captured, KindsAgree, ColorsAgree, KingsBefore, NextEp, NextCastling,
      NextFullmove, PriorFullmove;
    FullmoveRestored(c.side, c.fullmove);
    var us := pos.side.Flip();
    UnmoveMen(pos, mv, us, undo.captured, c);
    pos.SetAuxState(us, undo.castling, undo.ep, undo.halfmove, PriorFullmove(us, pos.fullmove));
    pos.hash := undo.hash;
    pos.pawnHash := undo.pawnHash;
    pos.mg, pos.eg, pos.phase := undo.mg, undo.eg, undo.phase;
  }

  /**
   Trusts that `(mv, undo)` comes from the matching `MakeMove`; `before` names the position that
   call started from, and every one of its fields comes back.
   */
  method UnmakeMove(pos: Position, mv: Move, undo: Undo, ghost before: Snapshot)
    requires ValidSnapshot(pos.tables, before) && Applicable(before.core, mv)
    requires pos.Coherent() && pos.Recorded() == Next(before.core, mv)
    requires pos.kings == KingsAfterMove(before.kings, before.core.board[mv.from].value, mv.to)
    requires undo == TokenFor(before, mv)
    modifies pos
    ensures pos.Fields() == before
  {
    ValidParts(pos.tables, before);
    hide ValidSnapshot, Sound, Applicable, Next, NextBoard, Captured, KindsAgree, ColorsAgree, KingAt, HashOf, XorAll,
      Sum, PhaseTable, KingsAfterMove, KingsBefore;
    NextBoardIs(before.core, mv);
    KingsRestored(before.core, mv, before.kings);
    TakeBack(pos, mv, undo, before.core);
    FieldsRestored(pos.tables, pos.Fields(), before);
  }

  // ---- Null moves ----

  /** The hash without its en passant key and with its turn key toggled. */
  method NullHash(pos: Position) returns (z: bv64)
    requires pos.Agree()
    ensures z == ToggleNull(pos.tables.keys, pos.Recorded(), pos.hash)
  {
    hide Xor, EpFileToHash, KindsAgree, ColorsAgree;
    z := pos.hash;
    var file := pos.EpFile();
    XorZero(z);
    if file.Some? {
      z := Xor(z, pos.tables.keys[772 + file.value]);
    }
    z := Xor(z, pos.tables.keys[780]);
  }

  method MakeNullMove(pos: Position) returns (undo: NullUndo)
    requires pos.Valid()
    modifies pos
    ensures pos.Valid()
    ensures pos.Recorded() == NextNull(old(pos.Recorded()))
    ensures undo == NullTokenFor(old(pos.Fields()))
  {
    ghost var c := pos.Recorded();
    hide ValidSnapshot, Sound, KindsAgree, ColorsAgree, KingAt, HashOf, XorAll, Sum, PhaseTable, ToggleNull, NextFullmove;
    ValidParts(pos.tables, pos.Fields());
    undo := NullUndo(pos.ep, pos.halfmove, pos.hash);
    var z := NullHash(pos);
    pos.SetAuxState(pos.side.Flip(), pos.castling, None, Tick(pos.halfmove), NextFullmove(pos.side, pos.fullmove));
    pos.hash := z;
    HashAfterNull(pos.tables.keys, c);
    NextNullSound(c);
    ValidWhole(pos.tables, pos.Fields());
  }

  method UnmakeNullMove(pos: Position, undo: NullUndo, ghost before: Snapshot)
    requires ValidSnapshot(pos.tables, before)
    requires pos.Valid() && pos.Recorded() == NextNull(before.core)
    requires undo == NullTokenFor(before)
    modifies pos
    ensures pos.Fields() == before
  {
    hide ValidSnapshot, Sound, KindsAgree, ColorsAgree, KingAt, HashOf, XorAll, Sum, PhaseTable, NextFullmove, PriorFullmove;
    ValidParts(pos.tables, before);
    ValidParts(pos.tables, pos.Fields());
    FullmoveRestored(before.core.side, before.core.fullmove);
    var us := pos.side.Flip();
    pos.SetAuxState(us, pos.castling, undo.ep, undo.halfmove, PriorFullmove(us, pos.fullmove));
    pos.hash := undo.hash;
    SameKings(before.core.board, before.kings, pos.kings);
    FieldsRestored(pos.tables, pos.Fields(), before);
  }

  lemma SameKings(board: Board, a: seq<Square>, b: seq<Square>)
    requires |a| == 2 && KingAt(board, White, a[0]) && KingAt(board, Black, a[1])
    requires |b| == 2 && KingAt(board, White, b[0]) && KingAt(board, Black, b[1])
    ensures a == b
  {
    OneKingSquare(board, White, a[0], b[0]);
    OneKingSquare(board, Black, a[1], b[1]);
  }
}
