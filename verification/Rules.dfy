/**
 What makes a position sound, which moves the transition code may be given, and what the six
 recorded fields are after one of them.
*/
module Rules {
  import opened Wrappers
  import opened Chess

  // ---- En passant ----

  /** A pawn of `color` stands beside `file` on `rank`. */
  predicate EpCapturerExists(board: Board, color: Color, file: Coordinate, rank: Coordinate) {
    || (file > 0 && Holds(board, At(file - 1, rank), color, Pawn))
    || (file < 7 && Holds(board, At(file + 1, rank), color, Pawn))
  }

  /**
   Drops a target no pawn can capture on: wrong side to move, no pushed pawn beyond it, target
   occupied, or no capturer beside the pushed pawn.
   */
  function SanitizeEp(board: Board, side: Color, ep: Option<Square>): Option<Square> {
    if ep.None? then None
    else
      var target := ep.value;
      if Rank(target) != 2 && Rank(target) != 5 then None
      else
        var capturer := if Rank(target) == 2 then Black else White;
        var pawnRank: Coordinate := if Rank(target) == 2 then 3 else 4;
        if side != capturer then None
        else if !Holds(board, At(File(target), pawnRank), capturer.Flip(), Pawn) then None
        else if board[target].Some? then None
        else if !EpCapturerExists(board, side, File(target), pawnRank) then None
        else ep
  }

  // ---- Soundness ----

  /** The one and only king of `color` stands on `s`. */
  ghost predicate KingAt(board: Board, color: Color, s: Square) {
    forall t: Square :: Holds(board, t, color, King) <==> t == s
  }

  ghost predicate OneKing(board: Board, color: Color) {
    exists s: Square :: KingAt(board, color, s)
  }

  predicate NoBackRankPawns(board: Board) {
    forall s: Square :: board[s].Some? && board[s].value.kind.Pawn? ==> 1 <= Rank(s) <= 6
  }

  predicate KingAndRookHome(board: Board, color: Color, king: Square, rook: Square) {
    Holds(board, king, color, King) && Holds(board, rook, color, Rook)
  }

  /** A right that is still held implies its king and rook have never left home. */
  predicate CastlingConsistent(board: Board, rights: CastlingRights) {
    && (HasRight(rights, WHITE_KING) ==> KingAndRookHome(board, White, E1, H1))
    && (HasRight(rights, WHITE_QUEEN) ==> KingAndRookHome(board, White, E1, A1))
    && (HasRight(rights, BLACK_KING) ==> KingAndRookHome(board, Black, E8, H8))
    && (HasRight(rights, BLACK_QUEEN) ==> KingAndRookHome(board, Black, E8, A8))
  }

  ghost predicate Sound(c: Core) {
    && OneKing(c.board, White)
    && OneKing(c.board, Black)
    && NoBackRankPawns(c.board)
    && CastlingConsistent(c.board, c.castling)
    && SanitizeEp(c.board, c.side, c.ep) == c.ep
  }

  // ---- Moves the transition code may be given ----

  function Forward(color: Color): int {
    if color.White? then 8 else -8
  }

  function PawnHome(color: Color): Coordinate {
    if color.White? then 1 else 6
  }

  function LastRank(color: Color): Coordinate {
    if color.White? then 7 else 0
  }

  function KingHome(color: Color): Square {
    if color.White? then E1 else E8
  }

  /** From and to squares of the rook in a castling move. */
  function CastleRookSquares(color: Color, flag: MoveFlag): (Square, Square)
    requires flag.IsCastle()
  {
    match (color, flag)
    case (White, KingCastle) => (H1, F1)
    case (White, QueenCastle) => (A1, D1)
    case (Black, KingCastle) => (H8, F8)
    case (Black, QueenCastle) => (A8, D8)
  }

  function CastleRight(color: Color, flag: MoveFlag): CastlingRights
    requires flag.IsCastle()
  {
    match (color, flag)
    case (White, KingCastle) => WHITE_KING
    case (White, QueenCastle) => WHITE_QUEEN
    case (Black, KingCastle) => BLACK_KING
    case (Black, QueenCastle) => BLACK_QUEEN
  }

  predicate HoldsEnemy(board: Board, s: Square, side: Color) {
    board[s].Some? && board[s].value.color == side.Flip()
  }

  /** The move captures the enemy king. Move generation emits such moves when that king is exposed. */
  predicate TakesKing(c: Core, mv: Move) {
    mv.flag.IsCapture() && Holds(c.board, mv.to, c.side.Flip(), King)
  }

  /**
   The facts about a move that `make_move` takes on trust from its caller. How the mover reaches
   its target (see `Reaches`) is no concern of the transition code, except for pawns and castling.
   */
  predicate Applicable(c: Core, mv: Move) {
    && c.board[mv.from].Some?
    && c.board[mv.from].value.color == c.side
    && var kind := c.board[mv.from].value.kind;
    && match mv.flag
       case Quiet =>
         c.board[mv.to].None? && (kind.Pawn? ==> 1 <= Rank(mv.to) <= 6)
       case Capture =>
         HoldsEnemy(c.board, mv.to, c.side) && (kind.Pawn? ==> 1 <= Rank(mv.to) <= 6)
       case DoublePush =>
         && kind.Pawn?
         && Rank(mv.from) == PawnHome(c.side)
         && mv.to == mv.from + 2 * Forward(c.side)
         && c.board[mv.from + Forward(c.side)].None?
         && c.board[mv.to].None?
       case EnPassant =>
         kind.Pawn? && c.ep == Some(mv.to)
       case KingCastle | QueenCastle =>
         var (rookFrom, rookTo) := CastleRookSquares(c.side, mv.flag);
         && HasRight(c.castling, CastleRight(c.side, mv.flag))
         && mv.from == KingHome(c.side)
         && mv.to == (if mv.flag.KingCastle? then mv.from + 2 else mv.from - 2)
         && c.board[mv.to].None?
         && c.board[rookTo].None?
       case KnightPromo | BishopPromo | RookPromo | QueenPromo =>
         kind.Pawn? && c.board[mv.to].None?
       case KnightPromoCapture | BishopPromoCapture | RookPromoCapture | QueenPromoCapture =>
         kind.Pawn? && HoldsEnemy(c.board, mv.to, c.side)
  }

  // ---- The position after a move ----

  /** The square a capture empties: behind the target for en passant, the target otherwise. */
  function CaptureSquare(c: Core, mv: Move): Square
    requires Sound(c) && Applicable(c, mv)
  {
    if mv.flag.EnPassant? then mv.to - Forward(c.side) else mv.to
  }

  /** What stands on the target afterwards: the mover, or the piece it promotes to. */
  function Landed(c: Core, mv: Move): Piece
    requires Applicable(c, mv)
  {
    if mv.flag.Promotion().Some? then Piece(c.side, mv.flag.Promotion().value) else c.board[mv.from].value
  }

  function Captured(c: Core, mv: Move): Option<Piece>
    requires Sound(c) && Applicable(c, mv)
  {
    if mv.flag.IsCapture() then c.board[CaptureSquare(c, mv)] else None
  }

  /** One shape for all fourteen flags: lift the mover and the victim, land, bring the rook across. */
  function NextBoard(c: Core, mv: Move): Board
    requires Sound(c) && Applicable(c, mv)
  {
    var lifted := c.board[mv.from := None];
    var taken := if mv.flag.IsCapture() then lifted[CaptureSquare(c, mv) := None] else lifted;
    var landed := taken[mv.to := Some(Landed(c, mv))];
    if mv.flag.IsCastle() then
      var (rookFrom, rookTo) := CastleRookSquares(c.side, mv.flag);
      landed[rookFrom := None][rookTo := Some(Piece(c.side, Rook))]
    else landed
  }

  /** Rights that survive a move touching `s`. */
  function CastlingMask(s: Square): CastlingRights {
    if s == A1 then 13
    else if s == H1 then 14
    else if s == E1 then 12
    else if s == A8 then 7
    else if s == H8 then 11
    else if s == E8 then 3
    else ALL_RIGHTS
  }

  function WithoutRight(rights: CastlingRights, right: CastlingRights): CastlingRights {
    rights & !right
  }

  /** `CASTLING_MASK`. */
  type CastlingTable = t: seq<CastlingRights> | |t| == 64 && forall s: Square :: t[s] == CastlingMask(s)
    witness seq(64, s requires 0 <= s < 64 => CastlingMask(s))

  /** `build_castling_mask`: a table of all rights, with six entries cut down. */
  method BuildCastlingMask() returns (table: CastlingTable)
    ensures |table| == 64 && forall s: Square :: table[s] == CastlingMask(s)
  {
    var mask := new CastlingRights[64](_ => ALL_RIGHTS);
    mask[A1] := WithoutRight(ALL_RIGHTS, WHITE_QUEEN);
    mask[H1] := WithoutRight(ALL_RIGHTS, WHITE_KING);
    mask[E1] := WithoutRight(WithoutRight(ALL_RIGHTS, WHITE_KING), WHITE_QUEEN);
    mask[A8] := WithoutRight(ALL_RIGHTS, BLACK_QUEEN);
    mask[H8] := WithoutRight(ALL_RIGHTS, BLACK_KING);
    mask[E8] := WithoutRight(WithoutRight(ALL_RIGHTS, BLACK_KING), BLACK_QUEEN);
    table := mask[..];
  }

  function NextCastling(rights: CastlingRights, mv: Move): CastlingRights {
    rights & CastlingMask(mv.from) & CastlingMask(mv.to)
  }

  /** Two reads of the table do it. */
  function MaskedRights(table: CastlingTable, rights: CastlingRights, mv: Move): (left: CastlingRights)
    ensures left == NextCastling(rights, mv)
  {
    rights & table[mv.from] & table[mv.to]
  }

  /** A double push leaves a target behind only if an enemy pawn could use it. */
  function NextEp(c: Core, mv: Move): Option<Square>
    requires Sound(c) && Applicable(c, mv)
  {
    if mv.flag.DoublePush? && EpCapturerExists(NextBoard(c, mv), c.side.Flip(), File(mv.from), Rank(mv.to))
    then Some(mv.from + Forward(c.side))
    else None
  }

  /** Saturating eight-bit increment. */
  function Tick(halfmove: U8): U8 {
    if halfmove == 0xFF then 0xFF else halfmove + 1
  }

  /** Sixteen-bit increment after Black's move; without overflow checks it wraps. */
  function NextFullmove(side: Color, fullmove: U16): U16 {
    if side.Black? then (fullmove + 1) % 0x1_0000 else fullmove
  }

  function Next(c: Core, mv: Move): Core
    requires Sound(c) && Applicable(c, mv)
  {
    Core(
      NextBoard(c, mv),
      c.side.Flip(),
      NextCastling(c.castling, mv),
      NextEp(c, mv),
      if c.board[mv.from].value.kind.Pawn? || mv.flag.IsCapture() then 0 else Tick(c.halfmove),
      NextFullmove(c.side, c.fullmove))
  }

  function NextNull(c: Core): Core {
    Core(c.board, c.side.Flip(), c.castling, None, Tick(c.halfmove), NextFullmove(c.side, c.fullmove))
  }
}
