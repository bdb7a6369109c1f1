/** Squares, pieces, boards, castling rights and moves: the vocabulary of a position. */
module Chess {
  import opened Wrappers

  // ---- Squares: 0 = a1, 7 = h1, 63 = h8 ----

  type Square = s: int | 0 <= s < 64

  type Coordinate = c: int | 0 <= c < 8

  function File(s: Square): Coordinate {
    s % 8
  }

  function Rank(s: Square): Coordinate {
    s / 8
  }

  function At(file: Coordinate, rank: Coordinate): Square {
    rank * 8 + file
  }

  function Distance(a: int, b: int): nat {
    if a < b then b - a else a - b
  }

  const A1: Square := 0
  const D1: Square := 3
  const E1: Square := 4
  const F1: Square := 5
  const H1: Square := 7
  const A8: Square := 56
  const D8: Square := 59
  const E8: Square := 60
  const F8: Square := 61
  const H8: Square := 63

  // ---- Machine integers ----

  type U8 = n: int | 0 <= n < 0x100
  type U16 = n: int | 0 <= n < 0x1_0000

  // ---- Pieces ----

  datatype Color = White | Black {
    function Flip(): Color {
      if White? then Black else White
    }

    function Index(): (i: nat)
      ensures i < 2
    {
      if White? then 0 else 1
    }
  }

  datatype PieceKind = Pawn | Knight | Bishop | Rook | Queen | King {
    function Index(): (i: nat)
      ensures i < 6
    {
      match this
      case Pawn => 0
      case Knight => 1
      case Bishop => 2
      case Rook => 3
      case Queen => 4
      case King => 5
    }
  }

  datatype Piece = Piece(color: Color, kind: PieceKind)

  /** `PieceKind::ALL`. */
  const KINDS: seq<PieceKind> := [Pawn, Knight, Bishop, Rook, Queen, King]

  const COLORS: seq<Color> := [White, Black]

  lemma PieceIndices(p: Piece)
    ensures COLORS[p.color.Index()] == p.color
    ensures KINDS[p.kind.Index()] == p.kind
  {}

  // ---- Boards ----

  type Cell = Option<Piece>

  type Board = b: seq<Cell> | |b| == 64 witness seq(64, _ => None)

  predicate Holds(board: Board, s: Square, color: Color, kind: PieceKind) {
    board[s] == Some(Piece(color, kind))
  }

  // ---- Castling rights: a four-bit set, in the order of the hash keys ----

  type CastlingRights = bv4

  const NO_RIGHTS: CastlingRights := 0
  const ALL_RIGHTS: CastlingRights := 15
  const WHITE_KING: CastlingRights := 1
  const WHITE_QUEEN: CastlingRights := 2
  const BLACK_KING: CastlingRights := 4
  const BLACK_QUEEN: CastlingRights := 8

  predicate HasRight(rights: CastlingRights, right: CastlingRights) {
    rights & right == right && right != 0
  }

  // ---- Moves ----

  datatype MoveFlag =
    | Quiet
    | DoublePush
    | KingCastle
    | QueenCastle
    | Capture
    | EnPassant
    | KnightPromo
    | BishopPromo
    | RookPromo
    | QueenPromo
    | KnightPromoCapture
    | BishopPromoCapture
    | RookPromoCapture
    | QueenPromoCapture
  {
    predicate IsPromoCapture() {
      KnightPromoCapture? || BishopPromoCapture? || RookPromoCapture? || QueenPromoCapture?
    }

    predicate IsCapture() {
      Capture? || EnPassant? || IsPromoCapture()
    }

    predicate IsCastle() {
      KingCastle? || QueenCastle?
    }

    function Promotion(): Option<PieceKind> {
      match this
      case KnightPromo | KnightPromoCapture => Some(Knight)
      case BishopPromo | BishopPromoCapture => Some(Bishop)
      case RookPromo | RookPromoCapture => Some(Rook)
      case QueenPromo | QueenPromoCapture => Some(Queen)
      case _ => None
    }
  }

  datatype Move = Move(from: Square, to: Square, flag: MoveFlag)

  // ---- The six recorded fields of a position ----

  /** What a FEN string records; every other field of a position is derived from these. */
  datatype Core = Core(
    board: Board,
    side: Color,
    castling: CastlingRights,
    ep: Option<Square>,
    halfmove: U8,
    fullmove: U16)
}
