/** The (middlegame, endgame, phase) triple as folds from scratch, and what one move does to it. */
module Evaluation {
  import opened Wrappers
  import opened Chess
  import opened Folds
  import opened Rules
  import opened Soundness

  function PhaseWeight(kind: PieceKind): nat {
    match kind
    case Pawn => 0
    case Knight => 1
    case Bishop => 1
    case Rook => 2
    case Queen => 4
    case King => 0
  }

  /** The phase weights as a table that ignores colour and square. */
  function PhaseTable(): Table {
    seq(2, _ => seq(6, k requires 0 <= k < 6 => seq(64, _ => PhaseWeight(KINDS[k]))))
  }

  lemma PhaseEntry(p: Piece, s: Square)
    ensures Entry(PhaseTable(), p, s) == PhaseWeight(p.kind)
  {
    PieceIndices(p);
  }

  /** The hash keys, the published piece-square tables, material included, and the castling masks. */
  datatype Tables = Tables(keys: Keys, mg: Table, eg: Table, castling: CastlingTable)

  // ---- One move ----

  /** What a move adds to the fold of `t`, flag by flag. */
  function Delta(t: Table, c: Core, mv: Move): int
    requires Sound(c) && Applicable(c, mv)
  {
    var mover := c.board[mv.from].value;
    var moved := Entry(t, Landed(c, mv), mv.to) - Entry(t, mover, mv.from);
    var taken := if mv.flag.IsCapture() then CellValue(t, Captured(c, mv), CaptureSquare(c, mv)) else 0;
    var castled :=
      if mv.flag.IsCastle() then
        var (rookFrom, rookTo) := CastleRookSquares(c.side, mv.flag);
        Entry(t, Piece(c.side, Rook), rookTo) - Entry(t, Piece(c.side, Rook), rookFrom)
      else 0;
    moved - taken + castled
  }

  lemma SumAfter(t: Table, c: Core, mv: Move)
    requires Sound(c) && Applicable(c, mv)
    ensures Sum(t, NextBoard(c, mv)) == Sum(t, c.board) + Delta(t, c, mv)
  {
    if mv.flag.IsCapture() { VictimIsEnemy(c, mv); }
    if mv.flag.IsCastle() { CastlingFacts(c, mv); }
    assert !mv.flag.IsCapture() ==> c.board[mv.to].None?;
    hide Sum, Entry, Sound, Applicable, CaptureSquare, Landed;
    var lifted := c.board[mv.from := None];
    SumUpdate(t, c.board, mv.from, None);
    if mv.flag.IsCapture() {
      var square := CaptureSquare(c, mv);
      SumUpdate(t, lifted, square, None);
      SumUpdate(t, lifted[square := None], mv.to, Some(Landed(c, mv)));
    } else {
      SumUpdate(t, lifted, mv.to, Some(Landed(c, mv)));
      if mv.flag.IsCastle() {
        var (rookFrom, rookTo) := CastleRookSquares(c.side, mv.flag);
        var landed := lifted[mv.to := Some(Landed(c, mv))];
        SumUpdate(t, landed, rookFrom, None);
        SumUpdate(t, landed[rookFrom := None], rookTo, Some(Piece(c.side, Rook)));
      }
    }
  }

  // ---- The phase fits a byte ----

  lemma {:induction false} PhaseTo(board: Board, kings: set<Square>, n: nat)
    requires n <= 64
    requires forall s :: s in kings ==> board[s].Some? && board[s].value.kind.King?
    ensures 0 <= SumTo(PhaseTable(), board, n) <= 4 * (n - |set s | s in kings && s < n|)
  {
    hide PhaseTable, Entry;
    if n == 0 {
      assert (set s | s in kings && s < n) == {};
    } else {
      PhaseTo(board, kings, n - 1);
      if board[n - 1].Some? { PhaseEntry(board[n - 1].value, n - 1); }
      var below := set s | s in kings && s < n - 1;
      assert (set s | s in kings && s < n) == if n - 1 in kings then below + {n - 1} else below;
    }
  }

  lemma PhaseAround(board: Board, kings: set<Square>)
    requires forall s :: s in kings ==> board[s].Some? && board[s].value.kind.King?
    ensures 0 <= Sum(PhaseTable(), board) <= 4 * (64 - |kings|)
  {
    hide PhaseTable;
    PhaseTo(board, kings, 64);
    assert (set s | s in kings && s < 64) == kings;
  }

  /** Sixty-two squares can hold a queen besides the two kings, and sixty-three besides one. */
  lemma PhaseFitsByte(board: Board)
    ensures OneKing(board, White) && OneKing(board, Black) ==> 0 <= Sum(PhaseTable(), board) <= 62 * 4
    ensures OneKing(board, White) || OneKing(board, Black) ==> 0 <= Sum(PhaseTable(), board) <= 63 * 4
  {
    hide PhaseTable, Sum;
    forall a: Square, b: Square | KingAt(board, White, a) && KingAt(board, Black, b)
      ensures 0 <= Sum(PhaseTable(), board) <= 62 * 4
    {
      assert Holds(board, a, White, King) && Holds(board, b, Black, King);
      PhaseAround(board, {a, b});
    }
    forall a: Square, color: Color | KingAt(board, color, a)
      ensures 0 <= Sum(PhaseTable(), board) <= 63 * 4
    {
      assert Holds(board, a, color, King);
      PhaseAround(board, {a});
    }
  }

  // ---- The two scores stay far from overflow ----

  const ENTRY_LIMIT := 0x100_0000

  ghost predicate Bounded(t: Table) {
    forall p: Piece, s: Square :: -ENTRY_LIMIT <= Entry(t, p, s) <= ENTRY_LIMIT
  }

  lemma {:induction false} SumToBounded(t: Table, board: Board, n: nat)
    requires Bounded(t) && n <= 64
    ensures -ENTRY_LIMIT * n <= SumTo(t, board, n) <= ENTRY_LIMIT * n
  {
    if n > 0 {
      SumToBounded(t, board, n - 1);
      if board[n - 1].Some? { assert Entry(t, board[n - 1].value, n - 1) <= ENTRY_LIMIT; }
      hide Entry;
    }
  }

  /** With table entries below 2^24 in size, no board's score leaves the 32-bit range. */
  lemma ScoreFitsWord(t: Table, board: Board)
    requires Bounded(t)
    ensures -0x8000_0000 <= Sum(t, board) < 0x8000_0000
  {
    SumToBounded(t, board, 64);
  }
}
