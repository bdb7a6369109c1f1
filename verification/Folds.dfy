/**
 Sums and exclusive-ors over a whole board.

 The hash, the pawn hash and the three evaluation accumulators are each one fold of a table over
 the occupied squares. The two update lemmas say what rewriting one square does to a fold, which
 is all that incremental maintenance relies on.
*/
module Folds {
  import opened Wrappers
  import opened Chess
  import opened Bitboards

  // ---- Tables ----

  /** One number for each colour, kind and square. */
  type Table = t: seq<seq<seq<int>>> |
      |t| == 2 && forall c :: 0 <= c < 2 ==> |t[c]| == 6 && forall k :: 0 <= k < 6 ==> |t[c][k]| == 64
    witness seq(2, _ => seq(6, _ => seq(64, _ => 0)))

  function Entry(t: Table, p: Piece, s: Square): int {
    t[p.color.Index()][p.kind.Index()][s]
  }

  /** The published Polyglot constants: 768 piece keys, 4 castling keys, 8 file keys, 1 turn key. */
  type Keys = k: seq<bv64> | |k| == 781 witness seq(781, _ => 0)

  // ---- Sums ----

  function CellValue(t: Table, cell: Cell, s: Square): int {
    if cell.None? then 0 else Entry(t, cell.value, s)
  }

  function SumTo(t: Table, board: Board, n: nat): int
    requires n <= 64
  {
    if n == 0 then 0 else SumTo(t, board, n - 1) + CellValue(t, board[n - 1], n - 1)
  }

  function Sum(t: Table, board: Board): int {
    SumTo(t, board, 64)
  }

  lemma {:induction false} SumToUpdate(t: Table, board: Board, s: Square, cell: Cell, n: nat)
    requires n <= 64
    ensures SumTo(t, board[s := cell], n)
         == SumTo(t, board, n) + if s < n then CellValue(t, cell, s) - CellValue(t, board[s], s) else 0
  {
    hide CellValue;
    if n > 0 {
      SumToUpdate(t, board, s, cell, n - 1);
    }
  }

  lemma SumUpdate(t: Table, board: Board, s: Square, cell: Cell)
    ensures Sum(t, board[s := cell]) == Sum(t, board) - CellValue(t, board[s], s) + CellValue(t, cell, s)
  {
    SumToUpdate(t, board, s, cell, 64);
  }

  // ---- Exclusive-ors ----

  function PieceKey(keys: Keys, p: Piece, s: Square): bv64 {
    keys[64 * (2 * p.kind.Index() + (1 - p.color.Index())) + s]
  }

  /** With `pawnsOnly` set, pieces other than pawns contribute nothing. */
  function CellKey(keys: Keys, pawnsOnly: bool, cell: Cell, s: Square): bv64 {
    if cell.None? || (pawnsOnly && !cell.value.kind.Pawn?) then 0 else PieceKey(keys, cell.value, s)
  }

  function XorTo(keys: Keys, pawnsOnly: bool, board: Board, n: nat): bv64
    requires n <= 64
  {
    if n == 0 then 0 else Xor(XorTo(keys, pawnsOnly, board, n - 1), CellKey(keys, pawnsOnly, board[n - 1], n - 1))
  }

  function XorAll(keys: Keys, pawnsOnly: bool, board: Board): bv64 {
    XorTo(keys, pawnsOnly, board, 64)
  }

  /** Rewriting one square toggles out the key of its old cell and toggles in that of its new one. */
  lemma {:induction false} XorToUpdate(keys: Keys, pawnsOnly: bool, board: Board, s: Square, cell: Cell, n: nat)
    requires n <= 64
    ensures XorTo(keys, pawnsOnly, board[s := cell], n)
         == if s < n
            then Xor(Xor(XorTo(keys, pawnsOnly, board, n), CellKey(keys, pawnsOnly, board[s], s)),
                     CellKey(keys, pawnsOnly, cell, s))
            else XorTo(keys, pawnsOnly, board, n)
  {
    hide Xor, CellKey;
    if n > 0 {
      XorToUpdate(keys, pawnsOnly, board, s, cell, n - 1);
      var before := XorTo(keys, pawnsOnly, board, n - 1);
      var out := CellKey(keys, pawnsOnly, board[s], s);
      var new_ := CellKey(keys, pawnsOnly, cell, s);
      if s == n - 1 {
        XorCancel(before, out);
      } else {
        var last := CellKey(keys, pawnsOnly, board[n - 1], n - 1);
        XorSwap(Xor(before, out), new_, last);
        XorSwap(before, out, last);
      }
    }
  }

  lemma XorUpdate(keys: Keys, pawnsOnly: bool, board: Board, s: Square, cell: Cell)
    ensures XorAll(keys, pawnsOnly, board[s := cell])
         == Xor(Xor(XorAll(keys, pawnsOnly, board), CellKey(keys, pawnsOnly, board[s], s)),
                CellKey(keys, pawnsOnly, cell, s))
  {
    XorToUpdate(keys, pawnsOnly, board, s, cell, 64);
  }
}
