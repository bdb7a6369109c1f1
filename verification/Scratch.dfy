/**
 The routines that recompute a position's caches from nothing. They visit pieces in an order of
 their own (kind by kind, colour by colour, lowest bit first), yet compute the folds over squares
 that the incremental updates maintain.
*/
module Scratch {
  import opened Wrappers
  import opened Chess
  import opened Bitboards
  import opened Folds
  import opened Rules
  import opened Zobrist
  import opened Evaluation
  import opened Positions

  // ---- Splitting a sum by piece ----

  /** The part of a sum that one kind of piece contributes. */
  function PieceSum(t: Table, board: Board, p: Piece, n: nat): int
    requires n <= 64
  {
    if n == 0 then 0
    else PieceSum(t, board, p, n - 1) + if board[n - 1] == Some(p) then Entry(t, p, n - 1) else 0
  }

  /** The twelve pieces in the order the evaluation loop visits them. */
  function NthPiece(m: nat): Piece
    requires m < 12
  {
    Piece(COLORS[m % 2], KINDS[m / 2])
  }

  function PartSum(t: Table, board: Board, m: nat, n: nat): int
    requires m <= 12 && n <= 64
  {
    if m == 0 then 0 else PartSum(t, board, m - 1, n) + PieceSum(t, board, NthPiece(m - 1), n)
  }

  lemma NthPieceIs(p: Piece, m: nat)
    requires m < 12
    ensures NthPiece(m) == p <==> m == 2 * p.kind.Index() + p.color.Index()
  {
    PieceIndices(p);
  }

  /** What a cell adds to the sum over the first `m` kinds of piece. */
  function EntryOfFirst(t: Table, cell: Cell, s: Square, m: nat): int {
    if cell.Some? && 2 * cell.value.kind.Index() + cell.value.color.Index() < m then Entry(t, cell.value, s) else 0
  }

  lemma {:induction false} PartSumStep(t: Table, board: Board, m: nat, n: nat)
    requires m <= 12 && 0 < n <= 64
    ensures PartSum(t, board, m, n) == PartSum(t, board, m, n - 1) + EntryOfFirst(t, board[n - 1], n - 1, m)
  {
    if m > 0 {
      PartSumStep(t, board, m - 1, n);
      if board[n - 1].Some? { NthPieceIs(board[n - 1].value, m - 1); }
      hide NthPiece, Entry;
    }
  }

  lemma {:induction false} PartSumZero(t: Table, board: Board, m: nat)
    requires m <= 12
    ensures PartSum(t, board, m, 0) == 0
  {
    if m > 0 { PartSumZero(t, board, m - 1); }
  }

  /** Summing piece by piece and summing square by square agree. */
  lemma {:induction false} SumByPiece(t: Table, board: Board, n: nat)
    requires n <= 64
    ensures PartSum(t, board, 12, n) == SumTo(t, board, n)
  {
    if n == 0 {
      PartSumZero(t, board, 12);
    } else {
      SumByPiece(t, board, n - 1);
      PartSumStep(t, board, 12, n);
      hide Entry;
    }
  }

  lemma {:induction false} PieceSumSkips(t: Table, board: Board, p: Piece, n: nat, m: nat)
    requires n <= m <= 64
    requires forall s: Square :: n <= s < m ==> board[s] != Some(p)
    ensures PieceSum(t, board, p, m) == PieceSum(t, board, p, n)
  {
    if n < m { PieceSumSkips(t, board, p, n, m - 1); }
  }

  /** Adds up one kind of piece by draining its bitboard. */
  method SumPiece(pos: Position, p: Piece) returns (mg: int, eg: int, phase: int)
    requires pos.Agree()
    ensures mg == PieceSum(pos.tables.mg, pos.mailbox, p, 64)
    ensures eg == PieceSum(pos.tables.eg, pos.mailbox, p, 64)
    ensures phase == PieceSum(PhaseTable(), pos.mailbox, p, 64)
  {
    mg, eg, phase := 0, 0, 0;
    var bits := pos.PiecesColored(p.color, p.kind);
    pos.PiecesColoredAt(p.color, p.kind);
    hide Contains, DropLowest, LowestFrom, PhaseTable, Entry, PieceSum;
    NothingBelow(pos.tables, pos.mailbox, p);
    ghost var n := 0;
    while bits != 0
      invariant 0 <= n <= 64
      invariant forall s: Square :: Contains(bits, s) <==> n <= s && Holds(pos.mailbox, s, p.color, p.kind)
      invariant mg == PieceSum(pos.tables.mg, pos.mailbox, p, n)
      invariant eg == PieceSum(pos.tables.eg, pos.mailbox, p, n)
      invariant phase == PieceSum(PhaseTable(), pos.mailbox, p, n)
      decreases 64 - n
    {
      PopContains(bits);
      var s: Square := LowestFrom(bits, 0);
      assert Contains(bits, s);
      Reach3(pos.tables, pos.mailbox, p, n, s);
      mg := mg + Entry(pos.tables.mg, p, s);
      eg := eg + Entry(pos.tables.eg, p, s);
      phase := phase + PhaseWeight(p.kind);
      bits := DropLowest(bits);
      n := s + 1;
    }
    EmptyContains();
    assert forall s: Square :: n <= s < 64 ==> !Holds(pos.mailbox, s, p.color, p.kind);
    Skip3(pos.tables, pos.mailbox, p, n, 64);
  }

  lemma NothingBelow(t: Tables, board: Board, p: Piece)
    ensures PieceSum(t.mg, board, p, 0) == 0
    ensures PieceSum(t.eg, board, p, 0) == 0
    ensures PieceSum(PhaseTable(), board, p, 0) == 0
  {}

  /** The next piece of its kind after square `n` adds its own entries and nothing else. */
  lemma Reach3(t: Tables, board: Board, p: Piece, n: nat, s: Square)
    requires n <= s && Holds(board, s, p.color, p.kind)
    requires forall q: Square :: n <= q < s ==> !Holds(board, q, p.color, p.kind)
    ensures PieceSum(t.mg, board, p, s + 1)
         == PieceSum(t.mg, board, p, n) + Entry(t.mg, p, s)
    ensures PieceSum(t.eg, board, p, s + 1)
         == PieceSum(t.eg, board, p, n) + Entry(t.eg, p, s)
    ensures PieceSum(PhaseTable(), board, p, s + 1)
         == PieceSum(PhaseTable(), board, p, n) + PhaseWeight(p.kind)
  {
    hide Entry, PhaseTable;
    Skip3(t, board, p, n, s);
    PhaseEntry(p, s);
    assert board[s] == Some(p);
  }

  lemma Skip3(t: Tables, board: Board, p: Piece, n: nat, m: nat)
    requires n <= m <= 64
    requires forall s: Square :: n <= s < m ==> !Holds(board, s, p.color, p.kind)
    ensures PieceSum(t.mg, board, p, m) == PieceSum(t.mg, board, p, n)
    ensures PieceSum(t.eg, board, p, m) == PieceSum(t.eg, board, p, n)
    ensures PieceSum(PhaseTable(), board, p, m) == PieceSum(PhaseTable(), board, p, n)
  {
    forall s: Square | n <= s < m
      ensures board[s] != Some(p)
    {
      assert !Holds(board, s, p.color, p.kind);
    }
    PieceSumSkips(t.mg, board, p, n, m);
    PieceSumSkips(t.eg, board, p, n, m);
    PieceSumSkips(PhaseTable(), board, p, n, m);
  }

  /** Adds both colours of one kind. */
  method SumKind(pos: Position, i: nat, mg0: int, eg0: int, phase0: int) returns (mg: int, eg: int, phase: int)
    requires pos.Agree() && i < 6
    requires mg0 == PartSum(pos.tables.mg, pos.mailbox, 2 * i, 64)
    requires eg0 == PartSum(pos.tables.eg, pos.mailbox, 2 * i, 64)
    requires phase0 == PartSum(PhaseTable(), pos.mailbox, 2 * i, 64)
    ensures mg == PartSum(pos.tables.mg, pos.mailbox, 2 * i + 2, 64)
    ensures eg == PartSum(pos.tables.eg, pos.mailbox, 2 * i + 2, 64)
    ensures phase == PartSum(PhaseTable(), pos.mailbox, 2 * i + 2, 64)
  {
    hide PhaseTable, PieceSum, KindsAgree, ColorsAgree, NthPiece;
    mg, eg, phase := mg0, eg0, phase0;
    for j := 0 to 2
      invariant mg == PartSum(pos.tables.mg, pos.mailbox, 2 * i + j, 64)
      invariant eg == PartSum(pos.tables.eg, pos.mailbox, 2 * i + j, 64)
      invariant phase == PartSum(PhaseTable(), pos.mailbox, 2 * i + j, 64)
    {
      NthPieceIs(Piece(COLORS[j], KINDS[i]), 2 * i + j);
      var a, b, c := SumPiece(pos, Piece(COLORS[j], KINDS[i]));
      mg, eg, phase := mg + a, eg + b, phase + c;
    }
  }

  /** `eval_state_from_scratch`. */
  method EvalStateFromScratch(pos: Position) returns (mg: int, eg: int, phase: U8)
    requires pos.Agree()
    requires OneKing(pos.mailbox, White) && OneKing(pos.mailbox, Black)
    ensures mg == Sum(pos.tables.mg, pos.mailbox)
    ensures eg == Sum(pos.tables.eg, pos.mailbox)
    ensures phase == Sum(PhaseTable(), pos.mailbox)
  {
    hide PhaseTable, KingAt, KindsAgree, ColorsAgree, NthPiece;
    var total := 0;
    mg, eg := 0, 0;
    for i := 0 to 6
      invariant mg == PartSum(pos.tables.mg, pos.mailbox, 2 * i, 64)
      invariant eg == PartSum(pos.tables.eg, pos.mailbox, 2 * i, 64)
      invariant total == PartSum(PhaseTable(), pos.mailbox, 2 * i, 64)
    {
      mg, eg, total := SumKind(pos, i, mg, eg, total);
    }
    SumByPiece(pos.tables.mg, pos.mailbox, 64);
    SumByPiece(pos.tables.eg, pos.mailbox, 64);
    SumByPiece(PhaseTable(), pos.mailbox, 64);
    PhaseFitsByte(pos.mailbox);
    phase := total;
  }

  // ---- Splitting the pawn hash by colour ----

  function PawnXor(keys: Keys, board: Board, color: Color, n: nat): bv64
    requires n <= 64
  {
    if n == 0 then 0
    else if Holds(board, n - 1, color, Pawn)
    then Xor(PawnXor(keys, board, color, n - 1), PieceKey(keys, Piece(color, Pawn), n - 1))
    else PawnXor(keys, board, color, n - 1)
  }

  lemma {:induction false} PawnsByColor(keys: Keys, board: Board, n: nat)
    requires n <= 64
    ensures Xor(PawnXor(keys, board, White, n), PawnXor(keys, board, Black, n)) == XorTo(keys, true, board, n)
  {
    hide Xor, PieceKey;
    if n == 0 {
      XorZero(0);
    } else {
      PawnsByColor(keys, board, n - 1);
      var white := PawnXor(keys, board, White, n - 1);
      var black := PawnXor(keys, board, Black, n - 1);
      XorZero(XorTo(keys, true, board, n - 1));
      if board[n - 1].Some? {
        var p := board[n - 1].value;
        assert board[n - 1] == Some(Piece(p.color, p.kind)) && (p.color.White? || p.color.Black?);
      }
      if Holds(board, n - 1, White, Pawn) {
        XorSwap(white, PieceKey(keys, Piece(White, Pawn), n - 1), black);
      } else if Holds(board, n - 1, Black, Pawn) {
        XorAssociates(white, black, PieceKey(keys, Piece(Black, Pawn), n - 1));
      }
    }
  }

  lemma {:induction false} PawnXorSkips(keys: Keys, board: Board, color: Color, n: nat, m: nat)
    requires n <= m <= 64
    requires forall s: Square :: n <= s < m ==> !Holds(board, s, color, Pawn)
    ensures PawnXor(keys, board, color, m) == PawnXor(keys, board, color, n)
  {
    if n < m { PawnXorSkips(keys, board, color, n, m - 1); }
  }

  /** The next pawn after square `n` adds its own key and nothing else. */
  lemma PawnXorReaches(keys: Keys, board: Board, color: Color, n: nat, s: Square)
    requires n <= s && Holds(board, s, color, Pawn)
    requires forall q: Square :: n <= q < s ==> !Holds(board, q, color, Pawn)
    ensures PawnXor(keys, board, color, s + 1)
         == Xor(PawnXor(keys, board, color, n), PieceKey(keys, Piece(color, Pawn), s))
  {
    hide Xor, PieceKey;
    PawnXorSkips(keys, board, color, n, s);
  }

  /** Toggles the keys of one side's pawns into `start` by draining their bitboard. */
  method TogglePawns(pos: Position, color: Color, start: bv64) returns (z: bv64)
    requires pos.Agree()
    ensures z == Xor(start, PawnXor(pos.tables.keys, pos.mailbox, color, 64))
  {
    var bits := pos.PiecesColored(color, Pawn);
    pos.PiecesColoredAt(color, Pawn);
    assert PawnXor(pos.tables.keys, pos.mailbox, color, 0) == 0;
    hide Contains, DropLowest, LowestFrom, Xor, PieceKey, PawnXor;
    z := start;
    ghost var n := 0;
    XorZero(start);
    while bits != 0
      invariant 0 <= n <= 64
      invariant forall s: Square :: Contains(bits, s) <==> n <= s && Holds(pos.mailbox, s, color, Pawn)
      invariant z == Xor(start, PawnXor(pos.tables.keys, pos.mailbox, color, n))
      decreases 64 - n
    {
      PopContains(bits);
      var s: Square := LowestFrom(bits, 0);
      assert Contains(bits, s);
      PawnXorReaches(pos.tables.keys, pos.mailbox, color, n, s);
      XorAssociates(start, PawnXor(pos.tables.keys, pos.mailbox, color, n),
                    PieceKey(pos.tables.keys, Piece(color, Pawn), s));
      z := Xor(z, PieceKey(pos.tables.keys, Piece(color, Pawn), s));
      bits := DropLowest(bits);
      n := s + 1;
    }
    EmptyContains();
    assert forall s: Square :: n <= s < 64 ==> !Holds(pos.mailbox, s, color, Pawn);
    PawnXorSkips(pos.tables.keys, pos.mailbox, color, n, 64);
  }

  /** `pawn_zobrist_from_scratch`. */
  method PawnHashFromScratch(pos: Position) returns (z: bv64)
    requires pos.Agree()
    ensures z == PawnHashOf(pos.tables.keys, pos.mailbox)
  {
    hide Xor, PawnXor;
    z := TogglePawns(pos, White, 0);
    XorZero(PawnXor(pos.tables.keys, pos.mailbox, White, 64));
    z := TogglePawns(pos, Black, z);
    PawnsByColor(pos.tables.keys, pos.mailbox, 64);
  }

  // ---- The hash ----

  /** `zobrist::from_scratch`. */
  method HashFromScratch(pos: Position) returns (h: bv64)
    requires pos.Agree()
    ensures h == HashOf(pos.tables.keys, pos.Recorded())
  {
    hide Xor, PieceKey, HasRight, CastlingKey, Contains, EpFileToHash;
    ghost var keys := pos.tables.keys;
    h := 0;
    for s := 0 to 64
      invariant h == XorTo(keys, false, pos.mailbox, s)
    {
      XorZero(h);
      if pos.mailbox[s].Some? {
        h := Xor(h, PieceKey(pos.tables.keys, pos.mailbox[s].value, s));
      }
    }
    h := ToggleHeld(pos, h);
    var file := pos.EpFile();
    XorZero(h);
    if file.Some? {
      h := Xor(h, pos.tables.keys[772 + file.value]);
    }
    XorZero(h);
    if pos.side.White? {
      h := Xor(h, pos.tables.keys[780]);
    }
  }

  method ToggleHeld(pos: Position, start: bv64) returns (h: bv64)
    ensures h == Xor(start, CastlingKeys(pos.tables.keys, pos.castling))
  {
    hide Xor, HeldKey;
    ghost var k0 := HeldKey(pos.tables.keys, pos.castling, WHITE_KING);
    ghost var k1 := HeldKey(pos.tables.keys, pos.castling, WHITE_QUEEN);
    ghost var k2 := HeldKey(pos.tables.keys, pos.castling, BLACK_KING);
    ghost var k3 := HeldKey(pos.tables.keys, pos.castling, BLACK_QUEEN);
    h := ToggleIfHeld(pos, start, WHITE_KING);
    h := ToggleIfHeld(pos, h, WHITE_QUEEN);
    h := ToggleIfHeld(pos, h, BLACK_KING);
    h := ToggleIfHeld(pos, h, BLACK_QUEEN);
    XorAssociates(start, k0, k1);
    XorAssociates(start, Xor(k0, k1), k2);
    XorAssociates(start, Xor(Xor(k0, k1), k2), k3);
  }

  method ToggleIfHeld(pos: Position, h: bv64, right: CastlingRights) returns (r: bv64)
    ensures r == Xor(h, HeldKey(pos.tables.keys, pos.castling, right))
  {
    hide Xor, HasRight, CastlingKey;
    XorZero(h);
    r := if HasRight(pos.castling, right) then Xor(h, CastlingKey(pos.tables.keys, right)) else h;
  }
}
