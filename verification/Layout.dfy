/**
 Which of the 781 keys a position uses: the hashes select keys by number, one for each feature of the position.
*/
module Layout {
  import opened Wrappers
  import opened Chess
  import opened Bitboards
  import opened Folds
  import opened Rules
  import opened Zobrist

  /** The men in the order of their keys, 64 for each. */
  const MEN: seq<Piece> := [
    Piece(Black, Pawn), Piece(White, Pawn),
    Piece(Black, Knight), Piece(White, Knight),
    Piece(Black, Bishop), Piece(White, Bishop),
    Piece(Black, Rook), Piece(White, Rook),
    Piece(Black, Queen), Piece(White, Queen),
    Piece(Black, King), Piece(White, King)
  ]

  predicate UsesMan(board: Board, pawnsOnly: bool, i: nat) {
    i < (if pawnsOnly then 128 else 768) && board[i % 64] == Some(MEN[i / 64])
  }

  predicate Uses(c: Core, i: nat)
    requires i < 781
  {
    if i < 768 then UsesMan(c.board, false, i)
    else if i == 768 then HasRight(c.castling, WHITE_KING)
    else if i == 769 then HasRight(c.castling, WHITE_QUEEN)
    else if i == 770 then HasRight(c.castling, BLACK_KING)
    else if i == 771 then HasRight(c.castling, BLACK_QUEEN)
    else if i < 780 then c.ep.Some? && File(c.ep.value) == i - 772
    else c.side.White?
  }

  /** The keys below `n` that a test selects, toggled together. */
  function Selected(keys: Keys, uses: int -> bool, n: nat): bv64
    requires n <= 781
  {
    if n == 0 then 0 else Xor(Selected(keys, uses, n - 1), if uses(n - 1) then keys[n - 1] else 0)
  }

  // ---- Hashes are linear in the keys ----

  function Mixed(a: Keys, b: Keys): Keys {
    seq(781, i requires 0 <= i < 781 => Xor(a[i], b[i]))
  }

  lemma MixedPairs(a: bv64, b: bv64, c: bv64, d: bv64)
    ensures Xor(Xor(a, b), Xor(c, d)) == Xor(Xor(a, c), Xor(b, d))
  {
    hide Xor;
    XorAssociates(Xor(a, b), c, d);
    XorSwap(a, b, c);
    XorAssociates(Xor(a, c), b, d);
  }

  lemma {:induction false} PiecesLinear(a: Keys, b: Keys, pawnsOnly: bool, board: Board, n: nat)
    requires n <= 64
    ensures XorTo(Mixed(a, b), pawnsOnly, board, n)
         == Xor(XorTo(a, pawnsOnly, board, n), XorTo(b, pawnsOnly, board, n))
  {
    XorZero(0);
    if n > 0 {
      PiecesLinear(a, b, pawnsOnly, board, n - 1);
      CellLinear(a, b, pawnsOnly, board[n - 1], n - 1);
      hide Xor, CellKey, Mixed;
      MixedPairs(XorTo(a, pawnsOnly, board, n - 1), XorTo(b, pawnsOnly, board, n - 1),
                 CellKey(a, pawnsOnly, board[n - 1], n - 1), CellKey(b, pawnsOnly, board[n - 1], n - 1));
    }
  }

  lemma CellLinear(a: Keys, b: Keys, pawnsOnly: bool, cell: Cell, s: Square)
    ensures CellKey(Mixed(a, b), pawnsOnly, cell, s) == Xor(CellKey(a, pawnsOnly, cell, s), CellKey(b, pawnsOnly, cell, s))
  {
    XorZero(0);
    hide Xor;
  }

  lemma HeldLinear(a: Keys, b: Keys, rights: CastlingRights, right: CastlingRights)
    ensures HeldKey(Mixed(a, b), rights, right) == Xor(HeldKey(a, rights, right), HeldKey(b, rights, right))
  {
    XorZero(0);
    hide Xor;
  }

  lemma RightsLinear(a: Keys, b: Keys, rights: CastlingRights)
    ensures CastlingKeys(Mixed(a, b), rights) == Xor(CastlingKeys(a, rights), CastlingKeys(b, rights))
  {
    HeldLinear(a, b, rights, WHITE_KING);
    HeldLinear(a, b, rights, WHITE_QUEEN);
    HeldLinear(a, b, rights, BLACK_KING);
    HeldLinear(a, b, rights, BLACK_QUEEN);
    hide Xor, HeldKey, Mixed;
      var (a1, a2, a3, a4) := (HeldKey(a, rights, WHITE_KING), HeldKey(a, rights, WHITE_QUEEN),
                                                       HeldKey(a, rights, BLACK_KING), HeldKey(a, rights, BLACK_QUEEN));
    var (b1, b2, b3, b4) := (HeldKey(b, rights, WHITE_KING), HeldKey(b, rights, WHITE_QUEEN),
                             HeldKey(b, rights, BLACK_KING), HeldKey(b, rights, BLACK_QUEEN));
    MixedPairs(a1, b1, a2, b2);
    MixedPairs(Xor(a1, a2), Xor(b1, b2), a3, b3);
    MixedPairs(Xor(Xor(a1, a2), a3), Xor(Xor(b1, b2), b3), a4, b4);
  }

  lemma TailLinear(a: Keys, b: Keys, c: Core)
    ensures EpKey(Mixed(a, b), EpFileToHash(c)) == Xor(EpKey(a, EpFileToHash(c)), EpKey(b, EpFileToHash(c)))
    ensures TurnKey(Mixed(a, b), c.side) == Xor(TurnKey(a, c.side), TurnKey(b, c.side))
  {
    XorZero(0);
    hide Xor, EpFileToHash;
  }

  lemma HashLinear(a: Keys, b: Keys, c: Core)
    ensures HashOf(Mixed(a, b), c) == Xor(HashOf(a, c), HashOf(b, c))
  {
    PiecesLinear(a, b, false, c.board, 64);
    RightsLinear(a, b, c.castling);
    TailLinear(a, b, c);
    hide Xor, XorTo, CastlingKeys, EpKey, EpFileToHash, TurnKey, Mixed;
    var file := EpFileToHash(c);
    MixedPairs(XorAll(a, false, c.board), XorAll(b, false, c.board), CastlingKeys(a, c.castling), CastlingKeys(b, c.castling));
    MixedPairs(Xor(XorAll(a, false, c.board), CastlingKeys(a, c.castling)),
               Xor(XorAll(b, false, c.board), CastlingKeys(b, c.castling)), EpKey(a, file), EpKey(b, file));
    MixedPairs(Xor(Xor(XorAll(a, false, c.board), CastlingKeys(a, c.castling)), EpKey(a, file)),
               Xor(Xor(XorAll(b, false, c.board), CastlingKeys(b, c.castling)), EpKey(b, file)),
               TurnKey(a, c.side), TurnKey(b, c.side));
  }

  // ---- One key at a time ----

  /** The keys with all but one of them put to zero. */
  function Sole(keys: Keys, i: nat): Keys {
    seq(781, j requires 0 <= j < 781 => if j == i then keys[j] else 0)
  }

  lemma ManKey(p: Piece, s: Square, i: nat)
    requires i < 781
    ensures 64 * (2 * p.kind.Index() + (1 - p.color.Index())) + s == i <==> i < 768 && i % 64 == s && MEN[i / 64] == p
    ensures p.kind.Pawn? <==> 64 * (2 * p.kind.Index() + (1 - p.color.Index())) + s < 128
  {
    var row := 2 * p.kind.Index() + (1 - p.color.Index());
    assert row < 12 && MEN[row] == p;
    assert forall n: nat :: n < 12 && MEN[n] == p ==> n == row;
    Halves(row, s, i);
  }

  lemma Halves(row: nat, s: Square, i: nat)
    ensures 64 * row + s == i <==> i % 64 == s && i / 64 == row
  {}

  lemma SoleCell(keys: Keys, pawnsOnly: bool, cell: Cell, s: Square, i: nat)
    requires i < 781
    ensures CellKey(Sole(keys, i), pawnsOnly, cell, s)
         == if i < (if pawnsOnly then 128 else 768) && i % 64 == s && cell == Some(MEN[i / 64]) then keys[i] else 0
  {
    if cell.Some? { ManKey(cell.value, s, i); }
  }

  lemma {:induction false} SoleMan(keys: Keys, pawnsOnly: bool, board: Board, i: nat, n: nat)
    requires i < 781 && n <= 64
    ensures XorTo(Sole(keys, i), pawnsOnly, board, n)
         == if UsesMan(board, pawnsOnly, i) && i % 64 < n then keys[i] else 0
  {
    if n > 0 {
      SoleMan(keys, pawnsOnly, board, i, n - 1);
      SoleCell(keys, pawnsOnly, board[n - 1], n - 1, i);
      hide Xor, CellKey, Sole;
      XorZero(XorTo(Sole(keys, i), pawnsOnly, board, n - 1));
      XorZero(CellKey(Sole(keys, i), pawnsOnly, board[n - 1], n - 1));
    }
  }

  /** On a sound position a target counts exactly when there is one: somebody can always use it. */
  lemma TargetCounts(c: Core)
    requires Sound(c)
    ensures EpFileToHash(c) == if c.ep.Some? then Some(File(c.ep.value)) else None
  {}

  lemma SoleRight(keys: Keys, rights: CastlingRights, right: CastlingRights, i: nat)
    requires i < 781
    ensures HeldKey(Sole(keys, i), rights, right)
         == if i == 768 + RightIndex(right) && HasRight(rights, right) then keys[i] else 0
  {}

  lemma SoleRights(keys: Keys, c: Core, i: nat)
    requires i < 781
    ensures CastlingKeys(Sole(keys, i), c.castling) == if 768 <= i < 772 && Uses(c, i) then keys[i] else 0
  {
    SoleRight(keys, c.castling, WHITE_KING, i);
    SoleRight(keys, c.castling, WHITE_QUEEN, i);
    SoleRight(keys, c.castling, BLACK_KING, i);
    SoleRight(keys, c.castling, BLACK_QUEEN, i);
    XorZero(keys[i]);
    XorZero(0);
    hide Xor, UsesMan, HasRight, HeldKey, Sole;
  }

  lemma SoleTail(keys: Keys, c: Core, i: nat)
    requires Sound(c) && i < 781
    ensures EpKey(Sole(keys, i), EpFileToHash(c)) == if 772 <= i < 780 && Uses(c, i) then keys[i] else 0
    ensures TurnKey(Sole(keys, i), c.side) == if i == 780 && Uses(c, i) then keys[i] else 0
  {
    TargetCounts(c);
    hide Sound, UsesMan, HasRight, EpFileToHash;
  }

  lemma SoleHash(keys: Keys, c: Core, i: nat)
    requires Sound(c) && i < 781
    ensures HashOf(Sole(keys, i), c) == if Uses(c, i) then keys[i] else 0
  {
    SoleMan(keys, false, c.board, i, 64);
    SoleRights(keys, c, i);
    SoleTail(keys, c, i);
    assert UsesMan(c.board, false, i) <==> i < 768 && Uses(c, i);
    XorZero(keys[i]);
    XorZero(0);
    hide Sound, Xor, Uses, UsesMan, XorTo, EpFileToHash, CastlingKeys, EpKey, TurnKey, Sole;
  }

  // ---- All keys ----

  function Upto(keys: Keys, n: nat): Keys {
    seq(781, j requires 0 <= j < 781 => if j < n then keys[j] else 0)
  }

  lemma OneMore(keys: Keys, n: nat)
    requires n < 781
    ensures Upto(keys, n + 1) == Mixed(Upto(keys, n), Sole(keys, n))
  {
    XorZero(keys[n]);
    forall j: nat | j < 781
      ensures Upto(keys, n + 1)[j] == Mixed(Upto(keys, n), Sole(keys, n))[j]
    {
      XorZero(keys[j]);
      XorZero(0);
    }
  }

  lemma {:induction false} HashUpto(keys: Keys, c: Core, n: nat)
    requires Sound(c) && n <= 781
    ensures HashOf(Upto(keys, n), c) == Selected(keys, i => 0 <= i < 781 && Uses(c, i), n)
  {
    hide Sound, HashOf, Uses, Xor, Upto, Sole, Mixed;
    if n == 0 {
      NoKeys(keys);
      SoleHash(Upto(keys, 0), c, 780);
    } else {
      HashUpto(keys, c, n - 1);
      OneMore(keys, n - 1);
      HashLinear(Upto(keys, n - 1), Sole(keys, n - 1), c);
      SoleHash(keys, c, n - 1);
    }
  }

  lemma NoKeys(keys: Keys)
    ensures Upto(keys, 0) == Sole(Upto(keys, 0), 780) && Upto(keys, 0)[780] == 0
    ensures Upto(keys, 781) == keys
  {}

  lemma {:induction false} PawnsUpto(keys: Keys, board: Board, n: nat)
    requires n <= 781
    ensures PawnHashOf(Upto(keys, n), board) == Selected(keys, i => 0 <= i < 781 && UsesMan(board, true, i), n)
  {
    hide XorTo, UsesMan, Xor, Upto, Sole, Mixed;
    if n == 0 {
      NoKeys(keys);
      SoleMan(Upto(keys, 0), true, board, 780, 64);
    } else {
      PawnsUpto(keys, board, n - 1);
      OneMore(keys, n - 1);
      PiecesLinear(Upto(keys, n - 1), Sole(keys, n - 1), true, board, 64);
      SoleMan(keys, true, board, n - 1, 64);
    }
  }

  /**
   The hash of a sound position is made of the keys of its men, of the rights held, of the target's file,
   and of the last key when White is to move.
   */
  lemma HashSelects(keys: Keys, c: Core)
    requires Sound(c)
    ensures HashOf(keys, c) == Selected(keys, i => 0 <= i < 781 && Uses(c, i), 781)
  {
    HashUpto(keys, c, 781);
    NoKeys(keys);
    hide Sound, HashOf, Uses, Upto;
  }

  /** And the pawn hash of the first 128, those of the pawns. */
  lemma PawnHashSelects(keys: Keys, board: Board)
    ensures PawnHashOf(keys, board) == Selected(keys, i => 0 <= i < 781 && UsesMan(board, true, i), 781)
  {
    PawnsUpto(keys, board, 781);
    NoKeys(keys);
    hide XorTo, UsesMan, Upto;
  }

  /** Sound positions that use the same keys differ at most in their counters. */
  lemma KeysDetermine(c: Core, d: Core)
    requires Sound(c) && Sound(d)
    requires forall i: nat :: i < 781 ==> Uses(c, i) == Uses(d, i)
    ensures c.board == d.board && c.side == d.side && c.ep == d.ep
    ensures forall right :: right in {WHITE_KING, WHITE_QUEEN, BLACK_KING, BLACK_QUEEN} ==>
                              HasRight(c.castling, right) == HasRight(d.castling, right)
  {
    forall s: Square
      ensures c.board[s] == d.board[s]
    {
      SameCell(c, d, s);
      SameCell(d, c, s);
    }
    assert Uses(c, 768) == Uses(d, 768) && Uses(c, 769) == Uses(d, 769) && Uses(c, 770) == Uses(d, 770);
    assert Uses(c, 771) == Uses(d, 771) && Uses(c, 780) == Uses(d, 780);
    SameTarget(c, d);
    SameTarget(d, c);
    TargetRank(c);
    TargetRank(d);
    hide Sound, HasRight, UsesMan;
    if c.ep.Some? && d.ep.Some? { SquareOf(c.ep.value, d.ep.value); }
  }

  lemma SquareOf(a: Square, b: Square)
    requires File(a) == File(b) && Rank(a) == Rank(b)
    ensures a == b
  {}

  lemma TargetRank(c: Core)
    requires Sound(c)
    ensures c.ep.Some? ==> Rank(c.ep.value) == if c.side.White? then 5 else 2
  {}

  lemma SameTarget(c: Core, d: Core)
    requires forall i: nat :: i < 781 ==> Uses(c, i) == Uses(d, i)
    ensures c.ep.Some? ==> d.ep.Some? && File(d.ep.value) == File(c.ep.value)
  {
    if c.ep.Some? { assert Uses(c, 772 + File(c.ep.value)); }
  }

  lemma SameCell(c: Core, d: Core, s: Square)
    requires forall i: nat :: i < 781 ==> Uses(c, i) == Uses(d, i)
    ensures c.board[s].Some? ==> d.board[s] == c.board[s]
  {
    if c.board[s].Some? {
      var p := c.board[s].value;
      var i := 64 * (2 * p.kind.Index() + (1 - p.color.Index())) + s;
      ManKey(p, s, i);
      assert Uses(c, i);
      assert Uses(d, i);
    }
  }

  /** Passing the turn drops the target's key and toggles the last one; every other key stays as it was. */
  lemma KeysAfterNull(c: Core, i: nat)
    requires i < 781
    ensures Uses(NextNull(c), i) <==> if i == 780 then !Uses(c, i) else i < 772 && Uses(c, i)
  {
    hide HasRight, UsesMan;
  }
}
