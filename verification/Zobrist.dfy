/** The two hashes of a position as folds from scratch, and what one move does to them. */
module Zobrist {
  import opened Wrappers
  import opened Chess
  import opened Bitboards
  import opened Folds
  import opened Rules
  import opened Soundness

  // ---- From scratch ----

  function RightIndex(right: CastlingRights): (i: nat)
    ensures i < 4
  {
    if right == WHITE_KING then 0 else if right == WHITE_QUEEN then 1 else if right == BLACK_KING then 2 else 3
  }

  function CastlingKey(keys: Keys, right: CastlingRights): bv64 {
    keys[768 + RightIndex(right)]
  }

  function HeldKey(keys: Keys, rights: CastlingRights, right: CastlingRights): bv64 {
    if HasRight(rights, right) then CastlingKey(keys, right) else 0
  }

  function CastlingKeys(keys: Keys, rights: CastlingRights): bv64 {
    Xor(Xor(Xor(HeldKey(keys, rights, WHITE_KING), HeldKey(keys, rights, WHITE_QUEEN)),
            HeldKey(keys, rights, BLACK_KING)), HeldKey(keys, rights, BLACK_QUEEN))
  }

  /** The target's file, provided the side to move has a pawn beside the pushed one. */
  function EpFileToHash(c: Core): Option<Coordinate> {
    if c.ep.Some? && EpCapturerExists(c.board, c.side, File(c.ep.value), if c.side.White? then 4 else 3)
    then Some(File(c.ep.value))
    else None
  }

  function EpKey(keys: Keys, file: Option<Coordinate>): bv64 {
    if file.None? then 0 else keys[772 + file.value]
  }

  /** The turn key counts only when White is to move. */
  function TurnKey(keys: Keys, side: Color): bv64 {
    if side.White? then keys[780] else 0
  }

  function HashOf(keys: Keys, c: Core): bv64 {
    Xor(Xor(Xor(XorAll(keys, false, c.board), CastlingKeys(keys, c.castling)), EpKey(keys, EpFileToHash(c))),
        TurnKey(keys, c.side))
  }

  function PawnHashOf(keys: Keys, board: Board): bv64 {
    XorAll(keys, true, board)
  }

  // ---- Piece keys after a move ----

  /** The keys a move toggles, in the order the incremental update toggles them. */
  function ToggleMoved(keys: Keys, pawnsOnly: bool, c: Core, mv: Move, z: bv64): bv64
    requires Sound(c) && Applicable(c, mv)
  {
    var moved := Xor(Xor(z, CellKey(keys, pawnsOnly, c.board[mv.from], mv.from)),
                     CellKey(keys, pawnsOnly, Some(Landed(c, mv)), mv.to));
    var taken := if mv.flag.IsCapture()
                 then Xor(moved, CellKey(keys, pawnsOnly, Captured(c, mv), CaptureSquare(c, mv))) else moved;
    if mv.flag.IsCastle() then
      var (rookFrom, rookTo) := CastleRookSquares(c.side, mv.flag);
      var rook := Some(Piece(c.side, Rook));
      Xor(Xor(taken, CellKey(keys, pawnsOnly, rook, rookFrom)), CellKey(keys, pawnsOnly, rook, rookTo))
    else taken
  }

  lemma PlaceKey(keys: Keys, pawnsOnly: bool, board: Board, s: Square, cell: Cell)
    requires board[s].None?
    ensures XorAll(keys, pawnsOnly, board[s := cell])
         == Xor(XorAll(keys, pawnsOnly, board), CellKey(keys, pawnsOnly, cell, s))
  {
    hide XorAll, Xor;
    XorUpdate(keys, pawnsOnly, board, s, cell);
    XorZero(XorAll(keys, pawnsOnly, board));
  }

  lemma LiftKey(keys: Keys, pawnsOnly: bool, board: Board, s: Square)
    ensures XorAll(keys, pawnsOnly, board[s := None])
         == Xor(XorAll(keys, pawnsOnly, board), CellKey(keys, pawnsOnly, board[s], s))
  {
    hide XorAll, Xor;
    XorUpdate(keys, pawnsOnly, board, s, None);
    XorZero(Xor(XorAll(keys, pawnsOnly, board), CellKey(keys, pawnsOnly, board[s], s)));
  }

  lemma PieceKeysAfter(keys: Keys, pawnsOnly: bool, c: Core, mv: Move)
    requires Sound(c) && Applicable(c, mv)
    ensures XorAll(keys, pawnsOnly, NextBoard(c, mv))
         == ToggleMoved(keys, pawnsOnly, c, mv, XorAll(keys, pawnsOnly, c.board))
  {
    if mv.flag.IsCapture() { VictimIsEnemy(c, mv); }
    if mv.flag.IsCastle() { CastlingFacts(c, mv); }
    assert !mv.flag.IsCapture() ==> c.board[mv.to].None?;
    assert mv.flag.IsCastle() ==> !mv.flag.IsCapture();
    hide XorAll, CellKey, Xor, Sound, Applicable, CaptureSquare, Landed, MoveFlag.IsCapture, MoveFlag.IsCastle;
    var z := XorAll(keys, pawnsOnly, c.board);
    var lifted := c.board[mv.from := None];
    LiftKey(keys, pawnsOnly, c.board, mv.from);
    if mv.flag.IsCapture() {
      var square := CaptureSquare(c, mv);
      LiftKey(keys, pawnsOnly, lifted, square);
      PlaceKey(keys, pawnsOnly, lifted[square := None], mv.to, Some(Landed(c, mv)));
      XorSwap(Xor(z, CellKey(keys, pawnsOnly, c.board[mv.from], mv.from)),
              CellKey(keys, pawnsOnly, c.board[square], square),
              CellKey(keys, pawnsOnly, Some(Landed(c, mv)), mv.to));
    } else {
      PlaceKey(keys, pawnsOnly, lifted, mv.to, Some(Landed(c, mv)));
      if mv.flag.IsCastle() {
        var (rookFrom, rookTo) := CastleRookSquares(c.side, mv.flag);
        var landed := lifted[mv.to := Some(Landed(c, mv))];
        LiftKey(keys, pawnsOnly, landed, rookFrom);
        PlaceKey(keys, pawnsOnly, landed[rookFrom := None], rookTo, Some(Piece(c.side, Rook)));
      }
    }
  }

  // ---- Castling keys after a move ----

  /** Toggles the key of `right` if it is among the changed rights. */
  function ToggleRight(keys: Keys, z: bv64, delta: CastlingRights, right: CastlingRights): bv64 {
    if delta & right != 0 then Xor(z, CastlingKey(keys, right)) else z
  }

  function ToggleRights(keys: Keys, z: bv64, delta: CastlingRights): bv64 {
    var z1 := ToggleRight(keys, z, delta, WHITE_KING);
    var z2 := ToggleRight(keys, z1, delta, WHITE_QUEEN);
    var z3 := ToggleRight(keys, z2, delta, BLACK_KING);
    ToggleRight(keys, z3, delta, BLACK_QUEEN)
  }

  lemma RightToggles(a: CastlingRights, b: CastlingRights, right: CastlingRights)
    requires right in {WHITE_KING, WHITE_QUEEN, BLACK_KING, BLACK_QUEEN}
    ensures (a ^ b) & right != 0 <==> HasRight(a, right) != HasRight(b, right)
  {}

  lemma ToggleRightShifts(keys: Keys, y: bv64, z: bv64, delta: CastlingRights, right: CastlingRights)
    ensures ToggleRight(keys, Xor(y, z), delta, right) == Xor(y, ToggleRight(keys, z, delta, right))
  {
    hide Xor;
    XorAssociates(y, z, CastlingKey(keys, right));
  }

  lemma ToggleRightsShift(keys: Keys, y: bv64, z: bv64, delta: CastlingRights)
    ensures ToggleRights(keys, Xor(y, z), delta) == Xor(y, ToggleRights(keys, z, delta))
  {
    hide Xor, ToggleRight;
    var z0 := ToggleRight(keys, z, delta, WHITE_KING);
    var z1 := ToggleRight(keys, z0, delta, WHITE_QUEEN);
    var z2 := ToggleRight(keys, z1, delta, BLACK_KING);
    ToggleRightShifts(keys, y, z, delta, WHITE_KING);
    ToggleRightShifts(keys, y, z0, delta, WHITE_QUEEN);
    ToggleRightShifts(keys, y, z1, delta, BLACK_KING);
    ToggleRightShifts(keys, y, z2, delta, BLACK_QUEEN);
  }

  /** Toggling the held key of `a` by the change from `a` to `b` gives the held key of `b`. */
  lemma HeldToggles(keys: Keys, a: CastlingRights, b: CastlingRights, right: CastlingRights)
    requires right in {WHITE_KING, WHITE_QUEEN, BLACK_KING, BLACK_QUEEN}
    ensures ToggleRight(keys, HeldKey(keys, a, right), a ^ b, right) == HeldKey(keys, b, right)
  {
    RightToggles(a, b, right);
    XorZero(CastlingKey(keys, right));
    XorCancel(0, CastlingKey(keys, right));
    hide Xor, HasRight, CastlingKey;
  }

  /** Moving a toggle from the right operand to the left one. */
  lemma ToggleRightLeft(keys: Keys, y: bv64, z: bv64, delta: CastlingRights, right: CastlingRights)
    ensures ToggleRight(keys, Xor(y, z), delta, right) == Xor(ToggleRight(keys, y, delta, right), z)
  {
    hide Xor;
    XorSwap(y, z, CastlingKey(keys, right));
  }

  lemma CastlingToggles(keys: Keys, a: CastlingRights, b: CastlingRights)
    ensures ToggleRights(keys, CastlingKeys(keys, a), a ^ b) == CastlingKeys(keys, b)
  {
    HeldToggles(keys, a, b, WHITE_KING);
    HeldToggles(keys, a, b, WHITE_QUEEN);
    HeldToggles(keys, a, b, BLACK_KING);
    HeldToggles(keys, a, b, BLACK_QUEEN);
    hide Xor, HeldKey, ToggleRight;
    var delta := a ^ b;
    var (p, q) := (HeldKey(keys, a, WHITE_KING), HeldKey(keys, a, WHITE_QUEEN));
    var (r, s) := (HeldKey(keys, a, BLACK_KING), HeldKey(keys, a, BLACK_QUEEN));
    var (p', q', r') := (HeldKey(keys, b, WHITE_KING), HeldKey(keys, b, WHITE_QUEEN), HeldKey(keys, b, BLACK_KING));
    // White king's toggle sinks to the innermost operand, white queen's one less deep, and so on.
    ToggleRightLeft(keys, Xor(Xor(p, q), r), s, delta, WHITE_KING);
    ToggleRightLeft(keys, Xor(p, q), r, delta, WHITE_KING);
    ToggleRightLeft(keys, p, q, delta, WHITE_KING);
    ToggleRightLeft(keys, Xor(Xor(p', q), r), s, delta, WHITE_QUEEN);
    ToggleRightLeft(keys, Xor(p', q), r, delta, WHITE_QUEEN);
    ToggleRightShifts(keys, p', q, delta, WHITE_QUEEN);
    ToggleRightLeft(keys, Xor(Xor(p', q'), r), s, delta, BLACK_KING);
    ToggleRightShifts(keys, Xor(p', q'), r, delta, BLACK_KING);
    ToggleRightShifts(keys, Xor(Xor(p', q'), r'), s, delta, BLACK_QUEEN);
  }

  // ---- The whole hash after a move ----

  /** `update_zobrist_after_make`: pieces, rights, old and new en passant file, turn. */
  function ToggleMove(keys: Keys, c: Core, mv: Move, z: bv64): bv64
    requires Sound(c) && Applicable(c, mv)
  {
    var pieces := ToggleMoved(keys, false, c, mv, z);
    var rights := ToggleRights(keys, pieces, c.castling ^ NextCastling(c.castling, mv));
    Xor(Xor(Xor(rights, EpKey(keys, EpFileToHash(c))), EpKey(keys, EpFileToHash(Next(c, mv)))), keys[780])
  }

  /** Toggling moved pieces in a hash toggles them in its piece part. */
  lemma ToggleMovedLeft(keys: Keys, c: Core, mv: Move, y: bv64, z: bv64)
    requires Sound(c) && Applicable(c, mv)
    ensures ToggleMoved(keys, false, c, mv, Xor(y, z)) == Xor(ToggleMoved(keys, false, c, mv, y), z)
  {
    hide Xor, CellKey, Sound, Applicable, Landed, CaptureSquare, Captured;
    var k1 := CellKey(keys, false, c.board[mv.from], mv.from);
    var k2 := CellKey(keys, false, Some(Landed(c, mv)), mv.to);
    var y2 := Xor(Xor(y, k1), k2);
    XorSwap(y, z, k1);
    XorSwap(Xor(y, k1), z, k2);
    var k3 := if mv.flag.IsCapture() then CellKey(keys, false, Captured(c, mv), CaptureSquare(c, mv)) else 0;
    var y3 := if mv.flag.IsCapture() then Xor(y2, k3) else y2;
    XorSwap(y2, z, k3);
    if mv.flag.IsCastle() {
      var (rookFrom, rookTo) := CastleRookSquares(c.side, mv.flag);
      var k4 := CellKey(keys, false, Some(Piece(c.side, Rook)), rookFrom);
      var k5 := CellKey(keys, false, Some(Piece(c.side, Rook)), rookTo);
      XorSwap(y3, z, k4);
      XorSwap(Xor(y3, k4), z, k5);
    }
  }

  lemma TurnToggles(keys: Keys, side: Color)
    ensures Xor(TurnKey(keys, side), keys[780]) == TurnKey(keys, side.Flip())
  {
    XorCancel(0, keys[780]);
    XorZero(keys[780]);
    hide Xor;
  }

  /** Replacing the en passant and turn parts. */
  lemma TailToggles(x: bv64, oldEp: bv64, newEp: bv64, turn: bv64, key: bv64)
    ensures Xor(Xor(Xor(Xor(Xor(x, oldEp), turn), oldEp), newEp), key) == Xor(Xor(x, newEp), Xor(turn, key))
  {
    hide Xor;
    XorSwap(Xor(x, oldEp), turn, oldEp);
    XorCancel(x, oldEp);
    XorSwap(x, turn, newEp);
    XorAssociates(Xor(x, newEp), turn, key);
  }

  /** The rights part toggles in place under the en passant and turn parts. */
  lemma RightsToggleInside(keys: Keys, x: bv64, a: CastlingRights, b: CastlingRights, ep: bv64, turn: bv64)
    ensures ToggleRights(keys, Xor(Xor(Xor(x, CastlingKeys(keys, a)), ep), turn), a ^ b)
         == Xor(Xor(Xor(x, CastlingKeys(keys, b)), ep), turn)
  {
    hide Xor, ToggleRights, CastlingKeys;
    var rest := Xor(Xor(x, ep), turn);
    var old_ := CastlingKeys(keys, a);
    var new_ := CastlingKeys(keys, b);
    Regroup(x, old_, ep, turn);
    Regroup(x, new_, ep, turn);
    ToggleRightsShift(keys, rest, old_, a ^ b);
    CastlingToggles(keys, a, b);
  }

  lemma Regroup(x: bv64, y: bv64, ep: bv64, turn: bv64)
    ensures Xor(Xor(Xor(x, y), ep), turn) == Xor(Xor(Xor(x, ep), turn), y)
  {
    hide Xor;
    XorSwap(x, y, ep);
    XorSwap(Xor(x, ep), y, turn);
  }

  /** The incremental update of a correct hash is the hash of the next position. */
  lemma HashAfter(keys: Keys, c: Core, mv: Move)
    requires Sound(c) && Applicable(c, mv)
    ensures ToggleMove(keys, c, mv, HashOf(keys, c)) == HashOf(keys, Next(c, mv))
  {
    hide Xor, XorAll, ToggleMoved, ToggleRights, CastlingKeys, EpKey, EpFileToHash, TurnKey, Sound, Applicable,
      NextBoard, NextCastling, NextEp;
    var pieces := XorAll(keys, false, c.board);
    var held := CastlingKeys(keys, c.castling);
    var ep := EpKey(keys, EpFileToHash(c));
    var turn := TurnKey(keys, c.side);
    PieceKeysAfter(keys, false, c, mv);
    ToggleMovedLeft(keys, c, mv, Xor(Xor(pieces, held), ep), turn);
    ToggleMovedLeft(keys, c, mv, Xor(pieces, held), ep);
    ToggleMovedLeft(keys, c, mv, pieces, held);
    var pieces' := XorAll(keys, false, NextBoard(c, mv));
    RightsToggleInside(keys, pieces', c.castling, NextCastling(c.castling, mv), ep, turn);
    TailToggles(Xor(pieces', CastlingKeys(keys, NextCastling(c.castling, mv))), ep,
                EpKey(keys, EpFileToHash(Next(c, mv))), turn, keys[780]);
    TurnToggles(keys, c.side);
  }

  // ---- Null moves ----

  function ToggleNull(keys: Keys, c: Core, z: bv64): bv64 {
    Xor(Xor(z, EpKey(keys, EpFileToHash(c))), keys[780])
  }

  lemma HashAfterNull(keys: Keys, c: Core)
    ensures ToggleNull(keys, c, HashOf(keys, c)) == HashOf(keys, NextNull(c))
  {
    assert EpFileToHash(NextNull(c)) == None;
    hide Xor, XorAll, CastlingKeys, EpFileToHash, TurnKey;
    var x := Xor(XorAll(keys, false, c.board), CastlingKeys(keys, c.castling));
    var ep := EpKey(keys, EpFileToHash(c));
    var turn := TurnKey(keys, c.side);
    XorSwap(Xor(x, ep), turn, ep);
    XorCancel(x, ep);
    XorZero(x);
    XorAssociates(x, turn, keys[780]);
    TurnToggles(keys, c.side);
  }
}
