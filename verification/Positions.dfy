/**
 The mutable position: a mailbox, eight bitboards and two cached king squares that say the same
 thing three times, the recorded fields, and three caches (hash, pawn hash, evaluation triple).
*/
module Positions {
  import opened Wrappers
  import opened Chess
  import opened Bitboards
  import opened Folds
  import opened Rules
  import opened Zobrist
  import opened Evaluation

  /** Every field of a position at one moment. */
  datatype Snapshot = Snapshot(
    kindBits: seq<bv64>,
    colorBits: seq<bv64>,
    kings: seq<Square>,
    core: Core,
    hash: bv64,
    pawnHash: bv64,
    mg: int,
    eg: int,
    phase: U8)

  ghost predicate KindsAgree(kindBits: seq<bv64>, mailbox: Board) {
    && |kindBits| == 6
    && forall k: PieceKind, s: Square ::
         Contains(kindBits[k.Index()], s) <==> mailbox[s].Some? && mailbox[s].value.kind == k
  }

  ghost predicate ColorsAgree(colorBits: seq<bv64>, mailbox: Board) {
    && |colorBits| == 2
    && forall c: Color, s: Square ::
         Contains(colorBits[c.Index()], s) <==> mailbox[s].Some? && mailbox[s].value.color == c
  }

  /** Bitboards and caches say what the recorded fields say; only the king squares may be stale. */
  ghost predicate CoherentSnapshot(t: Tables, s: Snapshot) {
    && KindsAgree(s.kindBits, s.core.board)
    && ColorsAgree(s.colorBits, s.core.board)
    && |s.kings| == 2
    && s.hash == HashOf(t.keys, s.core)
    && s.pawnHash == PawnHashOf(t.keys, s.core.board)
    && s.mg == Sum(t.mg, s.core.board)
    && s.eg == Sum(t.eg, s.core.board)
    && s.phase == Sum(PhaseTable(), s.core.board)
  }

  /** Sound, with every redundant field equal to its definition. */
  ghost predicate ValidSnapshot(t: Tables, s: Snapshot) {
    && Sound(s.core)
    && CoherentSnapshot(t, s)
    && KingAt(s.core.board, White, s.kings[0])
    && KingAt(s.core.board, Black, s.kings[1])
  }

  lemma SameKind(a: seq<bv64>, b: seq<bv64>, mailbox: Board, k: PieceKind)
    requires KindsAgree(a, mailbox) && KindsAgree(b, mailbox)
    ensures a[k.Index()] == b[k.Index()]
  {
    hide Contains;
    forall s: Square
      ensures Contains(a[k.Index()], s) == Contains(b[k.Index()], s)
    {
      assert Contains(a[k.Index()], s) <==> mailbox[s].Some? && mailbox[s].value.kind == k;
    }
    Extensional(a[k.Index()], b[k.Index()]);
  }

  lemma SameColor(a: seq<bv64>, b: seq<bv64>, mailbox: Board, c: Color)
    requires ColorsAgree(a, mailbox) && ColorsAgree(b, mailbox)
    ensures a[c.Index()] == b[c.Index()]
  {
    hide Contains;
    forall s: Square
      ensures Contains(a[c.Index()], s) == Contains(b[c.Index()], s)
    {
      assert Contains(a[c.Index()], s) <==> mailbox[s].Some? && mailbox[s].value.color == c;
    }
    Extensional(a[c.Index()], b[c.Index()]);
  }

  /** The redundant fields are determined: a valid snapshot is a function of its recorded fields. */
  lemma ValidDetermined(t: Tables, a: Snapshot, b: Snapshot)
    requires ValidSnapshot(t, a) && ValidSnapshot(t, b) && a.core == b.core
    ensures a == b
  {
    hide Contains, Sound, HashOf, PawnHashOf, Sum, PhaseTable;
    forall i | 0 <= i < 6
      ensures a.kindBits[i] == b.kindBits[i]
    {
      SameKind(a.kindBits, b.kindBits, a.core.board, KINDS[i]);
    }
    forall i | 0 <= i < 2
      ensures a.colorBits[i] == b.colorBits[i]
    {
      SameColor(a.colorBits, b.colorBits, a.core.board, COLORS[i]);
    }
    assert Holds(a.core.board, a.kings[0], White, King) && Holds(a.core.board, a.kings[1], Black, King);
    assert a.kings == b.kings;
  }

  /** Clears `s` in the word of index `i`. */
  function Drop(bits: seq<bv64>, i: nat, s: Square): seq<bv64>
    requires i < |bits|
  {
    bits[i := Without(bits[i], s)]
  }

  function Put(bits: seq<bv64>, i: nat, s: Square): seq<bv64>
    requires i < |bits|
  {
    bits[i := With(bits[i], s)]
  }

  lemma DropKind(bits: seq<bv64>, mailbox: Board, s: Square)
    requires KindsAgree(bits, mailbox) && mailbox[s].Some?
    ensures KindsAgree(Drop(bits, mailbox[s].value.kind.Index(), s), mailbox[s := None])
  {
    hide Contains, Without;
    WithoutContains(bits[mailbox[s].value.kind.Index()], s);
  }

  lemma PutKind(bits: seq<bv64>, mailbox: Board, s: Square, p: Piece)
    requires KindsAgree(bits, mailbox) && mailbox[s].None?
    ensures KindsAgree(Put(bits, p.kind.Index(), s), mailbox[s := Some(p)])
  {
    hide Contains, With;
    WithContains(bits[p.kind.Index()], s);
  }

  lemma DropColor(bits: seq<bv64>, mailbox: Board, s: Square)
    requires ColorsAgree(bits, mailbox) && mailbox[s].Some?
    ensures ColorsAgree(Drop(bits, mailbox[s].value.color.Index(), s), mailbox[s := None])
  {
    hide Contains, Without;
    WithoutContains(bits[mailbox[s].value.color.Index()], s);
  }

  lemma PutColor(bits: seq<bv64>, mailbox: Board, s: Square, p: Piece)
    requires ColorsAgree(bits, mailbox) && mailbox[s].None?
    ensures ColorsAgree(Put(bits, p.color.Index(), s), mailbox[s := Some(p)])
  {
    hide Contains, With;
    WithContains(bits[p.color.Index()], s);
  }

  class Position {
    const tables: Tables
    var kindBits: seq<bv64>
    var colorBits: seq<bv64>
    var mailbox: Board
    var kings: seq<Square>
    var side: Color
    var castling: CastlingRights
    var ep: Option<Square>
    var halfmove: U8
    var fullmove: U16
    var hash: bv64
    var pawnHash: bv64
    var mg: int
    var eg: int
    var phase: U8

    function Recorded(): Core
      reads this
    {
      Core(mailbox, side, castling, ep, halfmove, fullmove)
    }

    function Fields(): Snapshot
      reads this
    {
      Snapshot(kindBits, colorBits, kings, Recorded(), hash, pawnHash, mg, eg, phase)
    }

    ghost predicate Valid()
      reads this
    {
      ValidSnapshot(tables, Fields())
    }

    ghost predicate Coherent()
      reads this
    {
      CoherentSnapshot(tables, Fields())
    }

    /** The bitboards repeat the mailbox. The king cache and the hashes may lag behind. */
    ghost predicate Agree()
      reads this
    {
      KindsAgree(kindBits, mailbox) && ColorsAgree(colorBits, mailbox) && |kings| == 2
    }

    /** An empty board, White to move. */
    constructor Empty(tables: Tables)
      ensures this.tables == tables
      ensures Agree()
      ensures mailbox == seq(64, _ => None) && side.White? && castling == NO_RIGHTS && ep == None
      ensures halfmove == 0 && fullmove == 1
    {
      this.tables := tables;
      kindBits := seq(6, _ => 0);
      colorBits := seq(2, _ => 0);
      mailbox := seq(64, _ => None);
      kings := [A1, A1];
      side := White;
      castling := NO_RIGHTS;
      ep := None;
      halfmove, fullmove := 0, 1;
      hash, pawnHash := 0, 0;
      mg, eg, phase := 0, 0, 0;
      new;
      EmptyContains();
    }

    constructor Copy(other: Position)
      ensures tables == other.tables && Fields() == other.Fields()
    {
      tables := other.tables;
      kindBits, colorBits, mailbox, kings := other.kindBits, other.colorBits, other.mailbox, other.kings;
      side, castling, ep := other.side, other.castling, other.ep;
      halfmove, fullmove := other.halfmove, other.fullmove;
      hash, pawnHash := other.hash, other.pawnHash;
      mg, eg, phase := other.mg, other.eg, other.phase;
    }

    method ClearSquare(s: Square)
      requires Agree()
      modifies `kindBits, `colorBits, `mailbox
      ensures Agree()
      ensures mailbox == old(mailbox)[s := None]
    {
      hide KindsAgree, ColorsAgree, Contains, With, Without;
      if mailbox[s].Some? {
        var prev := mailbox[s].value;
        DropKind(kindBits, mailbox, s);
        DropColor(colorBits, mailbox, s);
        assert |kindBits| == 6 && |colorBits| == 2 by { AgreeLengths(); }
        kindBits := kindBits[prev.kind.Index() := Without(kindBits[prev.kind.Index()], s)];
        colorBits := colorBits[prev.color.Index() := Without(colorBits[prev.color.Index()], s)];
        mailbox := mailbox[s := None];
      }
    }

    lemma AgreeLengths()
      requires KindsAgree(kindBits, mailbox) && ColorsAgree(colorBits, mailbox)
      ensures |kindBits| == 6 && |colorBits| == 2
    {}

    method SetPiece(s: Square, piece: Piece)
      requires Agree()
      modifies `kindBits, `colorBits, `mailbox, `kings
      ensures Agree()
      ensures mailbox == old(mailbox)[s := Some(piece)]
      ensures kings == if piece.kind.King? then old(kings)[piece.color.Index() := s] else old(kings)
    {
      hide KindsAgree, ColorsAgree, Contains, With, Without;
      AgreeLengths();
      ghost var cleared := mailbox[s := None];
      if mailbox[s].Some? {
        var prev := mailbox[s].value;
        DropKind(kindBits, mailbox, s);
        DropColor(colorBits, mailbox, s);
        kindBits := kindBits[prev.kind.Index() := Without(kindBits[prev.kind.Index()], s)];
        colorBits := colorBits[prev.color.Index() := Without(colorBits[prev.color.Index()], s)];
      } else {
        assert cleared == mailbox;
      }
      assert KindsAgree(kindBits, cleared) && ColorsAgree(colorBits, cleared);
      PutKind(kindBits, cleared, s, piece);
      PutColor(colorBits, cleared, s, piece);
      assert cleared[s := Some(piece)] == mailbox[s := Some(piece)];
      kindBits := kindBits[piece.kind.Index() := With(kindBits[piece.kind.Index()], s)];
      colorBits := colorBits[piece.color.Index() := With(colorBits[piece.color.Index()], s)];
      mailbox := mailbox[s := Some(piece)];
      if piece.kind.King? {
        kings := kings[piece.color.Index() := s];
      }
    }

    method SetAuxState(side: Color, castling: CastlingRights, ep: Option<Square>, halfmove: U8, fullmove: U16)
      modifies `side, `castling, `ep, `halfmove, `fullmove
      ensures Recorded() == Core(old(mailbox), side, castling, ep, halfmove, fullmove)
    {
      this.side := side;
      this.castling := castling;
      this.ep := ep;
      this.halfmove := halfmove;
      this.fullmove := fullmove;
    }

    function PiecesColored(color: Color, kind: PieceKind): bv64
      requires Agree()
      reads this
    {
      And(kindBits[kind.Index()], colorBits[color.Index()])
    }

    lemma PiecesColoredAt(color: Color, kind: PieceKind)
      requires Agree()
      ensures forall s: Square :: Contains(PiecesColored(color, kind), s) <==> Holds(mailbox, s, color, kind)
    {
      hide Contains, And;
      forall s: Square
        ensures Contains(PiecesColored(color, kind), s) <==> Holds(mailbox, s, color, kind)
      {
        AndContains(kindBits[kind.Index()], colorBits[color.Index()], s);
        assert Contains(kindBits[kind.Index()], s) <==> mailbox[s].Some? && mailbox[s].value.kind == kind;
        assert Contains(colorBits[color.Index()], s) <==> mailbox[s].Some? && mailbox[s].value.color == color;
      }
    }

    /** `ep_file_to_hash`, by intersecting the mover's pawns with the squares beside the pushed pawn. */
    method EpFile() returns (file: Option<Coordinate>)
      requires Agree()
      ensures file == EpFileToHash(Recorded())
    {
      if ep.None? {
        return None;
      }
      var rank: Coordinate := if side.White? then 4 else 3;
      var f := File(ep.value);
      var adjacent: bv64 := 0;
      if f > 0 {
        adjacent := With(adjacent, At(f - 1, rank));
      }
      if f < 7 {
        adjacent := With(adjacent, At(f + 1, rank));
      }
      BesideFile(adjacent, f, rank);
      var ours := PiecesColored(side, Pawn);
      PawnsBeside(ours, adjacent, f, rank);
      return if And(ours, adjacent) != 0 then Some(f) else None;
    }

    lemma PawnsBeside(ours: bv64, adjacent: bv64, f: Coordinate, rank: Coordinate)
      requires Agree() && ours == PiecesColored(side, Pawn)
      requires forall s: Square :: Contains(adjacent, s) <==>
                                   (f > 0 && s == At(f - 1, rank)) || (f < 7 && s == At(f + 1, rank))
      ensures And(ours, adjacent) != 0 <==> EpCapturerExists(mailbox, side, f, rank)
    {
      PiecesColoredAt(side, Pawn);
      hide Contains, And, PiecesColored, Agree;
      NonemptyIff(And(ours, adjacent));
      forall s: Square
        ensures Contains(And(ours, adjacent), s) <==> Holds(mailbox, s, side, Pawn) && Contains(adjacent, s)
      {
        AndContains(ours, adjacent, s);
      }
      if f > 0 && Holds(mailbox, At(f - 1, rank), side, Pawn) { assert Contains(And(ours, adjacent), At(f - 1, rank)); }
      if f < 7 && Holds(mailbox, At(f + 1, rank), side, Pawn) { assert Contains(And(ours, adjacent), At(f + 1, rank)); }
    }
  }

  /** The one or two squares beside `f` on `rank`. */
  lemma BesideFile(adjacent: bv64, f: Coordinate, rank: Coordinate)
    requires var west := if f > 0 then With(0, At(f - 1, rank)) else 0;
             adjacent == if f < 7 then With(west, At(f + 1, rank)) else west
    ensures forall s: Square :: Contains(adjacent, s) <==>
                                (f > 0 && s == At(f - 1, rank)) || (f < 7 && s == At(f + 1, rank))
  {
    hide Contains, With, At;
    EmptyContains();
    if f > 0 { WithContains(0, At(f - 1, rank)); }
    if f < 7 { WithContains(if f > 0 then With(0, At(f - 1, rank)) else 0, At(f + 1, rank)); }
  }
}
