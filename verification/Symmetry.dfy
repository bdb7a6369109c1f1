/** Swapping the colours and flipping the board changes nothing about the evaluation of a position. */
module Symmetry {
  import opened Wrappers
  import opened Chess
  import opened Folds
  import opened Rules
  import opened Evaluation
  import opened Positions
  import opened Transition
  import Fen
  import Bitboards

  // ---- The mirror ----

  /** `sq ^ 56`: same file, opposite rank. */
  function Flip(s: Square): Square {
    At(File(s), 7 - Rank(s))
  }

  function FlipCell(cell: Cell): Cell {
    if cell.None? then None else Some(Piece(cell.value.color.Flip(), cell.value.kind))
  }

  function FlipBoard(board: Board): Board {
    seq(64, s requires 0 <= s < 64 => FlipCell(board[Flip(s)]))
  }

  lemma FlipTwice(s: Square)
    ensures Flip(Flip(s)) == s
  {}

  lemma FlipIsXor(s: Square)
    ensures ((s as bv6) ^ 56) as int == Flip(s)
  {
    Bitboards.IndexRoundTrip(s);
    BitsFlip(s as bv6);
  }

  lemma BitsFlip(b: bv6)
    ensures (b ^ 56) as int == Flip(b as int)
  {}

  // ---- Sums under the mirror ----

  function Signed(odd: bool, n: int): int {
    if odd then -n else n
  }

  /** Table `t` on a mirrored board gives what `u` gives on the board, negated if `odd`. */
  ghost predicate Mirrors(t: Table, u: Table, odd: bool) {
    forall p: Piece, s: Square :: Entry(t, Piece(p.color.Flip(), p.kind), Flip(s)) == Signed(odd, Entry(u, p, s))
  }

  function RangeSum(t: Table, board: Board, low: nat, n: nat): int
    requires low + n <= 64
  {
    if n == 0 then 0 else RangeSum(t, board, low, n - 1) + CellValue(t, board[low + n - 1], low + n - 1)
  }

  lemma {:induction false} SumSplits(t: Table, board: Board, low: nat, n: nat)
    requires low + n <= 64
    ensures SumTo(t, board, low + n) == SumTo(t, board, low) + RangeSum(t, board, low, n)
  {
    hide CellValue;
    if n > 0 { SumSplits(t, board, low, n - 1); }
  }

  lemma CellMirrors(t: Table, u: Table, odd: bool, board: Board, s: Square)
    requires Mirrors(t, u, odd)
    ensures CellValue(t, FlipBoard(board)[Flip(s)], Flip(s)) == Signed(odd, CellValue(u, board[s], s))
  {
    FlipTwice(s);
    if board[s].Some? {
      var p := board[s].value;
      assert Entry(t, Piece(p.color.Flip(), p.kind), Flip(s)) == Signed(odd, Entry(u, p, s));
    }
    hide Entry;
  }

  lemma {:induction false} RankMirrors(t: Table, u: Table, odd: bool, board: Board, rank: Coordinate, n: nat)
    requires Mirrors(t, u, odd) && n <= 8
    ensures RangeSum(t, FlipBoard(board), 8 * (7 - rank), n) == Signed(odd, RangeSum(u, board, 8 * rank, n))
  {
    hide CellValue, Mirrors, Flip, FlipBoard;
    if n > 0 {
      RankMirrors(t, u, odd, board, rank, n - 1);
      FlipOnRank(rank, n - 1);
      CellMirrors(t, u, odd, board, 8 * rank + n - 1);
    }
  }

  lemma FlipOnRank(rank: Coordinate, file: Coordinate)
    ensures Flip(8 * rank + file) == 8 * (7 - rank) + file
  {
    assert File(8 * rank + file) == file && Rank(8 * rank + file) == rank;
  }

  function RankSum(t: Table, board: Board, rank: Coordinate): int {
    RangeSum(t, board, 8 * rank, 8)
  }

  lemma SumOfRanks(t: Table, board: Board)
    ensures Sum(t, board) == RankSum(t, board, 0) + RankSum(t, board, 1) + RankSum(t, board, 2) + RankSum(t, board, 3)
                             + RankSum(t, board, 4) + RankSum(t, board, 5) + RankSum(t, board, 6) + RankSum(t, board, 7)
  {
    hide RangeSum, CellValue;
    SumSplits(t, board, 0, 8);
    SumSplits(t, board, 8, 8);
    SumSplits(t, board, 16, 8);
    SumSplits(t, board, 24, 8);
    SumSplits(t, board, 32, 8);
    SumSplits(t, board, 40, 8);
    SumSplits(t, board, 48, 8);
    SumSplits(t, board, 56, 8);
  }

  lemma SumMirrors(t: Table, u: Table, odd: bool, board: Board)
    requires Mirrors(t, u, odd)
    ensures Sum(t, FlipBoard(board)) == Signed(odd, Sum(u, board))
  {
    hide Sum, RangeSum, Mirrors, FlipBoard;
    SumOfRanks(t, FlipBoard(board));
    SumOfRanks(u, board);
    RankMirrors(t, u, odd, board, 0, 8);
    RankMirrors(t, u, odd, board, 1, 8);
    RankMirrors(t, u, odd, board, 2, 8);
    RankMirrors(t, u, odd, board, 3, 8);
    RankMirrors(t, u, odd, board, 4, 8);
    RankMirrors(t, u, odd, board, 5, 8);
    RankMirrors(t, u, odd, board, 6, 8);
    RankMirrors(t, u, odd, board, 7, 8);
  }

  // ---- The piece-square tables are built symmetric ----

  type KindTable = t: seq<seq<int>> | |t| == 6 && forall k :: 0 <= k < 6 ==> |t[k]| == 64
    witness seq(6, _ => seq(64, _ => 0))

  /** The first `n` entries of one side's row for one kind: the published table, flipped for White, plus the material. */
  ghost predicate RowFilled(row: seq<int>, color: Color, table: seq<int>, value: int, n: nat)
    requires |table| == 64 && n <= 64
  {
    && |row| == n
    && forall s: Square | s < n :: row[s] == if color.White? then value + table[Flip(s)] else -(value + table[s])
  }

  /** `build_psqt_table`: White reads the published table flipped, Black reads it as it stands, negated. */
  method BuildPsqt(tables: KindTable, material: seq<int>) returns (psqt: Table)
    requires |material| == 6
    ensures forall k: PieceKind, s: Square ::
              && Entry(psqt, Piece(White, k), s) == material[k.Index()] + tables[k.Index()][Flip(s)]
              && Entry(psqt, Piece(Black, k), s) == -(material[k.Index()] + tables[k.Index()][s])
    ensures Mirrors(psqt, psqt, true)
  {
    hide Flip;
    var white: seq<seq<int>>, black: seq<seq<int>> := [], [];
    for kind := 0 to 6
      invariant |white| == kind && |black| == kind
      invariant forall k | 0 <= k < kind :: RowFilled(white[k], White, tables[k], material[k], 64)
      invariant forall k | 0 <= k < kind :: RowFilled(black[k], Black, tables[k], material[k], 64)
    {
      var whiteRow: seq<int>, blackRow: seq<int> := [], [];
      for sq := 0 to 64
        invariant RowFilled(whiteRow, White, tables[kind], material[kind], sq)
        invariant RowFilled(blackRow, Black, tables[kind], material[kind], sq)
      {
        whiteRow := whiteRow + [material[kind] + tables[kind][Flip(sq)]];
        blackRow := blackRow + [-(material[kind] + tables[kind][sq])];
      }
      white, black := white + [whiteRow], black + [blackRow];
    }
    psqt := [white, black];
    RowsMirror(psqt, tables, material);
  }

  lemma RowsMirror(psqt: Table, tables: KindTable, material: seq<int>)
    requires |material| == 6
    requires forall k | 0 <= k < 6 :: RowFilled(psqt[0][k], White, tables[k], material[k], 64)
    requires forall k | 0 <= k < 6 :: RowFilled(psqt[1][k], Black, tables[k], material[k], 64)
    ensures forall k: PieceKind, s: Square ::
              && Entry(psqt, Piece(White, k), s) == material[k.Index()] + tables[k.Index()][Flip(s)]
              && Entry(psqt, Piece(Black, k), s) == -(material[k.Index()] + tables[k.Index()][s])
    ensures Mirrors(psqt, psqt, true)
  {
    hide Flip;
    forall p: Piece, s: Square
      ensures Entry(psqt, Piece(p.color.Flip(), p.kind), Flip(s)) == Signed(true, Entry(psqt, p, s))
    {
      FlipTwice(s);
    }
  }

  lemma PhaseMirrors()
    ensures Mirrors(PhaseTable(), PhaseTable(), false)
  {
    forall p: Piece, s: Square
      ensures Entry(PhaseTable(), Piece(p.color.Flip(), p.kind), Flip(s)) == Signed(false, Entry(PhaseTable(), p, s))
    {
      PhaseEntry(p, s);
      PhaseEntry(Piece(p.color.Flip(), p.kind), Flip(s));
    }
  }

  // ---- Piece counts under the mirror ----

  /** A table whose fold counts the pieces of one colour and kind. */
  function CountTable(color: Color, kind: PieceKind): Table {
    seq(2, c requires 0 <= c < 2 => seq(6, k requires 0 <= k < 6 => seq(64, _ =>
          if COLORS[c] == color && KINDS[k] == kind then 1 else 0)))
  }

  lemma CountEntry(color: Color, kind: PieceKind, p: Piece, s: Square)
    ensures Entry(CountTable(color, kind), p, s) == if p == Piece(color, kind) then 1 else 0
  {
    PieceIndices(p);
    assert p == Piece(p.color, p.kind);
  }

  function CountOf(board: Board, color: Color, kind: PieceKind): int {
    Sum(CountTable(color, kind), board)
  }

  lemma CountMirrors(board: Board, color: Color, kind: PieceKind)
    ensures CountOf(FlipBoard(board), color, kind) == CountOf(board, color.Flip(), kind)
  {
    hide FlipBoard, Sum, CountTable, Entry, Flip;
    forall p: Piece, s: Square
      ensures Entry(CountTable(color, kind), Piece(p.color.Flip(), p.kind), Flip(s))
           == Signed(false, Entry(CountTable(color.Flip(), kind), p, s))
    {
      CountEntry(color, kind, Piece(p.color.Flip(), p.kind), Flip(s));
      CountEntry(color.Flip(), kind, p, s);
      assert p == Piece(p.color, p.kind);
    }
    SumMirrors(CountTable(color, kind), CountTable(color.Flip(), kind), false, board);
  }

  // ---- The terms of the evaluation ----

  /** Rust's division rounds toward zero. */
  function Truncated(n: int, d: int): int
    requires d > 0
  {
    if n >= 0 then n / d else -(-n / d)
  }

  lemma TruncatedOdd(n: int, d: int)
    requires d > 0
    ensures Truncated(-n, d) == -Truncated(n, d)
  {}

  predicate IsLight(s: Square) {
    (File(s) + Rank(s)) % 2 == 1
  }

  predicate HasBishopOn(board: Board, color: Color, light: bool) {
    exists s: Square :: Holds(board, s, color, Bishop) && IsLight(s) == light
  }

  lemma FlipBoardAt(board: Board, s: Square)
    ensures FlipBoard(board)[Flip(s)] == FlipCell(board[s])
  {
    FlipTwice(s);
    hide Flip;
  }

  lemma FlippedPiece(board: Board, s: Square, color: Color, kind: PieceKind)
    ensures Holds(FlipBoard(board), Flip(s), color, kind) <==> Holds(board, s, color.Flip(), kind)
  {
    hide FlipBoard, Flip;
    FlipBoardAt(board, s);
    if board[s].Some? { assert board[s].value == Piece(board[s].value.color, board[s].value.kind); }
  }

  lemma FlipCoordinates(s: Square)
    ensures File(Flip(s)) == File(s) && Rank(Flip(s)) == 7 - Rank(s)
  {}

  lemma FlipChangesShade(s: Square)
    ensures IsLight(Flip(s)) == !IsLight(s)
  {
    FlipCoordinates(s);
    hide Flip, File, Rank;
  }

  lemma BishopsMirrorOneWay(board: Board, color: Color, light: bool)
    ensures HasBishopOn(FlipBoard(board), color, light) ==> HasBishopOn(board, color.Flip(), !light)
    ensures HasBishopOn(board, color.Flip(), !light) ==> HasBishopOn(FlipBoard(board), color, light)
  {
    hide FlipBoard, Flip, IsLight, Holds;
    if s: Square :| Holds(FlipBoard(board), s, color, Bishop) && IsLight(s) == light {
      FlipTwice(s);
      FlippedPiece(board, Flip(s), color, Bishop);
      FlipChangesShade(s);
      assert Holds(board, Flip(s), color.Flip(), Bishop) && IsLight(Flip(s)) == !light;
    }
    if s: Square :| Holds(board, s, color.Flip(), Bishop) && IsLight(s) == !light {
      FlippedPiece(board, s, color, Bishop);
      FlipChangesShade(s);
      assert Holds(FlipBoard(board), Flip(s), color, Bishop) && IsLight(Flip(s)) == light;
    }
  }

  predicate HasPair(board: Board, color: Color) {
    HasBishopOn(board, color, true) && HasBishopOn(board, color, false)
  }

  function BishopPair(board: Board, value: int): int {
    match (HasPair(board, White), HasPair(board, Black))
    case (true, false) => value
    case (false, true) => -value
    case _ => 0
  }

  function PieceCount(board: Board): int {
    CountOf(board, White, Pawn) + CountOf(board, White, Knight) + CountOf(board, White, Bishop)
    + CountOf(board, White, Rook) + CountOf(board, White, Queen) + CountOf(board, White, King)
    + CountOf(board, Black, Pawn) + CountOf(board, Black, Knight) + CountOf(board, Black, Bishop)
    + CountOf(board, Black, Rook) + CountOf(board, Black, Queen) + CountOf(board, Black, King)
  }

  /** Bare kings, one minor piece, or one bishop each on the same shade. */
  predicate InsufficientMaterial(board: Board) {
    var total := PieceCount(board);
    var knights := CountOf(board, White, Knight) + CountOf(board, Black, Knight);
    var bishops := CountOf(board, White, Bishop) + CountOf(board, Black, Bishop);
    || total == 2
    || (total == 3 && (knights == 1 || bishops == 1))
    || (total == 4 && CountOf(board, White, Bishop) == 1 && CountOf(board, Black, Bishop) == 1
        && HasBishopOn(board, White, true) == HasBishopOn(board, Black, true))
  }

  function Apart(a: int, b: int): nat {
    if a < b then b - a else a - b
  }

  function Lesser(a: nat, b: nat): nat {
    if a < b then a else b
  }

  function Greater(a: nat, b: nat): nat {
    if a < b then b else a
  }

  function CentreDistance(s: Square): nat {
    Lesser(Apart(File(s), 3), Apart(File(s), 4)) + Lesser(Apart(Rank(s), 3), Apart(Rank(s), 4))
  }

  function KingDistance(a: Square, b: Square): nat {
    Greater(Apart(File(a), File(b)), Apart(Rank(a), Rank(b)))
  }

  function Blend(mg: int, eg: int, phase: U8): int {
    var p := if phase < 24 then phase else 24;
    Truncated(mg * p + eg * (24 - p), 24)
  }

  /** Drives the losing king to a corner once little material is left. */
  function MopUp(white: Square, black: Square, mg: int, eg: int, phase: U8): int {
    if phase >= 5 then 0
    else
      var advantage := Blend(mg, eg, phase);
      if -100 <= advantage <= 100 then 0
      else if advantage > 0 then 4 * CentreDistance(black) + 2 * (14 - KingDistance(white, black))
      else -(4 * CentreDistance(white) + 2 * (14 - KingDistance(black, white)))
  }

  // ---- Each term under the mirror ----

  lemma PairMirrors(board: Board, value: int)
    ensures BishopPair(FlipBoard(board), value) == -BishopPair(board, value)
  {
    BishopsMirrorOneWay(board, White, true);
    BishopsMirrorOneWay(board, White, false);
    BishopsMirrorOneWay(board, Black, true);
    BishopsMirrorOneWay(board, Black, false);
    hide HasBishopOn, FlipBoard;
  }

  lemma MaterialMirrors(board: Board)
    ensures InsufficientMaterial(FlipBoard(board)) == InsufficientMaterial(board)
  {
    hide CountOf, FlipBoard, HasBishopOn;
    CountMirrors(board, White, Pawn);
    CountMirrors(board, Black, Pawn);
    CountMirrors(board, White, Knight);
    CountMirrors(board, Black, Knight);
    CountMirrors(board, White, Bishop);
    CountMirrors(board, Black, Bishop);
    CountMirrors(board, White, Rook);
    CountMirrors(board, Black, Rook);
    CountMirrors(board, White, Queen);
    CountMirrors(board, Black, Queen);
    CountMirrors(board, White, King);
    CountMirrors(board, Black, King);
    if CountOf(board, White, Bishop) == 1 && CountOf(board, Black, Bishop) == 1 {
      BishopsMirrorOneWay(board, White, true);
      BishopsMirrorOneWay(board, Black, true);
      OneBishopOneShade(board, White);
      OneBishopOneShade(board, Black);
    }
  }

  lemma {:induction false} FoldCounts(board: Board, color: Color, kind: PieceKind, n: nat)
    requires n <= 64
    ensures SumTo(CountTable(color, kind), board, n) == Fen.CountTo(board, color, kind, n)
  {
    if n > 0 {
      FoldCounts(board, color, kind, n - 1);
      if board[n - 1].Some? { CountEntry(color, kind, board[n - 1].value, n - 1); }
      hide CountTable, Entry;
    }
  }

  /** A side's only bishop stands on exactly one shade. */
  lemma OneBishopOneShade(board: Board, color: Color)
    requires CountOf(board, color, Bishop) == 1
    ensures HasBishopOn(board, color, true) != HasBishopOn(board, color, false)
  {
    FoldCounts(board, color, Bishop, 64);
    Fen.CountOne(board, color, Bishop, 64);
    hide CountTable, IsLight, Holds;
    var k: Square :| Fen.OnlyAt(board, color, Bishop, 64, k);
    assert Holds(board, k, color, Bishop);
    assert HasBishopOn(board, color, IsLight(k));
  }

  lemma BlendMirrors(mg: int, eg: int, phase: U8)
    ensures Blend(-mg, -eg, phase) == -Blend(mg, eg, phase)
  {
    var p := if phase < 24 then phase else 24;
    var n := mg * p + eg * (24 - p);
    assert -mg * p + -eg * (24 - p) == -n;
    TruncatedOdd(n, 24);
  }

  lemma DistancesMirror(a: Square, b: Square)
    ensures CentreDistance(Flip(a)) == CentreDistance(a)
    ensures KingDistance(Flip(a), Flip(b)) == KingDistance(a, b) == KingDistance(b, a)
  {
    FlipCoordinates(a);
    FlipCoordinates(b);
    hide Flip, File, Rank;
  }

  lemma MopUpMirrors(white: Square, black: Square, mg: int, eg: int, phase: U8)
    ensures MopUp(Flip(black), Flip(white), -mg, -eg, phase) == -MopUp(white, black, mg, eg, phase)
  {
    BlendMirrors(mg, eg, phase);
    DistancesMirror(white, black);
    DistancesMirror(black, white);
    hide Flip, Blend, CentreDistance, KingDistance;
  }

  // ---- The evaluation ----

  const BISHOP_PAIR_MG := 30
  const BISHOP_PAIR_EG := 50

  /** The white-relative sums of the terms kept abstract (pawns, mobility, king safety, outposts, rook files). */
  datatype Others = Others(mg: int, eg: int)

  /** `evaluate_core`: blend, endgame scale, mop-up, then the point of view of the side to move. */
  function Score(board: Board, side: Color, white: Square, black: Square, mg: int, eg: int, phase: U8,
                 others: Others, scale: int, unit: int): int
    requires unit > 0
  {
    if InsufficientMaterial(board) then 0
    else
      var blended := Blend(mg + BishopPair(board, BISHOP_PAIR_MG) + others.mg,
                           eg + BishopPair(board, BISHOP_PAIR_EG) + others.eg, phase);
      var result := Truncated(blended * scale, unit) + MopUp(white, black, mg, eg, phase);
      if side.White? then result else -result
  }

  function Evaluate(s: Snapshot, others: Others, scale: int, unit: int): int
    requires unit > 0 && |s.kings| == 2
  {
    Score(s.core.board, s.core.side, s.kings[0], s.kings[1], s.mg, s.eg, s.phase, others, scale, unit)
  }

  /** `b` is `a` with colours swapped and ranks flipped, side to move included. */
  predicate IsMirror(a: Snapshot, b: Snapshot) {
    b.core.board == FlipBoard(a.core.board) && b.core.side == a.core.side.Flip()
  }

  lemma KingMirrors(board: Board, color: Color, s: Square)
    requires KingAt(board, color, s)
    ensures KingAt(FlipBoard(board), color.Flip(), Flip(s))
  {
    hide FlipBoard, Flip, Holds;
    assert color.Flip().Flip() == color;
    forall t: Square
      ensures Holds(FlipBoard(board), t, color.Flip(), King) <==> t == Flip(s)
    {
      FlipTwice(t);
      FlipTwice(s);
      FlippedPiece(board, Flip(t), color.Flip(), King);
    }
  }

  lemma KingCachesMirror(board: Board, a: seq<Square>, b: seq<Square>)
    requires |a| == 2 && KingAt(board, White, a[0]) && KingAt(board, Black, a[1])
    requires |b| == 2 && KingAt(FlipBoard(board), White, b[0]) && KingAt(FlipBoard(board), Black, b[1])
    ensures b[0] == Flip(a[1]) && b[1] == Flip(a[0])
  {
    hide FlipBoard, KingAt, Flip;
    KingMirrors(board, White, a[0]);
    KingMirrors(board, Black, a[1]);
    OneKingSquare(FlipBoard(board), Black, b[1], Flip(a[0]));
    OneKingSquare(FlipBoard(board), White, b[0], Flip(a[1]));
  }

  /** The caches the evaluation reads are right. */
  ghost predicate Scored(t: Tables, s: Snapshot) {
    && s.mg == Sum(t.mg, s.core.board) && s.eg == Sum(t.eg, s.core.board) && s.phase == Sum(PhaseTable(), s.core.board)
    && |s.kings| == 2 && KingAt(s.core.board, White, s.kings[0]) && KingAt(s.core.board, Black, s.kings[1])
  }

  lemma ValidIsScored(t: Tables, s: Snapshot)
    requires ValidSnapshot(t, s)
    ensures Scored(t, s)
  {
    ValidParts(t, s);
    hide ValidSnapshot, Sum, PhaseTable, KingAt, Sound, KindsAgree, ColorsAgree;
  }

  lemma ScoredParts(t: Tables, s: Snapshot)
    requires Scored(t, s)
    ensures |s.kings| == 2
  {}

  lemma CachesMirror(t: Tables, a: Snapshot, b: Snapshot)
    requires Scored(t, a) && Scored(t, b) && IsMirror(a, b)
    requires Mirrors(t.mg, t.mg, true) && Mirrors(t.eg, t.eg, true)
    ensures b.mg == -a.mg && b.eg == -a.eg && b.phase == a.phase
    ensures |a.kings| == 2 && |b.kings| == 2 && b.kings[0] == Flip(a.kings[1]) && b.kings[1] == Flip(a.kings[0])
  {
    hide Sum, PhaseTable, Mirrors, FlipBoard, KingAt, Flip;
    SumMirrors(t.mg, t.mg, true, a.core.board);
    SumMirrors(t.eg, t.eg, true, a.core.board);
    PhaseMirrors();
    SumMirrors(PhaseTable(), PhaseTable(), false, a.core.board);
    KingCachesMirror(a.core.board, a.kings, b.kings);
  }

  lemma NegatedProduct(x: int, y: int)
    ensures -x * y == -(x * y)
  {}

  lemma ScaledMirrors(mg: int, eg: int, phase: U8, scale: int, unit: int)
    requires unit > 0
    ensures Truncated(Blend(-mg, -eg, phase) * scale, unit) == -Truncated(Blend(mg, eg, phase) * scale, unit)
  {
    BlendMirrors(mg, eg, phase);
    hide Blend, Truncated;
    NegatedProduct(Blend(mg, eg, phase), scale);
    TruncatedOdd(Blend(mg, eg, phase) * scale, unit);
  }

  lemma ScoreMirrors(board: Board, side: Color, white: Square, black: Square, mg: int, eg: int, phase: U8,
                     others: Others, scale: int, unit: int)
    requires unit > 0
    ensures Score(FlipBoard(board), side.Flip(), Flip(black), Flip(white), -mg, -eg, phase,
                  Others(-others.mg, -others.eg), scale, unit)
         == Score(board, side, white, black, mg, eg, phase, others, scale, unit)
  {
    hide FlipBoard, Flip, InsufficientMaterial, BishopPair, Blend, MopUp, Truncated;
    MaterialMirrors(board);
    PairMirrors(board, BISHOP_PAIR_MG);
    PairMirrors(board, BISHOP_PAIR_EG);
    var m := mg + BishopPair(board, BISHOP_PAIR_MG) + others.mg;
    var e := eg + BishopPair(board, BISHOP_PAIR_EG) + others.eg;
    ScaledMirrors(m, e, phase, scale, unit);
    MopUpMirrors(white, black, mg, eg, phase);
    assert -mg + -BishopPair(board, BISHOP_PAIR_MG) + -others.mg == -m;
    assert -eg + -BishopPair(board, BISHOP_PAIR_EG) + -others.eg == -e;
  }

  /** The score of a position is the score of its mirror image, given that the other terms are odd. */
  lemma EvaluationSymmetric(t: Tables, a: Snapshot, b: Snapshot, others: Others, scale: int, unit: int)
    requires ValidSnapshot(t, a) && ValidSnapshot(t, b) && IsMirror(a, b)
    requires Mirrors(t.mg, t.mg, true) && Mirrors(t.eg, t.eg, true)
    requires unit > 0
    ensures Evaluate(b, Others(-others.mg, -others.eg), scale, unit) == Evaluate(a, others, scale, unit)
  {
    hide ValidSnapshot, Mirrors, FlipBoard, Flip, Score, Scored;
    ValidIsScored(t, a);
    ValidIsScored(t, b);
    ScoredParts(t, a);
    ScoredParts(t, b);
    CachesMirror(t, a, b);
    ScoreMirrors(a.core.board, a.core.side, a.kings[0], a.kings[1], a.mg, a.eg, a.phase, others, scale, unit);
  }
}
