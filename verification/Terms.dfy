/** What each term of the evaluation rewards: the direction of its effect, its extremes, and when it is silent. */
module Terms {
  import opened Wrappers
  import opened Chess
  import opened Folds
  import opened Rules
  import opened Evaluation
  import opened Symmetry
  import opened Book
  import opened Lapses
  import Fen

  // ---- The blend of the phases ----

  /** The middlegame sum counts alone with all pieces on, the endgame sum alone with none. */
  lemma BlendEnds(mg: int, eg: int, phase: U8)
    ensures phase >= 24 ==> Blend(mg, eg, phase) == mg
    ensures Blend(mg, eg, 0) == eg
    ensures mg == eg ==> Blend(mg, eg, phase) == mg
  {
    var p := if phase < 24 then phase else 24;
    assert mg == eg ==> mg * p + eg * (24 - p) == 24 * mg;
  }

  /** In between, the larger sum weighs the more the nearer its phase is. */
  lemma BlendLeans(mg: int, eg: int, phase: U8, later: U8)
    requires mg >= eg && phase <= later
    ensures eg <= Blend(mg, eg, phase) <= Blend(mg, eg, later) <= mg
  {
    var (p, q) := (if phase < 24 then phase else 24, if later < 24 then later else 24);
    Weighted(mg, eg, p);
    Weighted(mg, eg, q);
    var d := mg - eg;
    Product(d, 0, p);
    Product(d, p, q);
    Product(d, q, 24);
    Shares(eg, d, d * p, d * q);
  }

  /** Rounding toward zero keeps the order. */
  lemma Shares(eg: int, d: int, x: int, y: int)
    requires 0 <= x <= y <= 24 * d
    ensures eg <= Truncated(24 * eg + x, 24) <= Truncated(24 * eg + y, 24) <= eg + d
  {}

  lemma Product(d: nat, p: nat, q: nat)
    requires p <= q
    ensures 0 <= d * p <= d * q
  {}

  lemma Weighted(mg: int, eg: int, p: int)
    ensures mg * p + eg * (24 - p) == 24 * eg + (mg - eg) * p
  {}

  // ---- The bishop pair ----

  /** Two bishops an odd number of steps apart: on squares of different shades. */
  ghost predicate TwoShades(board: Board, color: Color) {
    exists s: Square, t: Square ::
      Holds(board, s, color, Bishop) && Holds(board, t, color, Bishop) && (FilesApart(s, t) + RanksApart(s, t)) % 2 == 1
  }

  lemma ShadesByDistance(s: Square, t: Square)
    ensures IsLight(s) != IsLight(t) <==> (FilesApart(s, t) + RanksApart(s, t)) % 2 == 1
    ensures !IsLight(A1) && IsLight(H1)
  {
    assert File(A1) == Rank(A1) == 0 && File(H1) == 7 && Rank(H1) == 0;
    hide File, Rank;
    var low := (if File(s) < File(t) then File(s) else File(t)) + if Rank(s) < Rank(t) then Rank(s) else Rank(t);
    assert FilesApart(s, t) + RanksApart(s, t) == File(s) + Rank(s) + (File(t) + Rank(t)) - 2 * low;
    hide FilesApart, RanksApart;
    Parity(File(s) + Rank(s), File(t) + Rank(t), low);
  }

  lemma Parity(m: int, n: int, k: int)
    ensures (m + n - 2 * k) % 2 == 1 <==> (m % 2 == 1) != (n % 2 == 1)
  {}

  lemma PairLaw(board: Board, value: int)
    ensures BishopPair(board, value) ==
            (if TwoShades(board, White) then value else 0) - (if TwoShades(board, Black) then value else 0)
  {
    PairIsTwoShades(board, White);
    PairIsTwoShades(board, Black);
    hide HasPair, TwoShades;
  }

  lemma PairIsTwoShades(board: Board, color: Color)
    ensures HasPair(board, color) <==> TwoShades(board, color)
  {
    hide IsLight, FilesApart, RanksApart, Holds;
    forall s: Square, t: Square
      ensures IsLight(s) != IsLight(t) <==> (FilesApart(s, t) + RanksApart(s, t)) % 2 == 1
    {
      ShadesByDistance(s, t);
    }
    if HasPair(board, color) {
      var s: Square :| Holds(board, s, color, Bishop) && IsLight(s) == true;
      var t: Square :| Holds(board, t, color, Bishop) && IsLight(t) == false;
      assert TwoShades(board, color);
    }
    if s: Square, t: Square :| Holds(board, s, color, Bishop) && Holds(board, t, color, Bishop)
                               && (FilesApart(s, t) + RanksApart(s, t)) % 2 == 1 {
      assert HasBishopOn(board, color, IsLight(s)) && HasBishopOn(board, color, IsLight(t));
    }
  }

  // ---- Mopping up ----

  const CENTRE: seq<Square> := [27, 28, 35, 36]

  /** The distance from the centre is that from the nearest of d4, e4, d5 and e5, along files and ranks. */
  lemma CentreLaw(s: Square)
    ensures forall i: nat :: i < 4 ==> CentreDistance(s) <= FilesApart(s, CENTRE[i]) + RanksApart(s, CENTRE[i])
    ensures exists i: nat :: i < 4 && CentreDistance(s) == FilesApart(s, CENTRE[i]) + RanksApart(s, CENTRE[i])
  {
    var (f, r) := (File(s), Rank(s));
    assert FilesApart(s, 27) == FilesApart(s, 35) == Symmetry.Apart(f, 3) && FilesApart(s, 28) == FilesApart(s, 36) == Symmetry.Apart(f, 4);
    assert RanksApart(s, 27) == RanksApart(s, 28) == Symmetry.Apart(r, 3) && RanksApart(s, 35) == RanksApart(s, 36) == Symmetry.Apart(r, 4);
    hide FilesApart, RanksApart, File, Rank;
    var i := (if f <= 3 then 0 else 1) + if r <= 3 then 0 else 2;
    assert CentreDistance(s) == FilesApart(s, CENTRE[i]) + RanksApart(s, CENTRE[i]);
  }

  /** The kings' distance is the number of king's moves between them. */
  lemma KingsLaw(a: Square, b: Square)
    ensures KingDistance(a, b) == Gap(a, b)
  {
    hide File, Rank;
  }

  /** What the winning side gains from the place of the losing king and its own. */
  function Drive(winner: Square, loser: Square): int {
    4 * CentreDistance(loser) + 2 * (14 - Gap(winner, loser))
  }

  /**
   With few pieces left and an advantage of more than a pawn, the term is the winner's, it grows as the
   losing king leaves the centre and as the kings approach one another; otherwise it is nothing.
   */
  lemma MopUpLaw(white: Square, black: Square, mg: int, eg: int, phase: U8)
    ensures phase >= 5 || -100 <= Blend(mg, eg, phase) <= 100 ==> MopUp(white, black, mg, eg, phase) == 0
    ensures phase < 5 && Blend(mg, eg, phase) > 100 ==> MopUp(white, black, mg, eg, phase) == Drive(white, black) > 0
    ensures phase < 5 && Blend(mg, eg, phase) < -100 ==> MopUp(white, black, mg, eg, phase) == -Drive(black, white) < 0
  {
    KingsLaw(white, black);
    KingsLaw(black, white);
    GapIsSmall(white, black);
    GapIsSmall(black, white);
    hide Blend, CentreDistance, KingDistance, Gap;
  }

  lemma GapIsSmall(a: Square, b: Square)
    ensures 0 <= Gap(a, b) <= 7
  {}

  lemma DriveLaw(winner: Square, closer: Square, loser: Square, outer: Square)
    ensures CentreDistance(loser) < CentreDistance(outer) && Gap(winner, loser) == Gap(winner, outer) ==>
              Drive(winner, loser) < Drive(winner, outer)
    ensures Gap(closer, loser) < Gap(winner, loser) ==> Drive(winner, loser) < Drive(closer, loser)
  {
    hide CentreDistance, Gap;
  }

  // ---- The score ----

  /**
   With no scaling down and the material for a win: all pieces on, the score is the middlegame sum with
   30 for the bishop pair; the pieces off, the endgame sum with 50 and the mop-up.
   */
  lemma ScoreLaw(board: Board, white: Square, black: Square, mg: int, eg: int, phase: U8, others: Others, unit: int)
    requires unit > 0 && !InsufficientMaterial(board)
    ensures phase >= 24 ==>
              Score(board, White, white, black, mg, eg, phase, others, unit, unit) == mg + BishopPair(board, 30) + others.mg
    ensures phase == 0 ==>
              Score(board, White, white, black, mg, eg, phase, others, unit, unit) ==
              eg + BishopPair(board, 50) + others.eg + MopUp(white, black, mg, eg, 0)
  {
    var m := mg + BishopPair(board, BISHOP_PAIR_MG) + others.mg;
    var e := eg + BishopPair(board, BISHOP_PAIR_EG) + others.eg;
    BlendEnds(m, e, phase);
    Unscaled(Blend(m, e, phase), unit);
    MopUpLaw(white, black, mg, eg, phase);
    hide InsufficientMaterial, BishopPair, Blend, MopUp, Truncated;
  }

  lemma Unscaled(n: int, unit: int)
    requires unit > 0
    ensures Truncated(n * unit, unit) == n
  {
    if n >= 0 {
      Quotient(n, unit);
    } else {
      Quotient(-n, unit);
      NegatedProduct(n, unit);
    }
  }

  lemma Quotient(n: nat, unit: nat)
    requires unit > 0
    ensures n * unit >= 0 && n * unit / unit == n
  {
    Product(unit, 0, n);
    var q: nat := n * unit / unit;
    assert q * unit <= n * unit < q * unit + unit;
    if q < n { OneMore(q, n, unit); }
    if n < q { OneMore(n, q, unit); }
  }

  lemma OneMore(a: nat, b: nat, unit: nat)
    ensures a < b ==> a * unit + unit <= b * unit
  {
    if a < b {
      Product(unit, a + 1, b);
      assert (a + 1) * unit == a * unit + unit;
    }
  }

  /** The score is the mover's: what White sees, Black sees negated. A draw by material is nothing to either. */
  lemma PointOfView(board: Board, white: Square, black: Square, mg: int, eg: int, phase: U8, others: Others, scale: int, unit: int)
    requires unit > 0
    ensures Score(board, Black, white, black, mg, eg, phase, others, scale, unit)
         == -Score(board, White, white, black, mg, eg, phase, others, scale, unit)
    ensures InsufficientMaterial(board) ==> Score(board, White, white, black, mg, eg, phase, others, scale, unit) == 0
  {
    hide InsufficientMaterial, BishopPair, Blend, MopUp, Truncated;
  }

  // ---- The phase ----

  /** Setting a piece down raises the phase by one for a minor piece, two for a rook, four for a queen. */
  lemma PhaseLaw(board: Board, s: Square, p: Piece)
    requires board[s].None?
    ensures Sum(PhaseTable(), board[s := Some(p)]) ==
            Sum(PhaseTable(), board) + match p.kind case Knight => 1 case Bishop => 1 case Rook => 2 case Queen => 4 case _ => 0
  {
    SumUpdate(PhaseTable(), board, s, Some(p));
    PhaseEntry(p, s);
    hide Sum, PhaseTable;
  }

  /** All pieces on, it is 24. */
  lemma StartPhase()
    ensures Sum(PhaseTable(), StartPosition().board) == 24
  {
    var board := StartPosition().board;
    SumOfRanks(PhaseTable(), board);
    hide Sum, StartPosition, RankSum;
    StartRankPhase(0);
    StartRankPhase(1);
    StartRankPhase(2);
    StartRankPhase(3);
    StartRankPhase(4);
    StartRankPhase(5);
    StartRankPhase(6);
    StartRankPhase(7);
  }

  function StartWeight(r: Coordinate, i: Coordinate): nat {
    if r != 0 && r != 7 then 0
    else if i == 0 || i == 7 then 2
    else if i == 3 then 4
    else if i == 4 then 0
    else 1
  }

  lemma StartCellPhase(r: Coordinate, i: Coordinate)
    ensures CellValue(PhaseTable(), StartPosition().board[8 * r + i], 8 * r + i) == StartWeight(r, i)
  {
    var s: Square := 8 * r + i;
    assert File(s) == i && Rank(s) == r;
    var cell := StartCell(s);
    assert StartPosition().board[s] == cell;
    if cell.Some? { PhaseEntry(cell.value, s); }
    hide PhaseTable, StartPosition, File, Rank;
  }

  lemma RangeStep(t: Table, board: Board, low: nat, n: nat)
    requires low + n < 64
    ensures RangeSum(t, board, low, n + 1) == RangeSum(t, board, low, n) + CellValue(t, board[low + n], low + n)
    ensures RangeSum(t, board, low, 0) == 0
  {}

  lemma StartRankPhase(r: Coordinate)
    ensures RankSum(PhaseTable(), StartPosition().board, r) == if r == 0 || r == 7 then 12 else 0
  {
    hide RangeSum, CellValue, PhaseTable, StartPosition;
    StartRangePhase(r, 8);
    assert RankWeight(r, 8) == if r == 0 || r == 7 then 12 else 0;
  }

  function RankWeight(r: Coordinate, n: nat): nat
    requires n <= 8
  {
    if n == 0 then 0 else RankWeight(r, n - 1) + StartWeight(r, n - 1)
  }

  lemma {:induction false} StartRangePhase(r: Coordinate, n: nat)
    requires n <= 8
    ensures RangeSum(PhaseTable(), StartPosition().board, 8 * r, n) == RankWeight(r, n)
  {
    hide RangeSum, CellValue, PhaseTable, StartPosition, StartWeight;
    RangeStep(PhaseTable(), StartPosition().board, 8 * r, if n == 0 then 0 else n - 1);
    if n > 0 {
      StartRangePhase(r, n - 1);
      StartCellPhase(r, n - 1);
    }
  }

  // ---- Insufficient material ----

  /** How many squares before the `n`-th hold a piece of a sort. */
  function Weigh(board: Board, sort: Piece -> bool, n: nat): nat
    requires n <= 64
  {
    if n == 0 then 0
    else Weigh(board, sort, n - 1) + if board[n - 1].Some? && sort(board[n - 1].value) then 1 else 0
  }

  predicate HoldsSort(board: Board, sort: Piece -> bool, s: Square) {
    board[s].Some? && sort(board[s].value)
  }

  lemma {:induction false} WeighNone(board: Board, sort: Piece -> bool, n: nat)
    requires n <= 64
    ensures Weigh(board, sort, n) == 0 <==> forall s: Square :: s < n ==> !HoldsSort(board, sort, s)
  {
    if n > 0 {
      WeighNone(board, sort, n - 1);
      assert HoldsSort(board, sort, n - 1) <==> board[n - 1].Some? && sort(board[n - 1].value);
    }
  }

  ghost predicate OnlyOn(board: Board, sort: Piece -> bool, n: nat, k: Square) {
    k < n && forall s: Square :: s < n ==> (HoldsSort(board, sort, s) <==> s == k)
  }

  lemma {:induction false} WeighOne(board: Board, sort: Piece -> bool, n: nat)
    requires n <= 64
    ensures Weigh(board, sort, n) == 1 <==> exists k: Square :: OnlyOn(board, sort, n, k)
  {
    if n > 0 {
      var m: nat := n - 1;
      var last: Square := m;
      WeighOne(board, sort, m);
      WeighNone(board, sort, m);
      Weighed(board, sort, n);
      hide HoldsSort, Weigh;
      if HoldsSort(board, sort, last) {
        if Weigh(board, sort, m) == 0 { assert OnlyOn(board, sort, n, last); }
        if k: Square :| OnlyOn(board, sort, n, k) { assert k == last; }
      } else {
        if k: Square :| OnlyOn(board, sort, m, k) { assert OnlyOn(board, sort, n, k); }
        if k: Square :| OnlyOn(board, sort, n, k) { assert k != last && OnlyOn(board, sort, m, k); }
      }
    }
  }

  lemma Weighed(board: Board, sort: Piece -> bool, n: nat)
    requires 0 < n <= 64
    ensures Weigh(board, sort, n) == Weigh(board, sort, n - 1) + if HoldsSort(board, sort, n - 1) then 1 else 0
  {}

  lemma {:induction false} WeighParts(board: Board, whole: Piece -> bool, part: Piece -> bool, rest: Piece -> bool, n: nat)
    requires n <= 64 && forall p :: (whole(p) <==> part(p) || rest(p)) && !(part(p) && rest(p))
    ensures Weigh(board, whole, n) == Weigh(board, part, n) + Weigh(board, rest, n)
  {
    if n > 0 { WeighParts(board, whole, part, rest, n - 1); }
  }

  function Of(color: Color, kind: PieceKind): Piece -> bool {
    (p: Piece) => p == Piece(color, kind)
  }

  const ANY: Piece -> bool := (p: Piece) => true
  const MAN: Piece -> bool := (p: Piece) => !p.kind.King?
  const ROYAL: Piece -> bool := (p: Piece) => p.kind.King?

  function OfKind(kind: PieceKind): Piece -> bool {
    (p: Piece) => p.kind == kind
  }

  lemma {:induction false} CountIsWeight(board: Board, color: Color, kind: PieceKind, n: nat)
    requires n <= 64
    ensures Fen.CountTo(board, color, kind, n) == Weigh(board, Of(color, kind), n)
  {
    if n > 0 { CountIsWeight(board, color, kind, n - 1); }
  }

  lemma CountOfIsWeight(board: Board, color: Color, kind: PieceKind)
    ensures CountOf(board, color, kind) == Weigh(board, Of(color, kind), 64)
  {
    FoldCounts(board, color, kind, 64);
    CountIsWeight(board, color, kind, 64);
    hide CountTable, Of, Weigh, Fen.CountTo;
  }

  function TwelveWeights(board: Board, n: nat): nat
    requires n <= 64
  {
    Weigh(board, Of(White, Pawn), n) + Weigh(board, Of(White, Knight), n) + Weigh(board, Of(White, Bishop), n)
    + Weigh(board, Of(White, Rook), n) + Weigh(board, Of(White, Queen), n) + Weigh(board, Of(White, King), n)
    + Weigh(board, Of(Black, Pawn), n) + Weigh(board, Of(Black, Knight), n) + Weigh(board, Of(Black, Bishop), n)
    + Weigh(board, Of(Black, Rook), n) + Weigh(board, Of(Black, Queen), n) + Weigh(board, Of(Black, King), n)
  }

  lemma {:induction false} TwelveAreAll(board: Board, n: nat)
    requires n <= 64
    ensures TwelveWeights(board, n) == Weigh(board, ANY, n)
  {
    if n > 0 {
      TwelveAreAll(board, n - 1);
      forall color: Color, kind: PieceKind
        ensures Weigh(board, Of(color, kind), n) == Weigh(board, Of(color, kind), n - 1) + Hit(board[n - 1], color, kind)
      {
        if board[n - 1].Some? { PieceIs(board[n - 1].value); }
      }
      OneOfTwelve(board[n - 1]);
      assert Weigh(board, ANY, n) == Weigh(board, ANY, n - 1) + if board[n - 1].Some? then 1 else 0;
      hide Weigh, Of, Hit;
    }
  }

  lemma PieceIs(p: Piece)
    ensures p == Piece(p.color, p.kind)
  {}

  function Hit(cell: Cell, color: Color, kind: PieceKind): nat {
    if cell.Some? && cell.value.color == color && cell.value.kind == kind then 1 else 0
  }

  lemma OneOfTwelve(cell: Cell)
    ensures Hit(cell, White, Pawn) + Hit(cell, White, Knight) + Hit(cell, White, Bishop)
            + Hit(cell, White, Rook) + Hit(cell, White, Queen) + Hit(cell, White, King)
            + Hit(cell, Black, Pawn) + Hit(cell, Black, Knight) + Hit(cell, Black, Bishop)
            + Hit(cell, Black, Rook) + Hit(cell, Black, Queen) + Hit(cell, Black, King) == if cell.Some? then 1 else 0
  {}

  lemma SortsOfKind(kind: PieceKind)
    ensures forall p: Piece :: p.kind == kind <==> p == Piece(White, kind) || p == Piece(Black, kind)
  {
    forall p: Piece
      ensures p.kind == kind <==> p == Piece(White, kind) || p == Piece(Black, kind)
    {
      PieceIs(p);
      assert p.color == White || p.color == Black;
    }
  }

  /** The program's count is the number of occupied squares. */
  lemma PieceCountIs(board: Board)
    ensures PieceCount(board) == Weigh(board, ANY, 64)
  {
    CountOfIsWeight(board, White, Pawn);
    CountOfIsWeight(board, White, Knight);
    CountOfIsWeight(board, White, Bishop);
    CountOfIsWeight(board, White, Rook);
    CountOfIsWeight(board, White, Queen);
    CountOfIsWeight(board, White, King);
    CountOfIsWeight(board, Black, Pawn);
    CountOfIsWeight(board, Black, Knight);
    CountOfIsWeight(board, Black, Bishop);
    CountOfIsWeight(board, Black, Rook);
    CountOfIsWeight(board, Black, Queen);
    CountOfIsWeight(board, Black, King);
    TwelveAreAll(board, 64);
    hide CountOf, Weigh, Of;
  }

  lemma KindWeighs(board: Board, kind: PieceKind)
    ensures CountOf(board, White, kind) + CountOf(board, Black, kind) == Weigh(board, OfKind(kind), 64)
  {
    CountOfIsWeight(board, White, kind);
    CountOfIsWeight(board, Black, kind);
    SortsOfKind(kind);
    hide CountOf;
    WeighParts(board, OfKind(kind), Of(White, kind), Of(Black, kind), 64);
  }

  lemma TwoKings(board: Board)
    requires OneKing(board, White) && OneKing(board, Black)
    ensures Weigh(board, ANY, 64) == 2 + Weigh(board, MAN, 64)
  {
    forall color: Color
      ensures Weigh(board, Of(color, King), 64) == 1
    {
      assert color == White || color == Black;
      var k: Square :| KingAt(board, color, k);
      forall s: Square
        ensures HoldsSort(board, Of(color, King), s) <==> s == k
      {
        assert Holds(board, s, color, King) <==> s == k;
      }
      assert OnlyOn(board, Of(color, King), 64, k);
      WeighOne(board, Of(color, King), 64);
    }
    hide Weigh;
    WeighParts(board, ANY, ROYAL, MAN, 64);
    SortsOfKind(King);
    WeighParts(board, ROYAL, Of(White, King), Of(Black, King), 64);
  }

  /** Nothing but kings, `s` and `t` apart. */
  predicate Bare(board: Board, s: Square, t: Square) {
    forall u: Square :: u != s && u != t ==> board[u].None? || board[u].value.kind.King?
  }

  ghost predicate NoMen(board: Board) {
    forall u: Square :: board[u].None? || board[u].value.kind.King?
  }

  ghost predicate OneMinor(board: Board) {
    exists s: Square :: board[s].Some? && (board[s].value.kind.Knight? || board[s].value.kind.Bishop?) && Bare(board, s, s)
  }

  /** One bishop a side, an even number of steps apart. */
  ghost predicate LikeBishops(board: Board) {
    exists s: Square, t: Square ::
      && Holds(board, s, White, Bishop) && Holds(board, t, Black, Bishop) && Bare(board, s, t)
      && (FilesApart(s, t) + RanksApart(s, t)) % 2 == 0
  }

  /** The material is insufficient exactly for bare kings, one minor piece, or a bishop each on like shades. */
  lemma MaterialLaw(board: Board)
    requires OneKing(board, White) && OneKing(board, Black)
    ensures InsufficientMaterial(board) <==> NoMen(board) || OneMinor(board) || LikeBishops(board)
  {
    PieceCountIs(board);
    TwoKings(board);
    KindWeighs(board, Knight);
    KindWeighs(board, Bishop);
    NoMenWeigh(board);
    OneMinorWeighs(board);
    LikeBishopsWeigh(board);
    hide PieceCount, CountOf, Weigh, NoMen, OneMinor, LikeBishops, HasBishopOn, OneKing;
  }

  lemma NoMenWeigh(board: Board)
    ensures Weigh(board, MAN, 64) == 0 <==> NoMen(board)
  {
    WeighNone(board, MAN, 64);
    forall u: Square
      ensures HoldsSort(board, MAN, u) <==> !(board[u].None? || board[u].value.kind.King?)
    {}
    hide HoldsSort, Weigh;
  }

  lemma OneMinorWeighs(board: Board)
    ensures Weigh(board, MAN, 64) == 1 && (Weigh(board, OfKind(Knight), 64) == 1 || Weigh(board, OfKind(Bishop), 64) == 1) <==>
            OneMinor(board)
  {
    WeighOne(board, MAN, 64);
    WeighOne(board, OfKind(Knight), 64);
    WeighOne(board, OfKind(Bishop), 64);
    hide Weigh;
    forall kind: PieceKind, u: Square | kind.Knight? || kind.Bishop?
      ensures HoldsSort(board, OfKind(kind), u) ==> HoldsSort(board, MAN, u)
    {}
    if s: Square :| board[s].Some? && (board[s].value.kind.Knight? || board[s].value.kind.Bishop?) && Bare(board, s, s) {
      var kind := board[s].value.kind;
      assert OnlyOn(board, MAN, 64, s) && OnlyOn(board, OfKind(kind), 64, s);
    }
    if k: Square :| OnlyOn(board, MAN, 64, k) {
      forall kind: PieceKind, j: Square | OnlyOn(board, OfKind(kind), 64, j) && (kind.Knight? || kind.Bishop?)
        ensures OneMinor(board)
      {
        assert HoldsSort(board, OfKind(kind), j) && HoldsSort(board, MAN, j) && j == k;
        forall u: Square | u != k
          ensures board[u].None? || board[u].value.kind.King?
        {
          assert !HoldsSort(board, MAN, u);
        }
        assert Bare(board, k, k);
      }
    }
  }

  const REST: Piece -> bool := (p: Piece) => !p.kind.King? && !p.kind.Bishop?

  /** The men are the bishops of either side and the rest. */
  lemma MenByBishops(board: Board)
    ensures Weigh(board, MAN, 64) ==
            Weigh(board, Of(White, Bishop), 64) + Weigh(board, Of(Black, Bishop), 64) + Weigh(board, REST, 64)
  {
    SortsOfKind(Bishop);
    hide Weigh;
    WeighParts(board, MAN, OfKind(Bishop), REST, 64);
    WeighParts(board, OfKind(Bishop), Of(White, Bishop), Of(Black, Bishop), 64);
  }

  lemma LikeBishopsWeigh(board: Board)
    ensures Weigh(board, MAN, 64) == 2 && CountOf(board, White, Bishop) == 1 && CountOf(board, Black, Bishop) == 1
            && HasBishopOn(board, White, true) == HasBishopOn(board, Black, true) <==>
            LikeBishops(board)
  {
    CountOfIsWeight(board, White, Bishop);
    CountOfIsWeight(board, Black, Bishop);
    MenByBishops(board);
    WeighOne(board, Of(White, Bishop), 64);
    WeighOne(board, Of(Black, Bishop), 64);
    WeighNone(board, REST, 64);
    hide Weigh, CountOf, HasBishopOn, OnlyOn;
    if s: Square, t: Square :| OnlyOn(board, Of(White, Bishop), 64, s) && OnlyOn(board, Of(Black, Bishop), 64, t) {
      if forall u: Square :: !HoldsSort(board, REST, u) {
        OnlyBishops(board, s, t);
      }
    }
    if s: Square, t: Square :| Holds(board, s, White, Bishop) && Holds(board, t, Black, Bishop) && Bare(board, s, t)
                               && (FilesApart(s, t) + RanksApart(s, t)) % 2 == 0 {
      BishopsAlone(board, s, t);
    }
  }

  lemma OnlyBishops(board: Board, s: Square, t: Square)
    requires OnlyOn(board, Of(White, Bishop), 64, s) && OnlyOn(board, Of(Black, Bishop), 64, t)
    requires forall u: Square :: !HoldsSort(board, REST, u)
    ensures HasBishopOn(board, White, true) == HasBishopOn(board, Black, true) <==> LikeBishops(board)
  {
    OneBishopShade(board, White, s);
    OneBishopShade(board, Black, t);
    ShadesByDistance(s, t);
    forall u: Square | u != s && u != t
      ensures board[u].None? || board[u].value.kind.King?
    {
      assert !HoldsSort(board, Of(White, Bishop), u) && !HoldsSort(board, Of(Black, Bishop), u) && !HoldsSort(board, REST, u);
      if board[u].Some? {
        PieceIs(board[u].value);
        assert board[u].value.color == White || board[u].value.color == Black;
      }
    }
    assert HoldsSort(board, Of(White, Bishop), s) && HoldsSort(board, Of(Black, Bishop), t);
    assert Bare(board, s, t);
    hide HasBishopOn, IsLight, FilesApart, RanksApart, Bare;
    if i: Square, j: Square :| Holds(board, i, White, Bishop) && Holds(board, j, Black, Bishop) && Bare(board, i, j)
                               && (FilesApart(i, j) + RanksApart(i, j)) % 2 == 0 {
      assert HoldsSort(board, Of(White, Bishop), i) && HoldsSort(board, Of(Black, Bishop), j);
      assert i == s && j == t;
    }
  }

  lemma OneBishopShade(board: Board, color: Color, s: Square)
    requires OnlyOn(board, Of(color, Bishop), 64, s)
    ensures HasBishopOn(board, color, true) <==> IsLight(s)
  {
    hide IsLight;
    assert forall u: Square :: HoldsSort(board, Of(color, Bishop), u) <==> Holds(board, u, color, Bishop);
    assert HoldsSort(board, Of(color, Bishop), s);
  }

  lemma BishopsAlone(board: Board, s: Square, t: Square)
    requires Holds(board, s, White, Bishop) && Holds(board, t, Black, Bishop) && Bare(board, s, t)
    requires (FilesApart(s, t) + RanksApart(s, t)) % 2 == 0
    ensures OnlyOn(board, Of(White, Bishop), 64, s) && OnlyOn(board, Of(Black, Bishop), 64, t)
    ensures forall u: Square :: !HoldsSort(board, REST, u)
    ensures HasBishopOn(board, White, true) == HasBishopOn(board, Black, true)
  {
    forall u: Square
      ensures HoldsSort(board, Of(White, Bishop), u) <==> u == s
      ensures HoldsSort(board, Of(Black, Bishop), u) <==> u == t
      ensures !HoldsSort(board, REST, u)
    {
      assert s != t;
    }
    OneBishopShade(board, White, s);
    OneBishopShade(board, Black, t);
    ShadesByDistance(s, t);
  }
}
