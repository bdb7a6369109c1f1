/**
 The laws of chess in files and ranks, without masks, tables or the vocabulary of the generator: how the
 pieces go, what the board is afterwards, when a king is struck. The last lemmas tie them to generation.
*/
module Book {
  import opened Wrappers
  import opened Chess
  import opened Rules
  import opened Soundness
  import opened SlowAttacks
  import opened Moves
  import opened Lines
  import opened Checks
  import opened Legality
  import opened Generation
  import opened Laws

  // ---- Geometry ----

  function FilesApart(a: Square, b: Square): nat {
    if File(a) < File(b) then File(b) - File(a) else File(a) - File(b)
  }

  function RanksApart(a: Square, b: Square): nat {
    if Rank(a) < Rank(b) then Rank(b) - Rank(a) else Rank(a) - Rank(b)
  }

  /** King's moves from one square to the other on an empty board. */
  function Gap(a: Square, b: Square): nat {
    if FilesApart(a, b) < RanksApart(a, b) then RanksApart(a, b) else FilesApart(a, b)
  }

  predicate Straight(a: Square, b: Square) {
    a != b && (FilesApart(a, b) == 0 || RanksApart(a, b) == 0)
  }

  predicate Diagonal(a: Square, b: Square) {
    a != b && FilesApart(a, b) == RanksApart(a, b)
  }

  /** In line with both in the same manner, and nearer to either than they are to one another. */
  predicate Between(a: Square, b: Square, u: Square) {
    && ((Straight(a, b) && Straight(a, u) && Straight(u, b)) || (Diagonal(a, b) && Diagonal(a, u) && Diagonal(u, b)))
    && Gap(a, u) < Gap(a, b) && Gap(u, b) < Gap(a, b)
  }

  // ---- How the pieces strike ----

  ghost predicate Open(board: Board, a: Square, b: Square) {
    forall u: Square :: Between(a, b, u) ==> board[u].None?
  }

  /** The piece on `a` strikes `t`. */
  ghost predicate Strikes(board: Board, a: Square, t: Square) {
    && board[a].Some?
    && match board[a].value.kind
       case Pawn => FilesApart(a, t) == 1 && Rank(t) == if board[a].value.color.White? then Rank(a) + 1 else Rank(a) - 1
       case Knight => FilesApart(a, t) * RanksApart(a, t) == 2
       case Bishop => Diagonal(a, t) && Open(board, a, t)
       case Rook => Straight(a, t) && Open(board, a, t)
       case Queen => (Diagonal(a, t) || Straight(a, t)) && Open(board, a, t)
       case King => Gap(a, t) == 1
  }

  ghost predicate Struck(board: Board, side: Color, t: Square) {
    exists a: Square :: board[a].Some? && board[a].value.color == side && Strikes(board, a, t)
  }

  // ---- The board after a move ----

  /** What a pawn turns into. */
  function Becomes(flag: MoveFlag): Option<PieceKind> {
    match flag
    case KnightPromo => Some(Knight)
    case BishopPromo => Some(Bishop)
    case RookPromo => Some(Rook)
    case QueenPromo => Some(Queen)
    case KnightPromoCapture => Some(Knight)
    case BishopPromoCapture => Some(Bishop)
    case RookPromoCapture => Some(Rook)
    case QueenPromoCapture => Some(Queen)
    case _ => None
  }

  /** A pawn goes to another file, to an empty square. */
  predicate TakesInPassing(c: Core, mover: Piece, mv: Move) {
    mover.kind.Pawn? && File(mv.from) != File(mv.to) && c.board[mv.to].None?
  }

  /** A king goes two files along its rank. */
  predicate TakesRookAlong(mover: Piece, mv: Move) {
    mover.kind.King? && FilesApart(mv.from, mv.to) == 2 && Rank(mv.from) == Rank(mv.to)
  }

  function CellPlayed(c: Core, mover: Piece, mv: Move, s: Square): Cell {
    if s == mv.to then Some(if Becomes(mv.flag).Some? then Piece(mover.color, Becomes(mv.flag).value) else mover)
    else if s == mv.from then None
    else if TakesInPassing(c, mover, mv) && File(s) == File(mv.to) && Rank(s) == Rank(mv.from) then None
    else if TakesRookAlong(mover, mv) && Rank(s) == Rank(mv.from) && 2 * File(s) == File(mv.from) + File(mv.to) then
      Some(Piece(mover.color, Rook))
    else if TakesRookAlong(mover, mv) && Rank(s) == Rank(mv.from) && File(s) == (if File(mv.to) > 4 then 7 else 0) then None
    else c.board[s]
  }

  function Played(c: Core, mv: Move): Board
    requires c.board[mv.from].Some?
  {
    seq(64, s requires 0 <= s < 64 => CellPlayed(c, c.board[mv.from].value, mv, s))
  }

  // ---- How the pieces go ----

  predicate PlainFlag(c: Core, mv: Move) {
    mv.flag == if c.board[mv.to].Some? then Capture else Quiet
  }

  ghost predicate PawnGoes(c: Core, mv: Move) {
    var up := if c.side.White? then 1 else -1;
    var (second, last) := if c.side.White? then (1, 7) else (6, 0);
    var free := c.board[mv.to].None?;
    || (FilesApart(mv.from, mv.to) == 0 && Rank(mv.to) == Rank(mv.from) + up && free
        && if Rank(mv.to) == last then mv.flag in {KnightPromo, BishopPromo, RookPromo, QueenPromo} else mv.flag == Quiet)
    || (FilesApart(mv.from, mv.to) == 0 && Rank(mv.from) == second && Rank(mv.to) == second + 2 * up && free
        && Open(c.board, mv.from, mv.to) && mv.flag == DoublePush)
    || (FilesApart(mv.from, mv.to) == 1 && Rank(mv.to) == Rank(mv.from) + up && !free
        && if Rank(mv.to) == last
        then mv.flag in {KnightPromoCapture, BishopPromoCapture, RookPromoCapture, QueenPromoCapture}
        else mv.flag == Capture)
    || (FilesApart(mv.from, mv.to) == 1 && Rank(mv.to) == Rank(mv.from) + up && c.ep == Some(mv.to) && mv.flag == EnPassant)
  }

  /** From e1 or e8 along the rank, with the right held and nothing in the way of king or rook. */
  ghost predicate KingCastles(c: Core, mv: Move) {
    var short := mv.flag == KingCastle;
    && (mv.flag == KingCastle || mv.flag == QueenCastle)
    && Rank(mv.from) == Rank(mv.to) == (if c.side.White? then 0 else 7)
    && File(mv.from) == 4 && File(mv.to) == (if short then 6 else 2)
    && HasRight(c.castling, if c.side.White? then if short then 1 else 2 else if short then 4 else 8)
    && (forall s: Square :: Rank(s) == Rank(mv.from) && (if short then 4 < File(s) < 7 else 0 < File(s) < 4) ==>
                              c.board[s].None?)
    && (forall s: Square :: Rank(s) == Rank(mv.from) && (if short then 4 <= File(s) <= 6 else 2 <= File(s) <= 4) ==>
                              !Struck(c.board, c.side.Flip(), s))
  }

  ghost predicate Goes(c: Core, mv: Move) {
    && c.board[mv.from].Some? && c.board[mv.from].value.color == c.side
    && !(c.board[mv.to].Some? && c.board[mv.to].value.color == c.side)
    && match c.board[mv.from].value.kind
       case Pawn => PawnGoes(c, mv)
       case King => (Gap(mv.from, mv.to) == 1 && PlainFlag(c, mv)) || KingCastles(c, mv)
       case _ => Strikes(c.board, mv.from, mv.to) && PlainFlag(c, mv)
  }

  ghost predicate KingUnstruck(board: Board, color: Color) {
    forall s: Square :: Holds(board, s, color, King) ==> !Struck(board, color.Flip(), s)
  }

  /** A move of the rules: a piece goes as it may, and its king is not struck afterwards. */
  ghost predicate Allowed(c: Core, mv: Move) {
    Goes(c, mv) && KingUnstruck(Played(c, mv), c.side)
  }

  // ---- The two geometries ----

  lemma Apart(a: Square, b: Square)
    ensures FilesApart(a, b) == Distance(File(a), File(b)) && RanksApart(a, b) == Distance(Rank(a), Rank(b))
    ensures a == b <==> FilesApart(a, b) == 0 && RanksApart(a, b) == 0
  {}

  lemma LinedIs(a: Square, b: Square)
    ensures Straight(a, b) == Lined(RookSlider, a, b) && Diagonal(a, b) == Lined(BishopSlider, a, b)
  {
    hide File, Rank;
  }

  lemma BetweenIsInside(a: Square, b: Square, u: Square)
    requires Straight(a, b) || Diagonal(a, b)
    ensures Between(a, b, u) <==> Inside(a, b, u)
  {
    Apart(a, b);
    Apart(a, u);
    Apart(u, b);
    hide File, Rank;
  }

  lemma OpenIsClear(board: Board, a: Square, b: Square)
    requires Straight(a, b) || Diagonal(a, b)
    ensures Open(board, a, b) == Clear(board, a, b)
  {
    forall u: Square
      ensures Between(a, b, u) <==> Inside(a, b, u)
    {
      BetweenIsInside(a, b, u);
    }
    hide Between, Inside;
  }

  lemma LeapsAre(a: Square, t: Square)
    ensures FilesApart(a, t) * RanksApart(a, t) == 2 <==> KnightJump(a, t)
    ensures Gap(a, t) == 1 <==> KingStep(a, t)
  {
    Apart(a, t);
    var (f, r) := (FilesApart(a, t), RanksApart(a, t));
    assert f < 8 && r < 8;
    hide File, Rank, FilesApart, RanksApart;
    if f == 0 || r == 0 {} else if f == 1 {} else if f == 2 {} else { assert f * r >= 3; }
  }

  lemma PawnStrikes(color: Color, a: Square, t: Square)
    ensures FilesApart(a, t) == 1 && Rank(t) == (if color.White? then Rank(a) + 1 else Rank(a) - 1) <==> PawnHits(color, a, t)
  {
    Apart(a, t);
  }

  lemma StrikesIsHits(board: Board, a: Square, t: Square)
    requires board[a].Some?
    ensures Strikes(board, a, t) <==> Hits(board, board[a].value, a, t)
  {
    PawnStrikes(board[a].value.color, a, t);
    LeapsAre(a, t);
    LinedIs(a, t);
    if Straight(a, t) || Diagonal(a, t) { OpenIsClear(board, a, t); }
    hide File, Rank, FilesApart, RanksApart, Straight, Diagonal, Gap, Open, Clear, Lined, PawnHits, KnightJump, KingStep;
  }

  lemma StruckIsAttacked(board: Board, side: Color, t: Square)
    ensures Struck(board, side, t) <==> Attacked(board, side, t)
  {
    hide Strikes, Hits;
    forall a: Square | board[a].Some?
      ensures Strikes(board, a, t) <==> Hits(board, board[a].value, a, t)
    {
      StrikesIsHits(board, a, t);
    }
    if a: Square :| Ours(board, side, a) && Hits(board, board[a].value, a, t) {
      assert Strikes(board, a, t);
    }
  }

  // ---- The two boards ----

  lemma Coordinates(a: Square, b: Square)
    ensures File(a) == File(b) && Rank(a) == Rank(b) <==> a == b
  {}

  lemma ForwardIs(side: Color, a: Square, b: Square)
    ensures b == a + Forward(side) <==> File(b) == File(a) && Rank(b) == (if side.White? then Rank(a) + 1 else Rank(a) - 1)
    ensures b == a + 2 * Forward(side) <==> File(b) == File(a) && Rank(b) == (if side.White? then Rank(a) + 2 else Rank(a) - 2)
  {}

  lemma BecomesIsPromotion(flag: MoveFlag)
    ensures Becomes(flag) == flag.Promotion()
  {}

  /** How the coordinates of a pseudo-legal move tell its kind. */
  lemma KindOfMove(c: Core, mv: Move)
    requires Sound(c) && PseudoLegal(c, mv)
    ensures mv.from != mv.to
    ensures TakesInPassing(c, c.board[mv.from].value, mv) <==> mv.flag.EnPassant?
    ensures TakesRookAlong(c.board[mv.from].value, mv) <==> mv.flag.IsCastle()
  {
    var p := c.board[mv.from].value;
    Apart(mv.from, mv.to);
    ForwardIs(c.side, mv.from, mv.to);
    if mv.flag.IsCastle() { CastleShape(c, mv); CastlingFacts(c, mv); }
    if mv.flag.IsCapture() { VictimIsEnemy(c, mv); }
    hide Sound, Slides;
  }

  lemma PlayedIsNext(c: Core, mv: Move)
    requires Sound(c) && PseudoLegal(c, mv)
    ensures Played(c, mv) == NextBoard(c, mv)
  {
    NextBoardAt(c, mv);
    forall s: Square
      ensures CellPlayed(c, c.board[mv.from].value, mv, s) == CellAfter(c, mv, s)
    {
      CellsAgree(c, mv, s);
    }
    hide Sound, NextBoard, CellPlayed, CellAfter;
    assert forall s: Square :: Played(c, mv)[s] == NextBoard(c, mv)[s];
  }

  lemma CellsAgree(c: Core, mv: Move, s: Square)
    requires Sound(c) && PseudoLegal(c, mv)
    ensures CellPlayed(c, c.board[mv.from].value, mv, s) == CellAfter(c, mv, s)
  {
    KindOfMove(c, mv);
    BecomesIsPromotion(mv.flag);
    assert Landed(c, mv).color == c.side == c.board[mv.from].value.color by { LandedKing(c, mv); }
    if mv.flag.EnPassant? { VictimPlace(c, mv, s); }
    if mv.flag.IsCastle() { RookPlaces(c, mv, s); }
    if mv.flag.IsCapture() { VictimIsEnemy(c, mv); }
    hide Sound, Reaches, Applicable, TakesInPassing, TakesRookAlong, CaptureSquare, Becomes;
  }

  lemma VictimPlace(c: Core, mv: Move, s: Square)
    requires Sound(c) && PseudoLegal(c, mv) && mv.flag.EnPassant?
    ensures CaptureSquare(c, mv) == s <==> File(s) == File(mv.to) && Rank(s) == Rank(mv.from)
  {
    VictimIsEnemy(c, mv);
    ForwardIs(c.side, CaptureSquare(c, mv), mv.to);
    Coordinates(s, CaptureSquare(c, mv));
    assert PawnHits(c.side, mv.from, mv.to);
    hide Sound, File, Rank;
  }

  lemma RookPlaces(c: Core, mv: Move, s: Square)
    requires Sound(c) && PseudoLegal(c, mv) && mv.flag.IsCastle()
    ensures var (rookFrom, rookTo) := CastleRookSquares(c.side, mv.flag);
            && (s == rookTo <==> Rank(s) == Rank(mv.from) && 2 * File(s) == File(mv.from) + File(mv.to))
            && (s == rookFrom <==> Rank(s) == Rank(mv.from) && File(s) == (if File(mv.to) > 4 then 7 else 0))
  {
    var (rookFrom, rookTo) := CastleRookSquares(c.side, mv.flag);
    CastleShape(c, mv);
    assert mv.from == KingHome(c.side);
    Coordinates(s, rookFrom);
    Coordinates(s, rookTo);
    hide Sound, PseudoLegal;
  }

  // ---- The two ways of going ----

  lemma OfficerReaches(c: Core, mv: Move, kind: PieceKind)
    requires c.board[mv.from].Some? && c.board[mv.from].value.kind == kind && !kind.Pawn?
    ensures PieceReaches(c, mv, kind) <==> Strikes(c.board, mv.from, mv.to)
  {
    StrikesIsHits(c.board, mv.from, mv.to);
    SlidesAlongLines(c.board, BishopSlider, mv.from, mv.to);
    SlidesAlongLines(c.board, RookSlider, mv.from, mv.to);
    hide Strikes, Slides, Clear, Lined, KnightJump, KingStep;
  }

  /** Knights, bishops, rooks and queens, and the king but for castling. */
  lemma OfficerGoes(c: Core, mv: Move)
    requires Sound(c) && !mv.flag.IsCastle() && c.board[mv.from].Some? && !c.board[mv.from].value.kind.Pawn?
    ensures PseudoLegal(c, mv) <==> Goes(c, mv)
  {
    var kind := c.board[mv.from].value.kind;
    OfficerReaches(c, mv, kind);
    hide Sound, PieceReaches, Struck, PawnGoes;
  }

  lemma OpenTwo(c: Core, mv: Move)
    requires mv.to == mv.from + 2 * Forward(c.side)
    ensures Open(c.board, mv.from, mv.to) <==> c.board[mv.from + Forward(c.side)].None?
  {
    ForwardIs(c.side, mv.from, mv.to);
    Apart(mv.from, mv.to);
    PassedOver(c.side, mv.from, mv.to);
    forall u: Square
      ensures Between(mv.from, mv.to, u) <==> u == mv.from + Forward(c.side)
    {
      BetweenIsInside(mv.from, mv.to, u);
    }
    hide Between, Inside;
  }

  /** One step ahead, two steps ahead, or one step ahead to the next file. */
  lemma PawnPaths(c: Core, mv: Move)
    ensures mv.to == mv.from + Forward(c.side) <==> Ahead(c, mv, 1) && FilesApart(mv.from, mv.to) == 0
    ensures mv.to == mv.from + 2 * Forward(c.side) <==> Ahead(c, mv, 2) && FilesApart(mv.from, mv.to) == 0
    ensures PawnHits(c.side, mv.from, mv.to) <==> Ahead(c, mv, 1) && FilesApart(mv.from, mv.to) == 1
  {
    Apart(mv.from, mv.to);
    ForwardIs(c.side, mv.from, mv.to);
    PawnStrikes(c.side, mv.from, mv.to);
    hide File, Rank, PawnHits;
  }

  predicate Ahead(c: Core, mv: Move, n: nat) {
    Rank(mv.to) == if c.side.White? then Rank(mv.from) + n else Rank(mv.from) - n
  }

  predicate PawnPushed(c: Core, mv: Move) {
    mv.flag.Quiet? || mv.flag.DoublePush? || (mv.flag.Promotion().Some? && !mv.flag.IsCapture())
  }

  lemma PushesGo(c: Core, mv: Move)
    requires Sound(c) && PawnOn(c, mv.from) && PawnPushed(c, mv)
    ensures PseudoLegal(c, mv) <==> PawnGoes(c, mv)
  {
    PawnRank(c, mv.from);
    TargetIsFree(c);
    PawnPaths(c, mv);
    if mv.to == mv.from + 2 * Forward(c.side) { OpenTwo(c, mv); }
    hide Sound, Open, PawnHits, FilesApart, File;
  }

  lemma CapturesGo(c: Core, mv: Move)
    requires Sound(c) && PawnOn(c, mv.from) && !PawnPushed(c, mv) && !mv.flag.IsCastle()
    ensures PseudoLegal(c, mv) <==> PawnGoes(c, mv) && !Ours(c.board, c.side, mv.to)
  {
    PawnRank(c, mv.from);
    TargetIsFree(c);
    PawnPaths(c, mv);
    assert HoldsEnemy(c.board, mv.to, c.side) <==> c.board[mv.to].Some? && !Ours(c.board, c.side, mv.to);
    hide Sound, Open, PawnHits, FilesApart, File, HoldsEnemy, Ours;
  }

  lemma PawnsGo(c: Core, mv: Move)
    requires Sound(c) && !mv.flag.IsCastle() && c.board[mv.from].Some? && c.board[mv.from].value.kind.Pawn?
    ensures PseudoLegal(c, mv) <==> Goes(c, mv)
  {
    if c.board[mv.from].value.color == c.side {
      assert c.board[mv.from].value == Piece(c.side, Pawn);
      if PawnPushed(c, mv) {
        PushesGo(c, mv);
        PushedIsFree(c, mv);
      } else {
        CapturesGo(c, mv);
      }
      hide Sound, PseudoLegal, PawnGoes;
    }
  }

  lemma PushedIsFree(c: Core, mv: Move)
    requires Sound(c) && PawnPushed(c, mv)
    ensures PawnGoes(c, mv) ==> c.board[mv.to].None?
  {
    TargetIsFree(c);
    hide Sound, Open, FilesApart, File, Rank;
  }

  lemma PawnRank(c: Core, s: Square)
    requires Sound(c) && PawnOn(c, s)
    ensures 1 <= Rank(s) <= 6
  {}

  lemma TargetIsFree(c: Core)
    requires Sound(c)
    ensures c.ep.Some? ==> c.board[c.ep.value].None?
  {}

  // ---- Castling ----

  lemma CastlingSquares(side: Color, short: bool, s: Square)
    ensures var mv := Castling(side, short);
            && (Inside(mv.from, Corner(side, short), s) <==>
                Rank(s) == Rank(mv.from) && if short then 4 < File(s) < 7 else 0 < File(s) < 4)
            && (s == mv.from || s == mv.to || Inside(mv.from, mv.to, s) <==>
                Rank(s) == Rank(mv.from) && if short then 4 <= File(s) <= 6 else 2 <= File(s) <= 4)
  {
    var mv := Castling(side, short);
    AlongRank(mv.from, mv.to, s);
    AlongRank(mv.from, Corner(side, short), s);
    hide Inside;
  }

  lemma KingCastlesIs(c: Core, short: bool)
    ensures KingCastles(c, Castling(c.side, short)) <==>
            HasRight(c.castling, RightOf(c.side, short)) && RookSees(c, short) && KingWalksSafely(c, short)
  {
    var mv := Castling(c.side, short);
    forall s: Square
      ensures Struck(c.board, c.side.Flip(), s) <==> Attacked(c.board, c.side.Flip(), s)
      ensures Inside(mv.from, Corner(c.side, short), s) <==>
              Rank(s) == Rank(mv.from) && if short then 4 < File(s) < 7 else 0 < File(s) < 4
      ensures s == mv.from || s == mv.to || Inside(mv.from, mv.to, s) <==>
              Rank(s) == Rank(mv.from) && if short then 4 <= File(s) <= 6 else 2 <= File(s) <= 4
    {
      StruckIsAttacked(c.board, c.side.Flip(), s);
      CastlingSquares(c.side, short, s);
    }
    assert Rank(mv.from) == Rank(mv.to) == (if c.side.White? then 0 else 7);
    assert File(mv.from) == 4 && File(mv.to) == if short then 6 else 2;
    assert mv.flag == if short then KingCastle else QueenCastle;
    hide Struck, Attacked, Inside, HasRight, Castling;
  }

  /** Whatever castles goes from the king's home to a side of the board. */
  lemma CastlingForm(c: Core, mv: Move)
    requires Sound(c) && mv.flag.IsCastle()
    ensures KingCastles(c, mv) ==> mv == Castling(c.side, mv.flag.KingCastle?)
    ensures PseudoLegal(c, mv) ==> mv == Castling(c.side, mv.flag.KingCastle?)
    ensures KingCastles(c, mv) ==> Holds(c.board, mv.from, c.side, King) && c.board[mv.to].None?
  {
    if KingCastles(c, mv) {
      Coordinates(mv.from, Castling(c.side, mv.flag.KingCastle?).from);
      Coordinates(mv.to, Castling(c.side, mv.flag.KingCastle?).to);
    }
    hide Struck, Reaches;
  }

  lemma CastlesGo(c: Core, mv: Move)
    requires Sound(c) && mv.flag.IsCastle()
    ensures Legal(c, mv) <==> Goes(c, mv)
  {
    var short := mv.flag.KingCastle?;
    CastlingForm(c, mv);
    CastlingLaw(c, short);
    KingCastlesIs(c, short);
    LegalNeedsReach(c, mv);
    GoesByCastling(c, mv);
    hide Sound, PseudoLegal, Legal, Goes, KingCastles, Gen, Castling;
  }

  lemma GoesByCastling(c: Core, mv: Move)
    requires mv.flag.IsCastle()
    ensures Goes(c, mv) <==> KingCastles(c, mv) && Holds(c.board, mv.from, c.side, King) && !Ours(c.board, c.side, mv.to)
  {
    hide KingCastles, Strikes;
  }

  // ---- Legality, generation and the successor by the book ----

  /** On every sound position the legal moves are those of the book. */
  lemma AllowedIsLegal(c: Core, mv: Move)
    requires Sound(c)
    ensures Allowed(c, mv) <==> Legal(c, mv)
  {
    if mv.flag.IsCastle() {
      CastlesGo(c, mv);
    } else {
      OthersGo(c, mv);
    }
    LegalNeedsReach(c, mv);
    if PseudoLegal(c, mv) { SafeIsUnstruck(c, mv); }
    PseudoLegalMoves(c, mv);
    hide Sound, PseudoLegal, Goes, Legal;
  }

  lemma PseudoLegalMoves(c: Core, mv: Move)
    ensures PseudoLegal(c, mv) || Goes(c, mv) ==> c.board[mv.from].Some?
  {
    hide PawnGoes, KingCastles, Strikes, Reaches;
  }

  lemma OthersGo(c: Core, mv: Move)
    requires Sound(c) && !mv.flag.IsCastle()
    ensures PseudoLegal(c, mv) <==> Goes(c, mv)
  {
    PseudoLegalMoves(c, mv);
    if c.board[mv.from].Some? {
      if c.board[mv.from].value.kind.Pawn? { PawnsGo(c, mv); } else { OfficerGoes(c, mv); }
    }
    hide Sound, PseudoLegal, Goes;
  }

  lemma SafeIsUnstruck(c: Core, mv: Move)
    requires Sound(c) && PseudoLegal(c, mv)
    ensures c.board[mv.from].Some?
    ensures Legal(c, mv) ==> KingUnstruck(Played(c, mv), c.side)
    ensures !mv.flag.IsCastle() ==> (Legal(c, mv) <==> KingUnstruck(Played(c, mv), c.side))
  {
    PlayedIsNext(c, mv);
    KingAfter(c, mv);
    PseudoLegalMoves(c, mv);
    var after := NextBoard(c, mv);
    var k := KingOf(c.board, c.side);
    var there := if mv.from == k then mv.to else k;
    UnstruckAt(after, c.side, there);
    StruckIsAttacked(after, c.side.Flip(), there);
    hide Sound, PseudoLegal, Played, NextBoard, Struck, Attacked, KingUnstruck;
  }

  lemma UnstruckAt(board: Board, color: Color, k: Square)
    requires KingAt(board, color, k)
    ensures KingUnstruck(board, color) <==> !Struck(board, color.Flip(), k)
  {
    hide Struck, Holds;
    assert Holds(board, k, color, King);
  }

  /** On fair positions the generator emits the moves of the book, each of them once. */
  lemma GenIsByTheBook(c: Core)
    requires Fair(c)
    ensures forall mv :: mv in Gen(c) <==> Allowed(c, mv)
    ensures Distinct(Gen(c))
  {
    GuardedParts(c);
    GenIsLegal(c);
    forall mv
      ensures Legal(c, mv) <==> Allowed(c, mv)
    {
      AllowedIsLegal(c, mv);
    }
    hide Fair, Sound, Legal, Allowed, Gen, Distinct;
  }

  /** And making one of them leaves the board of the book. */
  lemma NextIsByTheBook(c: Core, mv: Move)
    requires Sound(c) && Allowed(c, mv)
    ensures Applicable(c, mv) && Next(c, mv).board == Played(c, mv)
  {
    AllowedIsLegal(c, mv);
    LegalNeedsReach(c, mv);
    PlayedIsNext(c, mv);
    hide Sound, Legal, Reaches, Allowed, Played, NextBoard, NextEp, NextCastling;
  }

  /** The idle king is unattacked exactly if it is not struck. */
  lemma GuardedByTheBook(c: Core)
    ensures Guarded(c) <==> Sound(c) && KingUnstruck(c.board, c.side.Flip())
  {
    if Sound(c) {
      HasKings(c, c.side.Flip());
      var k := KingOf(c.board, c.side.Flip());
      assert c.side.Flip().Flip() == c.side;
      UnstruckAt(c.board, c.side.Flip(), k);
      StruckIsAttacked(c.board, c.side, k);
    }
    hide Sound, Struck, Attacked, KingUnstruck;
  }
}
