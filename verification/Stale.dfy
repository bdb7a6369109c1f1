/**
 What the code does after a king was taken: the king cache still names the square where the king was
 lost, moves are generated for whatever stands there, and making and unmaking such a move does not
 give the turn back. Boards and turns alone; the other fields play no part in it.
*/
module Stale {
  import opened Wrappers
  import opened Chess
  import opened Rules
  import opened Soundness
  import opened Placement
  import opened Fen
  import opened Moves
  import opened Lines
  import opened Checks
  import opened Legality
  import opened Filters
  import opened Generation
  import opened Perft
  import opened Games
  import opened Sessions
  import opened Lapses

  // ---- Making and unmaking, of whoever's piece ----

  datatype Turn = Turn(board: Board, side: Color)

  /** A move of one piece, en passant and castling apart. */
  predicate OnePiece(mv: Move) {
    !mv.flag.EnPassant? && !mv.flag.IsCastle() && mv.from != mv.to
  }

  /** `make_move`: the mover's colour is read off the board. */
  function Made(t: Turn, mv: Move): Turn
    requires t.board[mv.from].Some?
  {
    var mover := t.board[mv.from].value;
    var landed := if mv.flag.Promotion().Some? then Piece(mover.color, mv.flag.Promotion().value) else mover;
    Turn(t.board[mv.from := None][mv.to := Some(landed)], mover.color.Flip())
  }

  /** `unmake_move`: the mover's colour is the side not to move. */
  function Unmade(t: Turn, mv: Move, captured: Option<Piece>): Turn
    requires t.board[mv.to].Some?
  {
    var us := t.side.Flip();
    var back := if mv.flag.Promotion().Some? then Piece(us, Pawn) else t.board[mv.to].value;
    Turn(t.board[mv.to := captured][mv.from := Some(back)], us)
  }

  /** On sound positions these are the moves of the rules, and their undoing. */
  lemma MadeIsNext(c: Core, mv: Move)
    requires Sound(c) && Applicable(c, mv) && OnePiece(mv)
    ensures Made(Turn(c.board, c.side), mv) == Turn(NextBoard(c, mv), Next(c, mv).side)
    ensures Unmade(Made(Turn(c.board, c.side), mv), mv, Captured(c, mv)) == Turn(c.board, c.side)
  {
    var made := Made(Turn(c.board, c.side), mv);
    assert made.board == NextBoard(c, mv);
    assert c.board[mv.to] == Captured(c, mv);
    hide Sound, NextBoard;
    UndoneExactly(Turn(c.board, c.side), mv);
  }

  /** What a generated move assumes of its two squares. */
  predicate Fits(t: Turn, mv: Move) {
    && OnePiece(mv)
    && t.board[mv.from].Some?
    && (t.board[mv.to].Some? <==> mv.flag.IsCapture())
    && (mv.flag.Promotion().Some? ==> t.board[mv.from].value.kind.Pawn?)
  }

  /** Unmaking gives the board back, and the turn to the owner of the piece: all is as before exactly if it was theirs. */
  lemma UndoneExactly(t: Turn, mv: Move)
    requires Fits(t, mv)
    ensures var mover := t.board[mv.from].value.color;
            && Unmade(Made(t, mv), mv, t.board[mv.to]) == Turn(t.board, mover)
            && (Unmade(Made(t, mv), mv, t.board[mv.to]) == t <==> mover == t.side)
  {
    var mover := t.board[mv.from].value;
    var again := Unmade(Made(t, mv), mv, t.board[mv.to]);
    assert mover.color.Flip().Flip() == mover.color;
    assert again.board == t.board;
  }

  // ---- The king emitter, with cached king squares ----

  /** Lines are open over the empty squares, the king's square with its occupancy turned round. */
  ghost predicate ClearTurned(board: Board, k: Square, a: Square, b: Square) {
    forall u: Square :: Inside(a, b, u) ==> if u == k then board[u].Some? else board[u].None?
  }

  /** `king_danger`, from the pieces of the other side and its cached king square `e`. */
  ghost predicate InDanger(board: Board, them: Color, k: Square, e: Square, s: Square) {
    || KingStep(e, s)
    || exists a: Square ::
         && Ours(board, them, a) && !board[a].value.kind.King?
         && (Leaps(board[a].value, a, s) || (Aims(board[a].value.kind, a, s) && ClearTurned(board, k, a, s)))
  }

  /** `emit_king_moves` has a step from the cached square `k` to `to`. */
  ghost predicate Steps(board: Board, us: Color, k: Square, e: Square, to: Square) {
    KingStep(k, to) && !Ours(board, us, to) && !InDanger(board, us.Flip(), k, e, to)
  }

  /** With both kings where the cache has them, these are the king's moves that pass. */
  lemma StepsPass(c: Core, k: Square, e: Square, to: Square)
    requires Sound(c) && KingAt(c.board, c.side, k) && KingAt(c.board, c.side.Flip(), e)
    ensures Steps(c.board, c.side, k, e, to) <==> Passes(c, Plain(c, k, to))
  {
    assert Holds(c.board, k, c.side, King) && Holds(c.board, e, c.side.Flip(), King);
    KingSteps(c, k, to);
    var (bare, them) := (c.board[k := None], c.side.Flip());
    hide Sound, Passes, Plain, Inside, Lined, PawnHits, KnightJump, KingStep;
    forall a: Square
      ensures ClearTurned(c.board, k, a, to) <==> Clear(bare, a, to)
    {}
    hide Clear, ClearTurned;
    if a: Square :| Ours(bare, them, a) && Hits(bare, bare[a].value, a, to) {
      assert Ours(c.board, them, a) && bare[a] == c.board[a];
      assert c.board[a].value.kind.King? ==> Holds(c.board, a, them, King);
    }
    if InDanger(c.board, them, k, e, to) {
      if KingStep(e, to) {
        assert Ours(bare, them, e) && Hits(bare, bare[e].value, e, to);
      } else {
        var a: Square :| && Ours(c.board, them, a) && !c.board[a].value.kind.King?
                         && (Leaps(c.board[a].value, a, to)
                             || (Aims(c.board[a].value.kind, a, to) && ClearTurned(c.board, k, a, to)));
        assert Ours(bare, them, a) && Hits(bare, bare[a].value, a, to);
      }
    }
  }

  // ---- The last ply of plain counting ----

  /** Makes a move and takes it back. */
  function Tried(t: Turn, mv: Move): Turn {
    if Fits(t, mv) then Unmade(Made(t, mv), mv, t.board[mv.to]) else t
  }

  /** The loop of plain counting one ply above the leaves. */
  function AfterLeaves(t: Turn, moves: seq<Move>): Turn
    decreases |moves|
  {
    if moves == [] then t else AfterLeaves(Tried(t, moves[0]), moves[1..])
  }

  /** Trying moves of the pieces of one colour, one at least, leaves the turn with that colour. */
  lemma {:induction false} LeavesTurn(t: Turn, moves: seq<Move>, mover: Color)
    requires forall i :: 0 <= i < |moves| ==> Fits(t, moves[i]) && t.board[moves[i].from].value.color == mover
    ensures AfterLeaves(t, moves) == if moves == [] then t else Turn(t.board, mover)
    decreases |moves|
  {
    if moves != [] {
      UndoneExactly(t, moves[0]);
      LeavesTurn(Turn(t.board, mover), moves[1..], mover);
    }
  }

  // ---- A count that goes wrong ----

  /** A pseudo-legal move after which the other side has nothing but kings is generated. */
  lemma BareSideGenerates(c: Core, mv: Move, k: Square)
    requires Sound(c) && PseudoLegal(c, mv) && Applicable(c, mv)
    requires KingAt(c.board, c.side, k) && mv.from != k && !mv.flag.IsCastle() && !mv.flag.EnPassant?
    requires forall s: Square :: Ours(NextBoard(c, mv), c.side.Flip(), s) ==> NextBoard(c, mv)[s].value.kind.King?
    ensures mv in Gen(c)
  {
    hide Sound, PseudoLegal, Applicable, NextBoard, Gen, Hits, MoveFlag.IsCastle;
    KingIs(c.board, c.side, k);
    assert !Checked(NextBoard(c, mv), c.side, k);
    assert Passes(c, mv);
    GenHas(c);
  }

  const C7: Square := 50
  const E7: Square := 52

  /** `3k4/4P3/8/8/8/8/8/K7 w - - 0 1`: the pawn may take the king and become a knight. */
  function PawnTakes(): Core {
    var kings := EmptyBoard()[A1 := Some(Piece(White, King))][D8 := Some(Piece(Black, King))];
    Core(kings[E7 := Some(Piece(White, Pawn))], White, NO_RIGHTS, None, 0, 1)
  }

  /** The pawn on e7 of either colour, the kings on a1 and d8. */
  predicate PawnOnE7(board: Board, color: Color) {
    && Holds(board, A1, White, King) && Holds(board, D8, Black, King) && Holds(board, E7, color, Pawn)
    && forall s: Square :: s != A1 && s != D8 && s != E7 ==> board[s].None?
  }

  function Promote(flag: MoveFlag): Move {
    Move(E7, D8, flag)
  }

  function BecomesKnight(): Move {
    Promote(KnightPromoCapture)
  }

  /** White's king on a1, one piece on d8, and nothing else. */
  predicate OnD8(board: Board, p: Piece) {
    && Holds(board, A1, White, King) && board[D8] == Some(p) && !p.kind.King? && !p.kind.Pawn?
    && forall s: Square :: s != A1 && s != D8 ==> board[s].None?
  }

  lemma PawnTakesIs()
    ensures PawnOnE7(PawnTakes().board, White) && Sound(PawnTakes())
    ensures KingAt(PawnTakes().board, White, A1) && KingAt(PawnTakes().board, Black, D8)
  {
    var board := PawnTakes().board;
    assert forall s: Square :: s != A1 && s != D8 && s != E7 ==> board[s].None?;
    assert KingAt(board, White, A1) && KingAt(board, Black, D8);
  }

  lemma PawnTakesFacts(flag: MoveFlag)
    requires flag.IsPromoCapture()
    ensures var (c, mv) := (PawnTakes(), Promote(flag));
            && Sound(c) && c.side == White && c.fullmove == 1 && PawnOnE7(c.board, White) && KingAt(c.board, White, A1)
            && PseudoLegal(c, mv) && Applicable(c, mv) && TakesKing(c, mv) && Captured(c, mv) == Some(Piece(Black, King))
  {
    PawnTakesIs();
    var (c, mv) := (PawnTakes(), Promote(flag));
    assert PseudoLegal(c, mv) && Applicable(c, mv) && TakesKing(c, mv);
    hide Sound, PawnTakes, PseudoLegal, Applicable, TakesKing;
  }

  /** All four captures are generated, so a king is taken before the second ply. */
  lemma PawnTakesGenerated(flag: MoveFlag)
    requires flag.IsPromoCapture()
    ensures var c := PawnTakes();
            && Sound(c) && Parse(Format(c)) == Ok(c)
            && Promote(flag) in Gen(c) && TakesKing(c, Promote(flag))
            && !Tame(c, 2)
  {
    var (c, mv) := (PawnTakes(), Promote(flag));
    PawnTakesFacts(flag);
    PromotedBoard(c, flag);
    hide PawnTakes, Sound, PseudoLegal, Applicable, NextBoard, TakesKing, Gen, Parse, Format, Tame, TakesKingLast;
    Recorded(c);
    BareSideGenerates(c, mv, A1);
    TakenAtOnce(c, mv);
  }

  lemma Recorded(c: Core)
    requires Sound(c) && c.fullmove == 1
    ensures Parse(Format(c)) == Ok(c)
  {
    hide Parse, Format, Sound;
    FormatParses(c);
  }

  lemma TakenAtOnce(c: Core, mv: Move)
    requires Sound(c) && mv in Gen(c) && TakesKing(c, mv)
    ensures !Tame(c, 2)
  {
    hide Sound, Gen, TakesKing, Tame;
    TameExactly(c, 2);
    assert TakesKingLast(c, [mv]);
  }

  lemma PromotedBoard(c: Core, flag: MoveFlag)
    requires Sound(c) && Applicable(c, Promote(flag)) && PawnOnE7(c.board, White) && c.side == White && flag.IsPromoCapture()
    ensures OnD8(NextBoard(c, Promote(flag)), Piece(White, flag.Promotion().value))
    ensures forall s: Square :: !Ours(NextBoard(c, Promote(flag)), Black, s)
  {
    NextBoardAt(c, Promote(flag));
    VictimIsEnemy(c, Promote(flag));
    hide Sound, Applicable, NextBoard;
  }

  /** A step the king emitter has for Black, whose cached square is d8. */
  ghost predicate FromD8(board: Board, mv: Move) {
    && mv.from == D8 && Steps(board, Black, D8, A1, mv.to)
    && mv.flag == if board[mv.to].Some? then Capture else Quiet
  }

  lemma KnightSteps(t: Turn)
    requires OnD8(t.board, Piece(White, Knight))
    ensures FromD8(t.board, Move(D8, C7, Quiet))
    ensures forall mv :: FromD8(t.board, mv) ==> Fits(t, mv) && t.board[mv.from].value.color == White
  {
    hide Inside, Lined;
    assert !InDanger(t.board, White, D8, A1, C7);
  }

  /**
   Two plies of plain counting leave another board than they found: the knight on d8 is moved as if it
   were Black's king, the turn stays White's, and taking back the promotion sets down a black pawn. Bulk
   counting, which makes no move at the last ply, takes the promotion back as it should.
   */
  lemma PlainCountCorrupts(moves: seq<Move>)
    requires forall i :: 0 <= i < |moves| ==> FromD8(Made(Turn(PawnTakes().board, White), BecomesKnight()).board, moves[i])
    requires moves != []
    ensures var (root, king) := (Turn(PawnTakes().board, White), Some(Piece(Black, King)));
            var t := Made(root, BecomesKnight());
            && FromD8(t.board, Move(D8, C7, Quiet))
            && Unmade(t, BecomesKnight(), king) == root
            && AfterLeaves(t, moves) == Turn(t.board, White) != t
            && Holds(Unmade(AfterLeaves(t, moves), BecomesKnight(), king).board, E7, Black, Pawn)
  {
    var c := PawnTakes();
    PawnTakesFacts(KnightPromoCapture);
    PromotedBoard(c, KnightPromoCapture);
    hide PawnTakes, Sound, PseudoLegal, Applicable, NextBoard, TakesKing, FromD8, Fits;
    MadeIsNext(c, BecomesKnight());
    var t := Made(Turn(c.board, White), BecomesKnight());
    KnightSteps(t);
    LeavesTurn(t, moves, White);
  }

  // ---- Plain and bulk counting, two plies deep ----

  /** The king cache of every board below: White's king never moves, and Black's was last seen on d8. */
  function Cached(side: Color): Square {
    if side.White? then A1 else D8
  }

  ghost function StepTo(t: Turn, s: Square): seq<Move> {
    if Steps(t.board, t.side, Cached(t.side), Cached(t.side.Flip()), s)
    then [Move(Cached(t.side), s, if t.board[s].Some? then Capture else Quiet)]
    else []
  }

  /** All moves of a side that has no piece elsewhere and no right to castle, in the order they are emitted. */
  ghost function StepMoves(t: Turn, s: nat): seq<Move>
    requires s <= 64
    decreases 64 - s
  {
    if s == 64 then [] else StepTo(t, s) + StepMoves(t, s + 1)
  }

  /** The second ply of bulk counting: moves are made one after another, the replies counted, the moves unmade. */
  ghost function BulkSum(t: Turn, moves: seq<Move>): nat
    decreases |moves|
  {
    if moves == [] || !Fits(t, moves[0]) then 0
    else
      var made := Made(t, moves[0]);
      |StepMoves(made, 0)| + BulkSum(Unmade(made, moves[0], t.board[moves[0].to]), moves[1..])
  }

  /** The second ply of plain counting: every reply is made and unmade as well. */
  ghost function PlainSum(t: Turn, moves: seq<Move>): nat
    decreases |moves|
  {
    if moves == [] || !Fits(t, moves[0]) then 0
    else
      var made := Made(t, moves[0]);
      var after := AfterLeaves(made, StepMoves(made, 0));
      var back := if after.board[moves[0].to].Some? then Unmade(after, moves[0], t.board[moves[0].to]) else after;
      |StepMoves(made, 0)| + PlainSum(back, moves[1..])
  }

  lemma {:induction false} NoSteps(t: Turn, n: nat, m: nat)
    requires n <= m <= 64
    requires forall s: Square :: n <= s < m ==> !KingStep(Cached(t.side), s)
    ensures StepMoves(t, n) == StepMoves(t, m)
    decreases m - n
  {
    hide KingStep, Cached, InDanger;
    if n < m {
      NoSteps(t, n + 1, m);
      assert !KingStep(Cached(t.side), n);
    }
  }

  lemma OneStep(t: Turn, s: Square)
    ensures StepMoves(t, s) == StepTo(t, s) + StepMoves(t, s + 1)
  {
    hide StepTo;
  }

  lemma StepsFromD8(t: Turn)
    requires t.side.Black?
    ensures |StepMoves(t, 0)| == |StepTo(t, 50)| + |StepTo(t, 51)| + |StepTo(t, 52)| + |StepTo(t, 58)| + |StepTo(t, 60)|
  {
    hide StepTo, StepMoves;
    assert Cached(t.side) == D8;
    NoSteps(t, 0, 50);
    OneStep(t, 50);
    OneStep(t, 51);
    OneStep(t, 52);
    NoSteps(t, 53, 58);
    OneStep(t, 58);
    NoSteps(t, 59, 60);
    OneStep(t, 60);
    NoSteps(t, 61, 64);
    StepsEnd(t);
  }

  lemma StepsFromA1(t: Turn)
    requires t.side.White?
    ensures |StepMoves(t, 0)| == |StepTo(t, 1)| + |StepTo(t, 8)| + |StepTo(t, 9)|
  {
    hide StepTo, StepMoves;
    assert Cached(t.side) == A1;
    NoSteps(t, 0, 1);
    OneStep(t, 1);
    NoSteps(t, 2, 8);
    OneStep(t, 8);
    OneStep(t, 9);
    NoSteps(t, 10, 64);
    StepsEnd(t);
  }

  lemma StepsEnd(t: Turn)
    ensures StepMoves(t, 64) == []
  {}

  /** Next to d8, Black steps where White's piece on d8 does not reach. */
  lemma BlackStepTo(t: Turn, p: Piece, s: Square)
    requires OnD8(t.board, p) && p.color.White? && t.side.Black? && KingStep(D8, s)
    ensures |StepTo(t, s)| == if Leaps(p, D8, s) || Aims(p.kind, D8, s) then 0 else 1
  {
    assert !KingStep(A1, s) && s != A1;
    assert forall u: Square :: !Inside(D8, s, u);
    hide Inside, Lined, KingStep, Leaps, Aims;
    assert Ours(t.board, White, D8);
  }

  /** Nothing on d8 keeps the king from leaving a1. */
  lemma WhiteStepTo(t: Turn, p: Piece, s: Square)
    requires OnD8(t.board, p) && p.color.Black? && t.side.White? && (s == 1 || s == 8 || s == 9)
    ensures |StepTo(t, s)| == 1
  {
    assert !KingStep(D8, s) && KingStep(A1, s) && !Leaps(p, D8, s) && !Aims(p.kind, D8, s);
    hide Inside, Lined, KingStep, Leaps, Aims;
    assert !InDanger(t.board, Black, A1, D8, s);
  }

  /** Replies to White's promotions on d8. */
  lemma BlackReplies(t: Turn, p: Piece)
    requires OnD8(t.board, p) && p.color.White? && t.side.Black?
    ensures |StepMoves(t, 0)| == match p.kind case Knight => 5 case Bishop => 3 case Rook => 2 case _ => 0
  {
    StepsFromD8(t);
    ReachFromD8(p);
    assert KingStep(D8, 50) && KingStep(D8, 51) && KingStep(D8, 52) && KingStep(D8, 58) && KingStep(D8, 60);
    hide KingStep, StepTo, StepMoves, OnD8, Leaps, Aims;
    BlackStepTo(t, p, 50);
    BlackStepTo(t, p, 51);
    BlackStepTo(t, p, 52);
    BlackStepTo(t, p, 58);
    BlackStepTo(t, p, 60);
  }

  predicate SeesFromD8(p: Piece, s: Square) {
    Leaps(p, D8, s) || Aims(p.kind, D8, s)
  }

  lemma ReachFromD8(p: Piece)
    requires !p.kind.King? && !p.kind.Pawn?
    ensures SeesFromD8(p, 50) == SeesFromD8(p, 52) == (p.kind.Bishop? || p.kind.Queen?)
    ensures SeesFromD8(p, 51) == SeesFromD8(p, 58) == SeesFromD8(p, 60) == (p.kind.Rook? || p.kind.Queen?)
  {}

  lemma WhiteReplies(t: Turn, p: Piece)
    requires OnD8(t.board, p) && p.color.Black? && t.side.White?
    ensures |StepMoves(t, 0)| == 3
  {
    StepsFromA1(t);
    hide StepTo, StepMoves, OnD8;
    WhiteStepTo(t, p, 1);
    WhiteStepTo(t, p, 8);
    WhiteStepTo(t, p, 9);
  }

  /** The steps are of the piece on the cached square, and can be made. */
  lemma {:induction false} StepMovesFit(t: Turn, n: nat)
    requires n <= 64 && t.board[Cached(t.side)].Some?
    ensures forall mv :: mv in StepMoves(t, n) ==> Fits(t, mv) && mv.from == Cached(t.side)
    decreases 64 - n
  {
    hide Cached, InDanger;
    if n < 64 { StepMovesFit(t, n + 1); }
  }

  lemma LeavesOfSteps(t: Turn)
    requires t.board[Cached(t.side)].Some? && StepMoves(t, 0) != []
    ensures AfterLeaves(t, StepMoves(t, 0)) == Turn(t.board, t.board[Cached(t.side)].value.color)
  {
    hide StepMoves, Fits, Cached, AfterLeaves;
    StepMovesFit(t, 0);
    var moves := StepMoves(t, 0);
    forall i | 0 <= i < |moves|
      ensures Fits(t, moves[i]) && moves[i].from == Cached(t.side)
    {
      assert moves[i] in moves;
    }
    LeavesTurn(t, moves, t.board[Cached(t.side)].value.color);
  }

  /** The four promotions on d8, as the generator emits them. */
  const PROMOTIONS: seq<Move> := [Promote(KnightPromoCapture), Promote(BishopPromoCapture),
                                  Promote(RookPromoCapture), Promote(QueenPromoCapture)]

  lemma Promoted(t: Turn, flag: MoveFlag)
    requires PawnOnE7(t.board, t.side) && flag.IsPromoCapture()
    ensures var mv := Promote(flag);
            && Fits(t, mv)
            && Made(t, mv).side == t.side.Flip()
            && OnD8(Made(t, mv).board, Piece(t.side, flag.Promotion().value))
            && Unmade(Made(t, mv), mv, t.board[D8]) == t
  {
    UndoneExactly(t, Promote(flag));
  }

  lemma WronglyUndone(t: Turn, flag: MoveFlag)
    requires PawnOnE7(t.board, White) && t.side.White? && flag.IsPromoCapture()
    ensures var back := Unmade(Turn(Made(t, Promote(flag)).board, White), Promote(flag), t.board[D8]);
            PawnOnE7(back.board, Black) && back.side.Black?
  {}

  lemma BulkStep(t: Turn, flag: MoveFlag, rest: seq<Move>)
    requires PawnOnE7(t.board, t.side) && flag.IsPromoCapture()
    ensures BulkSum(t, [Promote(flag)] + rest) == |StepMoves(Made(t, Promote(flag)), 0)| + BulkSum(t, rest)
  {
    Promoted(t, flag);
    assert ([Promote(flag)] + rest)[1..] == rest;
    hide Fits, PawnOnE7, OnD8, Made, Unmade, StepMoves;
  }

  /** Replies to a promotion whose sides are in order are made and unmade without a trace. */
  lemma PlainStepInOrder(t: Turn, flag: MoveFlag, rest: seq<Move>)
    requires PawnOnE7(t.board, t.side) && t.side.Black? && flag.IsPromoCapture()
    ensures PlainSum(t, [Promote(flag)] + rest) == 3 + PlainSum(t, rest)
  {
    Promoted(t, flag);
    var made := Made(t, Promote(flag));
    WhiteReplies(made, Piece(Black, flag.Promotion().value));
    assert Holds(made.board, A1, White, King) && Cached(White) == A1 && made.board[D8].Some?;
    LeavesOfSteps(made);
    assert Turn(made.board, made.side) == made;
    assert ([Promote(flag)] + rest)[1..] == rest;
    hide Fits, PawnOnE7, OnD8, Made, Unmade, StepMoves, AfterLeaves;
  }

  /** Replies by White's knight on d8 are not: the pawn comes back black. */
  lemma PlainStepAstray(t: Turn, bad: Turn, rest: seq<Move>)
    requires PawnOnE7(t.board, White) && t.side.White?
    requires bad == Unmade(Turn(Made(t, BecomesKnight()).board, White), BecomesKnight(), t.board[D8])
    ensures PlainSum(t, [BecomesKnight()] + rest) == 5 + PlainSum(bad, rest)
  {
    var mv := BecomesKnight();
    Promoted(t, KnightPromoCapture);
    var made := Made(t, mv);
    BlackReplies(made, Piece(White, Knight));
    assert Cached(Black) == D8 && made.board[D8] == Some(Piece(White, Knight));
    LeavesOfSteps(made);
    assert ([mv] + rest)[1..] == rest;
    hide Fits, PawnOnE7, OnD8, Made, Unmade, StepMoves, AfterLeaves;
  }

  /** Over the four promotions bulk counting adds up 10 replies, and plain counting 14. */
  lemma CountsDiffer()
    ensures var root := Turn(PawnTakes().board, White);
            BulkSum(root, PROMOTIONS) == 10 && PlainSum(root, PROMOTIONS) == 14
  {
    PawnTakesIs();
    var root := Turn(PawnTakes().board, White);
    assert PawnOnE7(root.board, White);
    hide PawnTakes;
    BulkIsTen(root);
    PlainIsFourteen(root);
  }

  lemma BulkIsTen(t: Turn)
    requires PawnOnE7(t.board, White) && t.side.White?
    ensures BulkSum(t, PROMOTIONS) == 10
  {
    var (b, r, q) := (Promote(BishopPromoCapture), Promote(RookPromoCapture), Promote(QueenPromoCapture));
    hide PawnOnE7, OnD8, Made, StepMoves, BulkSum;
    assert PROMOTIONS == [Promote(KnightPromoCapture)] + ([b] + ([r] + ([q] + [])));
    BulkStep(t, KnightPromoCapture, [b] + ([r] + ([q] + [])));
    BulkStep(t, BishopPromoCapture, [r] + ([q] + []));
    BulkStep(t, RookPromoCapture, [q] + []);
    BulkStep(t, QueenPromoCapture, []);
    PromotionReplies(t, KnightPromoCapture);
    PromotionReplies(t, BishopPromoCapture);
    PromotionReplies(t, RookPromoCapture);
    PromotionReplies(t, QueenPromoCapture);
    NothingToSum(t);
  }

  lemma PromotionReplies(t: Turn, flag: MoveFlag)
    requires PawnOnE7(t.board, White) && t.side.White? && flag.IsPromoCapture()
    ensures |StepMoves(Made(t, Promote(flag)), 0)| ==
            match flag case KnightPromoCapture => 5 case BishopPromoCapture => 3 case RookPromoCapture => 2 case _ => 0
  {
    Promoted(t, flag);
    hide PawnOnE7, OnD8, Made, StepMoves;
    BlackReplies(Made(t, Promote(flag)), Piece(White, flag.Promotion().value));
  }

  lemma NothingToSum(t: Turn)
    ensures BulkSum(t, []) == 0 && PlainSum(t, []) == 0
  {}

  lemma PlainIsFourteen(t: Turn)
    requires PawnOnE7(t.board, White) && t.side.White?
    ensures PlainSum(t, PROMOTIONS) == 14
  {
    var (b, r, q) := (Promote(BishopPromoCapture), Promote(RookPromoCapture), Promote(QueenPromoCapture));
    Promoted(t, KnightPromoCapture);
    WronglyUndone(t, KnightPromoCapture);
    assert Made(t, BecomesKnight()).board[D8].Some?;
    var bad := Unmade(Turn(Made(t, BecomesKnight()).board, White), BecomesKnight(), t.board[D8]);
    hide PawnOnE7, OnD8, Made, Unmade, StepMoves, PlainSum;
    assert PROMOTIONS == [BecomesKnight()] + ([b] + ([r] + ([q] + [])));
    PlainStepAstray(t, bad, [b] + ([r] + ([q] + [])));
    PlainStepInOrder(bad, BishopPromoCapture, [r] + ([q] + []));
    PlainStepInOrder(bad, RookPromoCapture, [q] + []);
    PlainStepInOrder(bad, QueenPromoCapture, []);
    NothingToSum(bad);
  }

  // ---- Texts after a king was taken ----

  const D7: Square := 51
  const F7: Square := 53

  /** After e1e8 in the position of `OpenFile`, Black's king emitter goes by the cached e8, where the rook is. */
  lemma OpenFileSteps(to: Square)
    ensures var board := Made(Turn(OpenFile().board, White), RookTakesKing()).board;
            Steps(board, Black, E8, A1, to) <==> to == D7 || to == F7
  {
    var board := Made(Turn(OpenFile().board, White), RookTakesKing()).board;
    OpenFileEmpties();
    assert Holds(board, A1, White, King) && Holds(board, E8, White, Rook);
    assert forall s: Square :: s != A1 && s != E8 ==> board[s].None?;
    hide OpenFile, Made;
    RookSteps(board, to);
  }

  lemma RookSteps(board: Board, to: Square)
    requires Holds(board, A1, White, King) && Holds(board, E8, White, Rook)
    requires forall s: Square :: s != A1 && s != E8 ==> board[s].None?
    ensures Steps(board, Black, E8, A1, to) <==> to == D7 || to == F7
  {
    if KingStep(E8, to) {
      assert to == D7 || to == E7 || to == F7 || to == D8 || to == F8;
      assert Aims(Rook, E8, to) <==> to != D7 && to != F7;
      assert forall u: Square :: !Inside(E8, to, u);
      hide Inside, Lined, KingStep;
      assert Ours(board, White, E8);
    }
  }

  /** A list that goes on after the king was taken. */
  lemma OpenFileBeyond()
    ensures Follow(OpenFile(), ["e1e8", "a1a2"]).Beyond?
  {
    OpenFileFollowed();
    var texts := ["e1e8", "a1a2"];
    assert texts[..1] == ["e1e8"];
    hide OpenFile, Follow, Parse, Format, RookTakesKing, Child;
    BeyondExactly(OpenFile(), texts);
  }

  // ---- Kings side by side ----

  const A2: Square := 8
  const A3: Square := 16
  const E2: Square := 12

  /** `8/8/8/8/8/8/P3k3/4K3 w - - 0 1`: the kings are neighbours. */
  function Neighbours(): Core {
    var kings := EmptyBoard()[E1 := Some(Piece(White, King))][E2 := Some(Piece(Black, King))];
    Core(kings[A2 := Some(Piece(White, Pawn))], White, NO_RIGHTS, None, 0, 1)
  }

  function PawnStep(): Move {
    Move(A2, A3, Quiet)
  }

  lemma NeighboursFacts()
    ensures var (c, mv) := (Neighbours(), PawnStep());
            && Sound(c) && c.side == White && c.fullmove == 1
            && KingAt(c.board, White, E1) && KingAt(c.board, Black, E2)
            && PseudoLegal(c, mv) && Applicable(c, mv) && !TakesKing(c, mv)
            && forall s: Square :: Ours(c.board, Black, s) ==> s == E2
  {
    var (c, mv) := (Neighbours(), PawnStep());
    var board := c.board;
    assert forall s: Square :: s != E1 && s != E2 && s != A2 ==> board[s].None?;
    assert KingAt(board, White, E1) && KingAt(board, Black, E2);
    assert PseudoLegal(c, mv) && Applicable(c, mv) && !TakesKing(c, mv);
    hide Neighbours, PseudoLegal, Applicable, TakesKing;
  }

  /** A pawn move that leaves the kings side by side is generated, though it is not legal. */
  lemma NeighboursPass()
    ensures var c := Neighbours();
            && Sound(c) && Parse(Format(c)) == Ok(c)
            && PawnStep() in Gen(c) && !Legal(c, PawnStep())
  {
    var (c, mv) := (Neighbours(), PawnStep());
    NeighboursFacts();
    OnlyKingStays(c);
    assert KingStep(E2, E1);
    hide Neighbours, Sound, PseudoLegal, Applicable, NextBoard, TakesKing, Gen, Parse, Format, Legal, KingStep, KingAt;
    Recorded(c);
    BareSideGenerates(c, mv, E1);
    Touching(c, mv, E1, E2);
  }

  /** No move that leaves the kings side by side is legal. */
  lemma Touching(c: Core, mv: Move, k: Square, e: Square)
    requires Sound(c) && KingAt(c.board, c.side, k) && KingAt(c.board, c.side.Flip(), e)
    requires KingStep(e, k) && mv.from != k && !TakesKing(c, mv)
    ensures !Legal(c, mv)
  {
    KingIs(c.board, c.side, k);
    KingIs(c.board, c.side.Flip(), e);
    hide Sound, KingAt, KingStep, TakesKing, Legal, Passes, OnlyLeap;
    PassesExactly(c, mv);
  }

  lemma OnlyKingStays(c: Core)
    requires Sound(c) && Applicable(c, PawnStep()) && c.side == White && KingAt(c.board, Black, E2)
    requires forall s: Square :: Ours(c.board, Black, s) ==> s == E2
    ensures forall s: Square :: Ours(NextBoard(c, PawnStep()), Black, s) ==> NextBoard(c, PawnStep())[s].value.kind.King?
  {
    NextBoardAt(c, PawnStep());
    LandedKing(c, PawnStep());
    assert Holds(c.board, E2, Black, King);
    hide Sound, Applicable, NextBoard, Landed;
    forall s: Square | Ours(NextBoard(c, PawnStep()), Black, s)
      ensures NextBoard(c, PawnStep())[s] == Some(Piece(Black, King))
    {
      assert Ours(c.board, Black, s);
    }
  }
}
