/**
 What move generation lets through beyond the rules of chess, in positions the parser accepts but no
 game reaches: the capture of an exposed king, and an en passant capture that leaves a knight's check.
*/
module Lapses {
  import opened Wrappers
  import opened Chess
  import opened Rules
  import opened Soundness
  import opened Placement
  import opened Fen
  import opened Runs
  import opened SlowAttacks
  import opened Moves
  import opened Lines
  import opened Checks
  import opened Legality
  import opened Generation
  import opened Perft
  import opened Games
  import opened Sessions

  // ---- When generation stays among sound positions ----

  /** The capture of the idle king by the piece on `a`; a pawn becomes a queen on the last rank. */
  ghost function Regicide(c: Core, a: Square): Move
    requires Sound(c) && c.board[a].Some?
  {
    HasKings(c, c.side.Flip());
    var e := KingOf(c.board, c.side.Flip());
    Move(a, e, if c.board[a].value.kind.Pawn? && Rank(e) == LastRank(c.side) then QueenPromoCapture else Capture)
  }

  /** The piece on `a` attacks the idle king, and putting it there leaves its own king safe. */
  ghost predicate Exposes(c: Core, a: Square)
    requires Sound(c)
  {
    HasKings(c, c.side);
    HasKings(c, c.side.Flip());
    var k := KingOf(c.board, c.side);
    var e := KingOf(c.board, c.side.Flip());
    && Ours(c.board, c.side, a)
    && Hits(c.board, c.board[a].value, a, e)
    && (var after := c.board[a := None][e := c.board[a]];
        if a == k then !Attacked(after, c.side.Flip(), e) else !Checked(after, c.side, k))
  }

  /** A check depends on the enemy pieces and on which squares are empty. */
  lemma SameChecks(board: Board, other: Board, us: Color, k: Square)
    requires forall s: Square :: board[s].Some? <==> other[s].Some?
    requires forall s: Square :: Ours(board, us.Flip(), s) || Ours(other, us.Flip(), s) ==> board[s] == other[s]
    ensures Attacked(board, us.Flip(), k) == Attacked(other, us.Flip(), k)
    ensures Checked(board, us, k) == Checked(other, us, k)
  {
    hide Inside, Leaps, Aims;
    forall a: Square
      ensures Clear(board, a, k) == Clear(other, a, k)
    {}
    hide Clear;
    forall a: Square
      ensures Ours(board, us.Flip(), a) && Hits(board, board[a].value, a, k) <==>
              Ours(other, us.Flip(), a) && Hits(other, other[a].value, a, k)
    {}
    hide Hits;
    assert forall a: Square :: CheckedBy(board, us, k, a) <==> CheckedBy(other, us, k, a);
  }

  /** The board of `Exposes` has the same enemies and the same empty squares as the one after a capture on `e`. */
  lemma BoardsAgree(c: Core, mv: Move)
    requires Sound(c) && Applicable(c, mv) && mv.flag.IsCapture() && !mv.flag.EnPassant?
    ensures var after := c.board[mv.from := None][mv.to := c.board[mv.from]];
            && (forall s: Square :: after[s].Some? <==> NextBoard(c, mv)[s].Some?)
            && (forall s: Square :: Ours(after, c.side.Flip(), s) || Ours(NextBoard(c, mv), c.side.Flip(), s) ==>
                                      after[s] == NextBoard(c, mv)[s])
  {
    NextBoardAt(c, mv);
    LandedKing(c, mv);
    hide Sound, NextBoard;
  }

  /** Reaching the idle king is attacking it. */
  lemma RegicideReaches(c: Core, a: Square)
    requires Sound(c) && Ours(c.board, c.side, a)
    ensures OneKing(c.board, c.side.Flip())
    ensures Hits(c.board, c.board[a].value, a, KingOf(c.board, c.side.Flip())) <==> PseudoLegal(c, Regicide(c, a))
  {
    HasKings(c, c.side.Flip());
    var e := KingOf(c.board, c.side.Flip());
    assert Holds(c.board, e, c.side.Flip(), King);
    SlidesAlongLines(c.board, BishopSlider, a, e);
    SlidesAlongLines(c.board, RookSlider, a, e);
    PawnRanks(c, a, e);
    hide Sound, Slides, Clear, Lined, PawnHits, KnightJump, KingStep;
  }

  lemma PawnRanks(c: Core, a: Square, e: Square)
    requires Sound(c)
    ensures PawnOn(c, a) && PawnHits(c.side, a, e) && Rank(e) != LastRank(c.side) ==> 1 <= Rank(e) <= 6
  {}

  lemma ExposesPasses(c: Core, a: Square)
    requires Sound(c)
    ensures Exposes(c, a) <==> Ours(c.board, c.side, a) && Passes(c, Regicide(c, a))
  {
    if Ours(c.board, c.side, a) {
      RegicideReaches(c, a);
      HasKings(c, c.side);
      var mv := Regicide(c, a);
      if PseudoLegal(c, mv) {
        BoardsAgree(c, mv);
        hide Sound, Applicable, Reaches, NextBoard, Attacked, Checked, Hits;
        var after := c.board[a := None][mv.to := c.board[a]];
        SameChecks(after, NextBoard(c, mv), c.side, mv.to);
        SameChecks(after, NextBoard(c, mv), c.side, KingOf(c.board, c.side));
      }
    }
  }

  /** Whatever takes the king, the capture by which `Exposes` is tested passes as well. */
  lemma TakerExposes(c: Core, mv: Move)
    requires Sound(c) && Passes(c, mv) && TakesKing(c, mv)
    ensures Exposes(c, mv.from)
  {
    HasKings(c, c.side);
    HasKings(c, c.side.Flip());
    var k := KingOf(c.board, c.side);
    var e := KingOf(c.board, c.side.Flip());
    VictimIsEnemy(c, mv);
    assert mv.to == e;
    CaptureHits(c, mv);
    BoardsAgree(c, mv);
    hide Sound, Applicable, Reaches, NextBoard, Attacked, Checked, Hits;
    var after := c.board[mv.from := None][e := c.board[mv.from]];
    SameChecks(after, NextBoard(c, mv), c.side, e);
    SameChecks(after, NextBoard(c, mv), c.side, k);
  }

  /**
   Generation has no filter for king captures: it stays among sound positions exactly when no piece of
   the mover attacks the idle king from where it may leave.
   */
  lemma GenStaysSound(c: Core)
    requires Sound(c)
    ensures (forall mv :: mv in Gen(c) ==> Sound(Child(c, mv))) <==> (forall a: Square :: !Exposes(c, a))
  {
    GenHas(c);
    forall mv | mv in Gen(c)
      ensures !Sound(Child(c, mv)) ==> Exposes(c, mv.from)
    {
      GeneratedApplies(c, mv);
      hide Gen, Sound, Child, TakesKing, Exposes, Passes;
      if TakesKing(c, mv) { TakerExposes(c, mv); }
    }
    forall a: Square | Exposes(c, a)
      ensures Regicide(c, a) in Gen(c) && !Sound(Child(c, Regicide(c, a)))
    {
      ExposesPasses(c, a);
      RegicideTakes(c, a);
      hide Gen, Sound, Child, TakesKing, Exposes, Passes, Regicide;
      GeneratedApplies(c, Regicide(c, a));
    }
    hide Gen, Sound, Child, Exposes, Passes, Regicide;
  }

  lemma RegicideTakes(c: Core, a: Square)
    requires Sound(c) && c.board[a].Some?
    ensures TakesKing(c, Regicide(c, a))
  {
    HasKings(c, c.side.Flip());
    assert Holds(c.board, KingOf(c.board, c.side.Flip()), c.side.Flip(), King);
  }

  /** With the idle king unattacked, which a caller can test, it does. */
  lemma GuardedStaysSound(c: Core)
    requires Guarded(c)
    ensures Sound(c) && forall mv :: mv in Gen(c) ==> Sound(Child(c, mv))
  {
    GuardedParts(c);
    forall mv | mv in Gen(c)
      ensures Sound(Child(c, mv))
    {
      GeneratedApplies(c, mv);
      GuardedKeepsKing(c, mv);
    }
  }

  // ---- Play by generated moves ----

  /** Every step of the line is a generated move. */
  ghost predicate Generated(line: Line) {
    line.Then? ==> Generated(line.before) && line.step.Moved? && line.step.mv in Gen(line.before.core)
  }

  /** Generated play from a fair position stays fair. */
  lemma {:induction false} FairLine(line: Line)
    requires Consistent(line) && Generated(line) && Fair(Origin(line))
    ensures Fair(line.core) && !KingTaken(line)
  {
    if line.Then? {
      FairLine(line.before);
      var c := line.before.core;
      GuardedParts(c);
      GenIsLegal(c);
      hide Fair, Sound, Gen, Legal, Next, TakesKing, Distinct;
      StaysFair(c, line.step.mv);
    }
  }

  /** From a fair accepted text, generated play is recorded faithfully exactly until the counter wraps to zero. */
  lemma FairPlayRoundTrips(s: string, line: Line)
    requires Parse(s).Ok? && Fair(Parse(s).value)
    requires Consistent(line) && Generated(line) && Origin(line) == Parse(s).value
    ensures Parse(Format(line.core)) == Ok(line.core) <==>
            (Parse(s).value.fullmove + BlackSteps(line)) % 0x1_0000 != 0
  {
    FairLine(line);
    hide Parse, Format, Fair, Generated, Consistent;
    PlayedRoundTrips(s, line);
  }

  // ---- The exposed king ----

  function RookTakesKing(): Move {
    Move(E1, E8, Capture)
  }

  lemma Applies(c: Core, mv: Move)
    requires PseudoLegal(c, mv)
    ensures Applicable(c, mv)
  {}

  /** Capturing the only enemy leaves none. */
  lemma LastEnemy(c: Core, mv: Move)
    requires Sound(c) && Applicable(c, mv) && mv.flag.Capture?
    requires forall s: Square :: Ours(c.board, c.side.Flip(), s) ==> s == mv.to
    ensures forall s: Square :: !Ours(NextBoard(c, mv), c.side.Flip(), s)
  {
    NextBoardAt(c, mv);
    LandedKing(c, mv);
    hide Sound, Applicable, NextBoard, Landed;
    forall s: Square
      ensures !Ours(NextBoard(c, mv), c.side.Flip(), s)
    {
      assert Ours(c.board, c.side.Flip(), s) ==> s == mv.to;
    }
  }

  lemma OpenFileTaken()
    ensures var c := OpenFile(); var mv := RookTakesKing();
                                 Sound(c) && PseudoLegal(c, mv) && Applicable(c, mv) && TakesKing(c, mv)
  {
    KingTakenLine();
    Applies(OpenFile(), RookTakesKing());
    hide OpenFile, Sound, PseudoLegal, Applicable, TakesKing, Next, Parse, Format;
  }

  lemma OpenFileFacts()
    ensures var c := OpenFile(); var mv := RookTakesKing();
                                 && Sound(c) && PseudoLegal(c, mv) && Applicable(c, mv) && TakesKing(c, mv) && c.side == White
                                 && KingAt(c.board, White, A1)
                                 && forall s: Square :: !Ours(NextBoard(c, mv), Black, s)
  {
    OpenFileTaken();
    OpenFileEmpties();
    var c := OpenFile();
    assert c.side == White;
    assert forall s: Square :: Ours(c.board, Black, s) ==> s == E8;
    hide OpenFile, Sound, PseudoLegal, Applicable, TakesKing, NextBoard;
    LastEnemy(c, RookTakesKing());
  }

  lemma RookText()
    ensures ToUci(RookTakesKing()) == "e1e8"
  {}

  lemma OpenFileEmpties()
    ensures var board := OpenFile().board;
            && (forall s: Square :: s != A1 && s != E1 && s != E8 ==> board[s].None?)
            && KingAt(board, White, A1) && Holds(board, E1, White, Rook) && Holds(board, E8, Black, King)
  {
    var board := OpenFile().board;
    assert forall s: Square :: s != A1 && s != E1 && s != E8 ==> board[s].None?;
  }

  /** In the position of `OpenFile` the rook's capture of the king is generated. */
  lemma OpenFilePasses()
    ensures Sound(OpenFile()) && !Guarded(OpenFile())
    ensures RookTakesKing() in Gen(OpenFile())
  {
    var c := OpenFile();
    var mv := RookTakesKing();
    OpenFileFacts();
    hide OpenFile, Sound, PseudoLegal, Applicable, NextBoard, Hits, Gen, TakesKing;
    KingIs(c.board, White, A1);
    if Guarded(c) { GuardedKeepsKing(c, mv); }
    assert !Checked(NextBoard(c, mv), White, A1);
    assert Passes(c, mv);
    GenHas(c);
  }

  /** Its text is accepted, and leaves a position without a black king. */
  lemma OpenFileFollowed()
    ensures Parse(Format(OpenFile())) == Ok(OpenFile())
    ensures Follow(OpenFile(), ["e1e8"]) == Kingless([Child(OpenFile(), RookTakesKing())])
    ensures forall s: Square :: !Holds(Child(OpenFile(), RookTakesKing()).board, s, Black, King)
  {
    var c := OpenFile();
    var mv := RookTakesKing();
    KingTakenLine();
    OpenFilePasses();
    OpenFileFacts();
    RookText();
    hide Gen, Sound, OpenFile, RookTakesKing, Parse, Format, FromUci, ToUci, TakesKing, PseudoLegal, Applicable, NextBoard,
      NextCastling, NextEp;
    var text := "e1e8";
    ReadsExactly(c, text, mv);
    GeneratedApplies(c, mv);
    KingGone(c, mv);
  }

  // ---- En passant out of a knight's check ----

  const F3: Square := 21
  const D5: Square := 35
  const E5: Square := 36
  const D6: Square := 43

  /** `4k3/8/8/3pP3/8/5n2/8/4K3 w - d6 0 1`: the knight gives check, and the pawn beside White's may be taken in passing. */
  function KnightCheck(): Core {
    var kings := EmptyBoard()[E1 := Some(Piece(White, King))][E8 := Some(Piece(Black, King))];
    var pawns := kings[E5 := Some(Piece(White, Pawn))][D5 := Some(Piece(Black, Pawn))];
    Core(pawns[F3 := Some(Piece(Black, Knight))], White, NO_RIGHTS, Some(D6), 0, 1)
  }

  function Passing(): Move {
    Move(E5, D6, EnPassant)
  }

  function KnightTakesKing(): Move {
    Move(F3, E1, Capture)
  }

  predicate KnightCheckBoard(board: Board) {
    && Holds(board, E1, White, King) && Holds(board, E8, Black, King)
    && Holds(board, E5, White, Pawn) && Holds(board, D5, Black, Pawn) && Holds(board, F3, Black, Knight)
    && forall s: Square :: s != E1 && s != E8 && s != E5 && s != D5 && s != F3 ==> board[s].None?
  }

  lemma KnightCheckIs()
    ensures KnightCheckBoard(KnightCheck().board) && Sound(KnightCheck())
    ensures KingAt(KnightCheck().board, White, E1) && KingAt(KnightCheck().board, Black, E8)
  {
    var board := KnightCheck().board;
    assert forall s: Square :: s != E1 && s != E8 && s != E5 && s != D5 && s != F3 ==> board[s].None?;
    assert KingAt(board, White, E1) && KingAt(board, Black, E8);
  }

  /** White's king and pawn do not attack Black's king; only the knight checks White's; nobody slides. */
  lemma KnightCheckAttacks(board: Board)
    requires KnightCheckBoard(board)
    ensures !Attacked(board, White, E8)
    ensures forall a: Square :: CheckedBy(board, White, E1, a) <==> a == F3
    ensures LeapCheck(board, White, E1, F3)
    ensures forall a: Square :: Ours(board, Black, a) ==> a == E8 || a == D5 || a == F3
  {
    hide Inside, Lined;
    forall a: Square | Ours(board, White, a)
      ensures !Hits(board, board[a].value, a, E8)
    {
      assert a == E1 || a == E5;
    }
    forall a: Square | Ours(board, Black, a)
      ensures a == E8 || a == D5 || a == F3
    {
    }
  }

  /** Over boards without enemy sliders, the generator's test for opened lines is void. */
  lemma NoSliders(board: Board, us: Color, k: Square)
    requires forall a: Square :: Ours(board, us.Flip(), a) ==>
                                   var kind := board[a].value.kind; kind.Pawn? || kind.Knight? || kind.King?
    ensures SlidersBlocked(board, us, k)
  {}

  lemma KnightCheckFacts()
    ensures var c := KnightCheck();
            && Sound(c) && c.side == White && Guarded(c) && KingAt(c.board, White, E1) && KingAt(c.board, Black, E8)
            && PseudoLegal(c, Passing()) && Applicable(c, Passing())
            && KnightCheckBoard(c.board)
  {
    var c := KnightCheck();
    KnightCheckIs();
    KnightCheckAttacks(c.board);
    KingIs(c.board, Black, E8);
    assert c.side == White && PseudoLegal(c, Passing());
    hide Sound, KnightCheck, Attacked;
  }

  /** The board after the capture: White's pawn on d6, the two black men besides the king still there but the pawn. */
  predicate PassedBoard(board: Board) {
    && Holds(board, E1, White, King) && Holds(board, E8, Black, King)
    && Holds(board, D6, White, Pawn) && Holds(board, F3, Black, Knight)
    && forall s: Square :: s != E1 && s != E8 && s != D6 && s != F3 ==> board[s].None?
  }

  lemma PassingBoard(c: Core)
    requires Sound(c) && Applicable(c, Passing()) && KnightCheckBoard(c.board) && c.side == White
    ensures PassedBoard(NextBoard(c, Passing()))
  {
    NextBoardAt(c, Passing());
    VictimIsEnemy(c, Passing());
    hide Sound, Applicable, NextBoard;
  }

  /** The capture is generated, though the knight's check stays: it is not legal. */
  lemma PassingGenerated()
    ensures var c := KnightCheck();
            && Sound(c) && Guarded(c) && Parse(Format(c)) == Ok(c)
            && Passing() in Gen(c) && !Legal(c, Passing())
  {
    var c := KnightCheck();
    KnightCheckFacts();
    KnightCheckAttacks(c.board);
    assert c.fullmove == 1;
    KingIs(c.board, White, E1);
    PassingBoard(c);
    hide KnightCheck, Sound, PseudoLegal, Applicable, NextBoard, Guarded, Parse, Format, Gen, CheckedBy;
    FormatParses(c);
    NoSliders(NextBoard(c, Passing()), White, E1);
    hide SlidersBlocked;
    assert Passes(c, Passing());
    GenHas(c);
    PassesExactly(c, Passing());
    assert D6 - Forward(White) == D5;
    hide Legal, LeapCheck;
    assert !OnlyLeap(c.board, White, E1, D5);
  }

  /** Then the knight's capture of the king is generated. */
  lemma KnightThenTakes()
    ensures var c := KnightCheck();
            && Sound(c) && Applicable(c, Passing()) && !TakesKing(c, Passing())
            && (var d := Next(c, Passing());
                Sound(d) && d.side == Black && TakesKing(d, KnightTakesKing()) && KnightTakesKing() in Gen(d))
  {
    var c := KnightCheck();
    KnightCheckFacts();
    PassingBoard(c);
    GuardedKeepsKing(c, Passing());
    hide KnightCheck, Sound, PseudoLegal, Applicable, NextBoard, NextCastling, NextEp, Guarded, Gen, TakesKing;
    NextSound(c, Passing());
    KnightMayTake(Next(c, Passing()));
  }

  lemma KnightMayTake(d: Core)
    requires Sound(d) && d.side == Black && PassedBoard(d.board)
    ensures TakesKing(d, KnightTakesKing()) && KnightTakesKing() in Gen(d)
  {
    var mv := KnightTakesKing();
    assert PseudoLegal(d, mv) && Applicable(d, mv) && TakesKing(d, mv);
    assert KingAt(d.board, Black, E8);
    KingIs(d.board, Black, E8);
    NextBoardAt(d, mv);
    hide Sound, PseudoLegal, Applicable, NextBoard, Gen, TakesKing;
    assert forall a: Square :: Ours(NextBoard(d, mv), White, a) ==> a == D6 && Holds(NextBoard(d, mv), a, White, Pawn);
    hide Inside, Lined;
    assert !Checked(NextBoard(d, mv), Black, E8);
    hide Checked;
    assert Passes(d, mv);
    GenHas(d);
  }

  lemma PassingTexts()
    ensures ToUci(Passing()) == "e5d6" && ToUci(KnightTakesKing()) == "f3e1"
  {}

  /** Two generated moves, the second of which takes a king. */
  lemma FollowTwo(c: Core, first: Move, second: Move)
    requires Sound(c) && first in Gen(c) && !TakesKing(c, first)
    requires second in Gen(Child(c, first)) && TakesKing(Child(c, first), second)
    ensures Follow(c, [ToUci(first), ToUci(second)]).Kingless?
  {
    hide Sound, Applicable, Next, Gen, TakesKing, FromUci, ToUci;
    var texts := [ToUci(first), ToUci(second)];
    assert texts[1..] == [ToUci(second)];
    GeneratedApplies(c, first);
    ReadsExactly(c, texts[0], first);
    ReadsExactly(Child(c, first), texts[1], second);
    assert Follow(Child(c, first), [texts[1]]).Kingless?;
  }

  /** So an exposed king is not needed at the start: both halves of `Fair` are. */
  lemma PassingFollowed()
    ensures Guarded(KnightCheck()) && !Fair(KnightCheck()) && Parse(Format(KnightCheck())) == Ok(KnightCheck())
    ensures Follow(KnightCheck(), ["e5d6", "f3e1"]).Kingless?
  {
    PassingGenerated();
    KnightThenTakes();
    PassingTexts();
    hide KnightCheck, Sound, Applicable, Next, Guarded, Gen, TakesKing, ToUci, Parse, Format, Legal, Passing, KnightTakesKing,
      Follow, Fair;
    FollowTwo(KnightCheck(), Passing(), KnightTakesKing());
    LegalIfFair(KnightCheck(), Passing());
  }

  lemma LegalIfFair(c: Core, mv: Move)
    requires Sound(c) && mv in Gen(c) && !Legal(c, mv)
    ensures !Fair(c)
  {
    hide Sound, Gen, Legal, Fair;
    if Fair(c) { GenIsLegal(c); }
  }

  // ---- The starting position ----

  function HomeKind(file: Coordinate): PieceKind {
    if file == 0 || file == 7 then Rook
    else if file == 1 || file == 6 then Knight
    else if file == 2 || file == 5 then Bishop
    else if file == 3 then Queen
    else King
  }

  function StartCell(s: Square): Cell {
    match Rank(s)
    case 0 => Some(Piece(White, HomeKind(File(s))))
    case 1 => Some(Piece(White, Pawn))
    case 6 => Some(Piece(Black, Pawn))
    case 7 => Some(Piece(Black, HomeKind(File(s))))
    case _ => None
  }

  function StartPosition(): Core {
    Core(seq(64, s requires 0 <= s < 64 => StartCell(s)), White, ALL_RIGHTS, None, 0, 1)
  }

  lemma NoAimFromHome(a: Square, kind: PieceKind)
    requires Rank(a) <= 1 && kind == if Rank(a) == 1 then Pawn else HomeKind(File(a))
    ensures !Leaps(Piece(White, kind), a, E8) && !Aims(kind, a, E8)
  {}

  /** Every game starts fair, and therefore stays fair. */
  lemma StartIsFair()
    ensures Fair(StartPosition())
  {
    var c := StartPosition();
    assert KingAt(c.board, White, E1) && KingAt(c.board, Black, E8);
    assert Sound(c);
    KingIs(c.board, Black, E8);
    hide Sound;
    forall a: Square | Ours(c.board, White, a)
      ensures !Hits(c.board, c.board[a].value, a, E8)
    {
      NoAimFromHome(a, c.board[a].value.kind);
    }
  }
}
