/** Positions reached by play, and their texts. */
module Games {
  import opened Wrappers
  import opened Chess
  import opened Rules
  import opened Soundness
  import opened Placement
  import opened Fen
  import opened Runs
  import opened SlowAttacks
  import opened Moves

  function Origin(line: Line): Core {
    match line
    case Start(core) => core
    case Then(before, _, _) => Origin(before)
  }

  /** Half-moves Black has made in a line, null moves included. */
  function BlackSteps(line: Line): nat {
    match line
    case Start(_) => 0
    case Then(before, _, _) => BlackSteps(before) + if before.core.side.Black? then 1 else 0
  }

  /** The move counter counts Black's half-moves, modulo its sixteen bits. */
  lemma {:induction false} CounterCounts(line: Line)
    requires Consistent(line)
    ensures line.core.fullmove == (Origin(line).fullmove + BlackSteps(line)) % 0x1_0000
  {
    hide Sound, CanStep, After;
    match line
    case Start(_) =>
    case Then(before, step, _) =>
      CounterCounts(before);
      StepCounts(before.core, step);
      ModuloStep(Origin(line).fullmove + BlackSteps(before));
  }

  lemma StepCounts(c: Core, step: Step)
    requires CanStep(c, step)
    ensures After(c, step).fullmove == (c.fullmove + if c.side.Black? then 1 else 0) % 0x1_0000
  {
    hide Sound, Applicable, NextBoard, NextCastling, NextEp;
  }

  lemma ModuloStep(n: nat)
    ensures (n % 0x1_0000 + 1) % 0x1_0000 == (n + 1) % 0x1_0000
  {}

  /**
   A position reached by any line of play from any accepted text, en passant target included, is
   recorded faithfully by its own text exactly when the counter has not wrapped round to zero and
   the last move did not take a king.
   */
  lemma PlayedRoundTrips(s: string, line: Line)
    requires Parse(s).Ok? && Consistent(line) && Origin(line) == Parse(s).value
    ensures Parse(Format(line.core)) == Ok(line.core) <==>
            (Parse(s).value.fullmove + BlackSteps(line)) % 0x1_0000 != 0 && !KingTaken(line)
  {
    hide Parse, Format, Sound, TakesKing;
    CounterCounts(line);
    SoundUnlessKingTaken(line);
    RecordedExactly(line.core);
  }

  /** After a king has been taken the text is refused, for the counter or for the missing king. */
  lemma KinglessText(c: Core, mv: Move)
    requires Sound(c) && Applicable(c, mv) && TakesKing(c, mv)
    ensures Parse(Format(Next(c, mv))) ==
            if Next(c, mv).fullmove == 0 then Err(BadFullmoveNumber("0")) else Err(MissingKing(c.side.Flip()))
  {
    var d := Next(c, mv);
    PawnsAfter(c, mv);
    KingGone(c, mv);
    hide Parse, Format, Sound, Applicable, NextBoard, NextCastling;
    assert d.ep == None;
    PrintedReads(d);
    if c.side.Black? {
      KingMissed(d.board, d.castling, White);
    } else {
      MoverKeepsKing(c, mv);
      KingMissed(d.board, d.castling, Black);
    }
  }

  // ---- The counter does wrap ----

  /** White king on e1, black king on e8, Black to make move 65535. */
  function LastRecordable(): Core {
    Core(EmptyBoard()[E1 := Some(Piece(White, King))][E8 := Some(Piece(Black, King))], Black, NO_RIGHTS, None, 0, 0xFFFF)
  }

  lemma LastRecordableSound()
    ensures Sound(LastRecordable())
  {
    var c := LastRecordable();
    assert forall s: Square :: s != E1 && s != E8 ==> c.board[s].None?;
    assert KingAt(c.board, White, E1) && KingAt(c.board, Black, E8);
  }

  /** A sound, recordable position and a king move in it after which the parser refuses the text. */
  lemma CounterWraps()
    ensures Sound(LastRecordable())
    ensures Parse(Format(LastRecordable())) == Ok(LastRecordable())
    ensures var mv := Move(E8, E8 - 8, Quiet);
            && PseudoLegal(LastRecordable(), mv) && !TakesKing(LastRecordable(), mv)
            && Parse(Format(Next(LastRecordable(), mv))) == Err(BadFullmoveNumber("0"))
  {
    var c := LastRecordable();
    var mv := Move(E8, E8 - 8, Quiet);
    LastRecordableSound();
    assert PseudoLegal(c, mv) && !TakesKing(c, mv) && Next(c, mv).fullmove == 0;
    hide Parse, Format, Sound, LastRecordable, PseudoLegal;
    NextSound(c, mv);
    FormatParses(c);
    FormatParses(Next(c, mv));
  }

  // ---- A king can be taken ----

  /** The text `4k3/8/8/8/8/8/8/K3R3 w - - 0 1`: the idle king stands on an open file with a rook. */
  function OpenFile(): Core {
    var kings := EmptyBoard()[A1 := Some(Piece(White, King))][E8 := Some(Piece(Black, King))];
    Core(kings[E1 := Some(Piece(White, Rook))], White, NO_RIGHTS, None, 0, 1)
  }

  lemma OpenFileSound()
    ensures Sound(OpenFile())
  {
    var c := OpenFile();
    assert forall s: Square :: s != A1 && s != E1 && s != E8 ==> c.board[s].None?;
    assert KingAt(c.board, White, A1) && KingAt(c.board, Black, E8);
  }

  lemma OpenFileReaches()
    ensures Slides(OpenFile().board, RookSlider, E1, E8)
  {
    var board := OpenFile().board;
    assert Ray(RookSlider, 0) == Direction(0, 1);
    forall j: int, u: Square | 1 <= j < 7 && IsStep(E1, Direction(0, 1), j, u)
      ensures board[u].None?
    {
      assert u != E1 && u != E8 && u != A1;
    }
    assert SlidesAt(board, E1, Ray(RookSlider, 0), E8, 7);
  }

  /** An accepted text, and a pseudo-legal move in it, after which the text is refused with the counter at 1. */
  lemma KingTakenLine()
    ensures Sound(OpenFile()) && Parse(Format(OpenFile())) == Ok(OpenFile())
    ensures var mv := Move(E1, E8, Capture);
            && PseudoLegal(OpenFile(), mv) && TakesKing(OpenFile(), mv)
            && Next(OpenFile(), mv).fullmove == 1
            && Parse(Format(Next(OpenFile(), mv))) == Err(MissingKing(Black))
  {
    var c := OpenFile();
    var mv := Move(E1, E8, Capture);
    OpenFileSound();
    OpenFileReaches();
    assert c.board[E1] == Some(Piece(White, Rook)) && Applicable(c, mv) && Reaches(c, mv);
    assert TakesKing(c, mv) && Next(c, mv).fullmove == 1;
    hide Parse, Format, Sound, OpenFile, PseudoLegal, Applicable, Reaches;
    FormatParses(c);
    KinglessText(c, mv);
  }
}
