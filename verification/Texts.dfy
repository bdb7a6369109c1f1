/** Texts letter by letter: FEN strings and move texts as they are written, and the positions they stand for. */
module Texts {
  import opened Wrappers
  import opened Chess
  import opened Rules
  import opened Text
  import opened Placement
  import opened Fen
  import opened Moves
  import opened Games
  import opened Lapses
  import opened Stale

  // ---- Letters ----

  /** Upper case for White, lower case for Black. */
  lemma LettersByValue()
    ensures PieceLetter(Piece(White, Pawn)) == 'P' && PieceLetter(Piece(Black, Pawn)) == 'p'
    ensures PieceLetter(Piece(White, Knight)) == 'N' && PieceLetter(Piece(Black, Knight)) == 'n'
    ensures PieceLetter(Piece(White, Bishop)) == 'B' && PieceLetter(Piece(Black, Bishop)) == 'b'
    ensures PieceLetter(Piece(White, Rook)) == 'R' && PieceLetter(Piece(Black, Rook)) == 'r'
    ensures PieceLetter(Piece(White, Queen)) == 'Q' && PieceLetter(Piece(Black, Queen)) == 'q'
    ensures PieceLetter(Piece(White, King)) == 'K' && PieceLetter(Piece(Black, King)) == 'k'
  {}

  lemma RightsByValue()
    ensures CastlingText(WHITE_KING) == "K" && CastlingText(WHITE_QUEEN) == "Q"
    ensures CastlingText(BLACK_KING) == "k" && CastlingText(BLACK_QUEEN) == "q"
    ensures CastlingText(NO_RIGHTS) == "-" && CastlingText(ALL_RIGHTS) == "KQkq"
  {}

  lemma SidesByValue()
    ensures ParseSide("w") == Ok(White) && ParseSide("b") == Ok(Black)
    ensures SideText(White) == "w" && SideText(Black) == "b"
  {}

  // ---- Rows ----

  lemma {:induction false} SkipBlanks(cells: seq<Cell>, n: nat, run: nat)
    requires n <= |cells| && run + |cells| <= 8
    requires forall i :: 0 <= i < n ==> cells[i].None?
    ensures RowText(cells, run) == RowText(cells[n..], run + n)
    decreases n
  {
    if n == 0 {
      assert cells[0..] == cells;
    } else {
      SkipBlanks(cells[1..], n - 1, run + 1);
      assert cells[1..][n - 1..] == cells[n..];
    }
  }

  lemma BlankRow(cells: seq<Cell>, run: nat)
    requires run + |cells| <= 8 && forall i :: 0 <= i < |cells| ==> cells[i].None?
    ensures RowText(cells, run) == RunText(run + |cells|)
  {
    SkipBlanks(cells, |cells|, run);
  }

  /** The next piece, after `n` empty squares. */
  lemma NextPieceText(cells: seq<Cell>, n: nat, p: Piece)
    requires n < |cells| <= 8 && cells[n] == Some(p) && forall i :: 0 <= i < n ==> cells[i].None?
    ensures RowText(cells, 0) == RunText(n) + [PieceLetter(p)] + RowText(cells[n + 1..], 0)
  {
    SkipBlanks(cells, n, 0);
    assert cells[n..][0] == cells[n] && cells[n..][1..] == cells[n + 1..];
  }

  lemma OnePieceRow(cells: seq<Cell>, n: nat, p: Piece)
    requires n < |cells| == 8 && cells[n] == Some(p) && forall i :: 0 <= i < 8 && i != n ==> cells[i].None?
    ensures RowText(cells, 0) == RunText(n) + [PieceLetter(p)] + RunText(7 - n)
  {
    NextPieceText(cells, n, p);
    BlankRow(cells[n + 1..], 0);
  }

  lemma Sliced(cells: seq<Cell>, n: nat, m: nat)
    requires n + m <= |cells|
    ensures cells[n..][m..] == cells[n + m..]
  {}

  lemma TwoPieceRow(cells: seq<Cell>, n: nat, p: Piece, m: nat, q: Piece)
    requires n < m < |cells| == 8 && cells[n] == Some(p) && cells[m] == Some(q)
    requires forall i :: 0 <= i < 8 && i != n && i != m ==> cells[i].None?
    ensures RowText(cells, 0) == RunText(n) + [PieceLetter(p)] + (RunText(m - n - 1) + [PieceLetter(q)] + RunText(7 - m))
  {
    hide RowText, RunText, PieceLetter;
    NextPieceText(cells, n, p);
    var rest := cells[n + 1..];
    assert rest[m - n - 1] == cells[m];
    NextPieceText(rest, m - n - 1, q);
    Sliced(cells, n + 1, m - n);
    BlankRow(cells[m + 1..], 0);
  }

  lemma {:induction false} FullRow(cells: seq<Cell>, text: string)
    requires |cells| == |text| <= 8
    requires forall i :: 0 <= i < |cells| ==> cells[i].Some? && text[i] == PieceLetter(cells[i].value)
    ensures RowText(cells, 0) == text
  {
    hide PieceLetter;
    if cells == [] {
      assert text == "";
    } else {
      FullRow(cells[1..], text[1..]);
      assert text == [text[0]] + text[1..];
    }
  }

  // ---- Whole strings ----

  /** Eight ranks, from the top. */
  function Joined(rows: seq<string>): string
    requires |rows| == 8
  {
    rows[0] + ['/'] + (rows[1] + ['/'] + (rows[2] + ['/'] + (rows[3] + ['/'] + (rows[4] + ['/']
                                                                                + (rows[5] + ['/'] + (rows[6] + ['/'] + rows[7]))))))
  }

  lemma EightRanks(board: Board, rows: seq<string>)
    requires |rows| == 8 && forall r: Coordinate :: RowText(RankCells(board, r), 0) == rows[7 - r]
    ensures PlacementText(board) == Joined(rows)
  {
    hide RowText;
    assert RanksText(board, 0) == rows[7];
    assert RanksText(board, 1) == rows[6] + ['/'] + RanksText(board, 0);
    assert RanksText(board, 2) == rows[5] + ['/'] + RanksText(board, 1);
    assert RanksText(board, 3) == rows[4] + ['/'] + RanksText(board, 2);
    assert RanksText(board, 4) == rows[3] + ['/'] + RanksText(board, 3);
    assert RanksText(board, 5) == rows[2] + ['/'] + RanksText(board, 4);
    assert RanksText(board, 6) == rows[1] + ['/'] + RanksText(board, 5);
    assert RanksText(board, 7) == rows[0] + ['/'] + RanksText(board, 6);
  }

  function Fields(placement: string, side: string, castling: string, ep: string, halfmove: string, fullmove: string): string {
    placement + " " + side + " " + castling + " " + ep + " " + halfmove + " " + fullmove
  }

  lemma SixFields(c: Core, placement: string, castling: string, ep: string, halfmove: string, fullmove: string)
    requires PlacementText(c.board) == placement && CastlingText(c.castling) == castling && EpText(c.ep) == ep
    requires Decimal(c.halfmove) == halfmove && Decimal(c.fullmove) == fullmove
    ensures Format(c) == Fields(placement, if c.side.White? then "w" else "b", castling, ep, halfmove, fullmove)
  {
    hide PlacementText, CastlingText, EpText, Decimal;
  }

  lemma Numerals()
    ensures Decimal(0) == "0" && Decimal(1) == "1" && Decimal(12) == "12" && Decimal(34) == "34"
  {}

  lemma ReadBack(c: Core, text: string)
    requires Sound(c) && c.fullmove != 0 && Format(c) == text
    ensures Parse(text) == Ok(c)
  {
    hide Parse, Format, Sound;
    FormatParses(c);
  }

  /** The string every game begins with. */
  lemma StartText()
    ensures Format(StartPosition()) == "rnbqkbnr/pppppppp/8/8/8/8/PPPPPPPP/RNBQKBNR w KQkq - 0 1"
    ensures Parse("rnbqkbnr/pppppppp/8/8/8/8/PPPPPPPP/RNBQKBNR w KQkq - 0 1") == Ok(StartPosition())
  {
    StartSound();
    StartFormat();
    hide StartPosition, Sound, Parse, Format;
    ReadBack(StartPosition(), "rnbqkbnr/pppppppp/8/8/8/8/PPPPPPPP/RNBQKBNR w KQkq - 0 1");
  }

  lemma StartFormat()
    ensures StartPosition().fullmove == 1
    ensures Format(StartPosition()) == "rnbqkbnr/pppppppp/8/8/8/8/PPPPPPPP/RNBQKBNR w KQkq - 0 1"
  {
    var c := StartPosition();
    assert c.castling == ALL_RIGHTS && c.ep == None && c.halfmove == 0 && c.fullmove == 1 && c.side == White;
    StartPlacement();
    RightsByValue();
    Numerals();
    StartWhole();
    hide StartPosition, PlacementText, CastlingText, Decimal, Format;
    SixFields(c, "rnbqkbnr/pppppppp/8/8/8/8/PPPPPPPP/RNBQKBNR", "KQkq", "-", "0", "1");
  }

  lemma StartWhole()
    ensures Fields("rnbqkbnr/pppppppp/8/8/8/8/PPPPPPPP/RNBQKBNR", "w", "KQkq", "-", "0", "1")
         == "rnbqkbnr/pppppppp/8/8/8/8/PPPPPPPP/RNBQKBNR w KQkq - 0 1"
  {}

  const START_ROWS: seq<string> := ["rnbqkbnr", "pppppppp", "8", "8", "8", "8", "PPPPPPPP", "RNBQKBNR"]

  lemma StartJoined()
    ensures Joined(START_ROWS) == "rnbqkbnr/pppppppp/8/8/8/8/PPPPPPPP/RNBQKBNR"
  {}

  lemma StartPlacement()
    ensures PlacementText(StartPosition().board) == "rnbqkbnr/pppppppp/8/8/8/8/PPPPPPPP/RNBQKBNR"
  {
    StartJoined();
    hide StartPosition, RowText, RankCells, PlacementText, Joined;
    forall r: Coordinate
      ensures RowText(RankCells(StartPosition().board, r), 0) == START_ROWS[7 - r]
    {
      StartRow(r);
    }
    EightRanks(StartPosition().board, START_ROWS);
  }

  lemma StartRowCell(r: Coordinate, i: Coordinate)
    ensures RankCells(StartPosition().board, r)[i] == StartCell(8 * r + i)
    ensures File(8 * r + i) == i && Rank(8 * r + i) == r
  {}

  lemma StartRow(r: Coordinate)
    ensures RowText(RankCells(StartPosition().board, r), 0) ==
            match r case 0 => "RNBQKBNR" case 1 => "PPPPPPPP" case 6 => "pppppppp" case 7 => "rnbqkbnr" case _ => "8"
  {
    var cells := RankCells(StartPosition().board, r);
    forall i: Coordinate
      ensures cells[i] == StartCell(8 * r + i) && File(8 * r + i) == i && Rank(8 * r + i) == r
    {
      StartRowCell(r, i);
    }
    LettersByValue();
    hide RowText, PieceLetter;
    match r
    case 0 => FullRow(cells, "RNBQKBNR");
    case 1 => FullRow(cells, "PPPPPPPP");
    case 6 => FullRow(cells, "pppppppp");
    case 7 => FullRow(cells, "rnbqkbnr");
    case _ => BlankRow(cells, 0);
  }

  lemma StartSound()
    ensures Sound(StartPosition())
  {
    StartIsFair();
    hide StartPosition, Sound;
  }

  // ---- A position with everything in its text ----

  /** Black to move, one right a side, a target, clocks of two digits. */
  function Mixed(): Core {
    var kings := EmptyBoard()[E1 := Some(Piece(White, King))][E8 := Some(Piece(Black, King))];
    var rooks := kings[H1 := Some(Piece(White, Rook))][A8 := Some(Piece(Black, Rook))];
    Core(rooks[27 := Some(Piece(Black, Pawn))][28 := Some(Piece(White, Pawn))], Black, 9, Some(20), 12, 34)
  }

  lemma MixedText()
    ensures Parse("r3k3/8/8/8/3pP3/8/8/4K2R b Kq e3 12 34") == Ok(Mixed())
  {
    MixedSound();
    MixedFormat();
    hide Mixed, Sound, Parse, Format;
    ReadBack(Mixed(), "r3k3/8/8/8/3pP3/8/8/4K2R b Kq e3 12 34");
  }

  lemma MixedFormat()
    ensures Mixed().fullmove == 34
    ensures Format(Mixed()) == "r3k3/8/8/8/3pP3/8/8/4K2R b Kq e3 12 34"
  {
    var c := Mixed();
    MixedRecord();
    MixedPlacement();
    Numerals();
    MixedFields();
    MixedWhole();
    hide Mixed, PlacementText, CastlingText, EpText, Decimal, Format;
    SixFields(c, "r3k3/8/8/8/3pP3/8/8/4K2R", "Kq", "e3", "12", "34");
  }

  lemma MixedRecord()
    ensures var c := Mixed();
            c.castling == 9 && c.ep == Some(20) && c.halfmove == 12 && c.fullmove == 34 && c.side == Black
  {}

  lemma MixedFields()
    ensures CastlingText(9) == "Kq" && EpText(Some(20)) == "e3"
  {}

  lemma MixedWhole()
    ensures Fields("r3k3/8/8/8/3pP3/8/8/4K2R", "b", "Kq", "e3", "12", "34") == "r3k3/8/8/8/3pP3/8/8/4K2R b Kq e3 12 34"
  {}

  lemma MixedBoard()
    ensures var board := Mixed().board;
            && Holds(board, E1, White, King) && Holds(board, E8, Black, King)
            && Holds(board, H1, White, Rook) && Holds(board, A8, Black, Rook)
            && Holds(board, 27, Black, Pawn) && Holds(board, 28, White, Pawn)
            && forall s: Square :: s != E1 && s != E8 && s != H1 && s != A8 && s != 27 && s != 28 ==> board[s].None?
  {
    var board := Mixed().board;
    assert forall s: Square :: s != E1 && s != E8 && s != H1 && s != A8 && s != 27 && s != 28 ==> board[s].None?;
  }

  lemma MixedSound()
    ensures Sound(Mixed())
  {
    MixedBoard();
    var c := Mixed();
    assert c.side == Black && c.castling == 9 && c.ep == Some(20);
    hide Mixed;
    assert KingAt(c.board, White, E1) && KingAt(c.board, Black, E8);
  }

  const MIXED_ROWS: seq<string> := ["r3k3", "8", "8", "8", "3pP3", "8", "8", "4K2R"]

  lemma MixedJoined()
    ensures Joined(MIXED_ROWS) == "r3k3/8/8/8/3pP3/8/8/4K2R"
  {}

  lemma MixedPlacement()
    ensures PlacementText(Mixed().board) == "r3k3/8/8/8/3pP3/8/8/4K2R"
  {
    MixedJoined();
    MixedBoard();
    hide Mixed, RowText, RankCells, PlacementText, Joined;
    forall r: Coordinate
      ensures RowText(RankCells(Mixed().board, r), 0) == MIXED_ROWS[7 - r]
    {
      MixedRow(Mixed().board, r);
    }
    EightRanks(Mixed().board, MIXED_ROWS);
  }

  lemma MixedRow(board: Board, r: Coordinate)
    requires Holds(board, E1, White, King) && Holds(board, E8, Black, King)
    requires Holds(board, H1, White, Rook) && Holds(board, A8, Black, Rook)
    requires Holds(board, 27, Black, Pawn) && Holds(board, 28, White, Pawn)
    requires forall s: Square :: s != E1 && s != E8 && s != H1 && s != A8 && s != 27 && s != 28 ==> board[s].None?
    ensures RowText(RankCells(board, r), 0) == match r case 0 => "4K2R" case 3 => "3pP3" case 7 => "r3k3" case _ => "8"
  {
    var cells := RankCells(board, r);
    assert forall i: Coordinate :: cells[i] == board[8 * r + i];
    LettersByValue();
    RunsByValue();
    hide RankCells, RowText, RunText, PieceLetter;
    match r
    case 0 => TwoPieceRow(cells, 4, Piece(White, King), 7, Piece(White, Rook));
    case 3 => TwoPieceRow(cells, 3, Piece(Black, Pawn), 4, Piece(White, Pawn));
    case 7 => TwoPieceRow(cells, 0, Piece(Black, Rook), 4, Piece(Black, King));
    case _ => BlankRow(cells, 0);
  }

  lemma RunsByValue()
    ensures RunText(0) == "" && RunText(1) == "1" && RunText(2) == "2" && RunText(3) == "3" && RunText(4) == "4"
    ensures RunText(5) == "5" && RunText(6) == "6" && RunText(7) == "7" && RunText(8) == "8"
  {}

  // ---- The positions of the examples ----

  const OPENFILE_ROWS: seq<string> := ["4k3", "8", "8", "8", "8", "8", "8", "K3R3"]

  lemma OpenFileText()
    ensures Parse("4k3/8/8/8/8/8/8/K3R3 w - - 0 1") == Ok(OpenFile())
  {
    OpenFileSound();
    OpenFileFormat();
    hide OpenFile, Sound, Parse, Format, Applicable, PseudoLegal, TakesKing;
    ReadBack(OpenFile(), "4k3/8/8/8/8/8/8/K3R3 w - - 0 1");
  }

  lemma OpenFileFormat()
    ensures OpenFile().fullmove == 1
    ensures Format(OpenFile()) == "4k3/8/8/8/8/8/8/K3R3 w - - 0 1"
  {
    var c := OpenFile();
    assert c.castling == NO_RIGHTS && c.ep == None && c.halfmove == 0 && c.fullmove == 1 && c.side == White;
    OpenFileBoard();
    RightsByValue();
    Numerals();
    OpenFileWhole();
    hide OpenFile, PlacementText, RankCells, RowText, CastlingText, Decimal, Format, Joined, Fields;
    forall r: Coordinate
      ensures RowText(RankCells(c.board, r), 0) == OPENFILE_ROWS[7 - r]
    {
      OpenFileRow(c.board, r);
    }
    EightRanks(c.board, OPENFILE_ROWS);
    SixFields(c, Joined(OPENFILE_ROWS), "-", "-", "0", "1");
  }

  lemma OpenFileWhole()
    ensures Fields(Joined(OPENFILE_ROWS), "w", "-", "-", "0", "1") == "4k3/8/8/8/8/8/8/K3R3 w - - 0 1"
  {
    assert Joined(OPENFILE_ROWS) == "4k3/8/8/8/8/8/8/K3R3";
  }

  predicate OpenFilePieces(board: Board) {
    && Holds(board, 0, White, King) && Holds(board, 4, White, Rook) && Holds(board, 60, Black, King)
    && forall s: Square :: s != 0 && s != 4 && s != 60 ==> board[s].None?
  }

  lemma OpenFileBoard()
    ensures OpenFilePieces(OpenFile().board)
  {
    var board := OpenFile().board;
    assert forall s: Square :: s != 0 && s != 4 && s != 60 ==> board[s].None?;
  }

  lemma OpenFileRow(board: Board, r: Coordinate)
    requires OpenFilePieces(board)
    ensures RowText(RankCells(board, r), 0) == match r case 0 => "K3R3" case 7 => "4k3" case _ => "8"
  {
    var cells := RankCells(board, r);
    assert forall i: Coordinate :: cells[i] == board[8 * r + i];
    LettersByValue();
    RunsByValue();
    hide RankCells, RowText, RunText, PieceLetter;
    match r
    case 0 => TwoPieceRow(cells, 0, Piece(White, King), 4, Piece(White, Rook));
    case 7 => OnePieceRow(cells, 4, Piece(Black, King));
    case _ => BlankRow(cells, 0);
  }

  const KNIGHTCHECK_ROWS: seq<string> := ["4k3", "8", "8", "3pP3", "8", "5n2", "8", "4K3"]

  lemma KnightCheckText()
    ensures Parse("4k3/8/8/3pP3/8/5n2/8/4K3 w - d6 0 1") == Ok(KnightCheck())
  {
    KnightCheckIs();
    KnightCheckFormat();
    hide KnightCheck, Sound, Parse, Format, Applicable, PseudoLegal, TakesKing;
    ReadBack(KnightCheck(), "4k3/8/8/3pP3/8/5n2/8/4K3 w - d6 0 1");
  }

  lemma KnightCheckFormat()
    ensures KnightCheck().fullmove == 1
    ensures Format(KnightCheck()) == "4k3/8/8/3pP3/8/5n2/8/4K3 w - d6 0 1"
  {
    var c := KnightCheck();
    assert c.castling == NO_RIGHTS && c.ep == Some(43) && c.halfmove == 0 && c.fullmove == 1 && c.side == White;
    KnightCheckBoard();
    RightsByValue();
    Numerals();
    KnightCheckWhole();
    assert EpText(Some(43)) == "d6";
    hide KnightCheck, PlacementText, RankCells, RowText, CastlingText, Decimal, Format, Joined, Fields, EpText;
    forall r: Coordinate
      ensures RowText(RankCells(c.board, r), 0) == KNIGHTCHECK_ROWS[7 - r]
    {
      KnightCheckRow(c.board, r);
    }
    EightRanks(c.board, KNIGHTCHECK_ROWS);
    SixFields(c, Joined(KNIGHTCHECK_ROWS), "-", "d6", "0", "1");
  }

  lemma KnightCheckWhole()
    ensures Fields(Joined(KNIGHTCHECK_ROWS), "w", "-", "d6", "0", "1") == "4k3/8/8/3pP3/8/5n2/8/4K3 w - d6 0 1"
  {
    assert Joined(KNIGHTCHECK_ROWS) == "4k3/8/8/3pP3/8/5n2/8/4K3";
  }

  predicate KnightCheckPieces(board: Board) {
    && Holds(board, 4, White, King) && Holds(board, 21, Black, Knight) && Holds(board, 35, Black, Pawn) && Holds(board, 36, White, Pawn) && Holds(board, 60, Black, King)
    && forall s: Square :: s != 4 && s != 21 && s != 35 && s != 36 && s != 60 ==> board[s].None?
  }

  lemma KnightCheckBoard()
    ensures KnightCheckPieces(KnightCheck().board)
  {
    var board := KnightCheck().board;
    assert forall s: Square :: s != 4 && s != 21 && s != 35 && s != 36 && s != 60 ==> board[s].None?;
  }

  lemma KnightCheckRow(board: Board, r: Coordinate)
    requires KnightCheckPieces(board)
    ensures RowText(RankCells(board, r), 0) == match r case 0 => "4K3" case 2 => "5n2" case 4 => "3pP3" case 7 => "4k3" case _ => "8"
  {
    var cells := RankCells(board, r);
    assert forall i: Coordinate :: cells[i] == board[8 * r + i];
    LettersByValue();
    RunsByValue();
    hide RankCells, RowText, RunText, PieceLetter;
    match r
    case 0 => OnePieceRow(cells, 4, Piece(White, King));
    case 2 => OnePieceRow(cells, 5, Piece(Black, Knight));
    case 4 => TwoPieceRow(cells, 3, Piece(Black, Pawn), 4, Piece(White, Pawn));
    case 7 => OnePieceRow(cells, 4, Piece(Black, King));
    case _ => BlankRow(cells, 0);
  }

  const PAWNTAKES_ROWS: seq<string> := ["3k4", "4P3", "8", "8", "8", "8", "8", "K7"]

  lemma PawnTakesText()
    ensures Parse("3k4/4P3/8/8/8/8/8/K7 w - - 0 1") == Ok(PawnTakes())
  {
    PawnTakesIs();
    PawnTakesFormat();
    hide PawnTakes, Sound, Parse, Format, Applicable, PseudoLegal, TakesKing;
    ReadBack(PawnTakes(), "3k4/4P3/8/8/8/8/8/K7 w - - 0 1");
  }

  lemma PawnTakesFormat()
    ensures PawnTakes().fullmove == 1
    ensures Format(PawnTakes()) == "3k4/4P3/8/8/8/8/8/K7 w - - 0 1"
  {
    var c := PawnTakes();
    assert c.castling == NO_RIGHTS && c.ep == None && c.halfmove == 0 && c.fullmove == 1 && c.side == White;
    PawnTakesBoard();
    RightsByValue();
    Numerals();
    PawnTakesWhole();
    hide PawnTakes, PlacementText, RankCells, RowText, CastlingText, Decimal, Format, Joined, Fields;
    forall r: Coordinate
      ensures RowText(RankCells(c.board, r), 0) == PAWNTAKES_ROWS[7 - r]
    {
      PawnTakesRow(c.board, r);
    }
    EightRanks(c.board, PAWNTAKES_ROWS);
    SixFields(c, Joined(PAWNTAKES_ROWS), "-", "-", "0", "1");
  }

  lemma PawnTakesWhole()
    ensures Fields(Joined(PAWNTAKES_ROWS), "w", "-", "-", "0", "1") == "3k4/4P3/8/8/8/8/8/K7 w - - 0 1"
  {
    assert Joined(PAWNTAKES_ROWS) == "3k4/4P3/8/8/8/8/8/K7";
  }

  predicate PawnTakesPieces(board: Board) {
    && Holds(board, 0, White, King) && Holds(board, 52, White, Pawn) && Holds(board, 59, Black, King)
    && forall s: Square :: s != 0 && s != 52 && s != 59 ==> board[s].None?
  }

  lemma PawnTakesBoard()
    ensures PawnTakesPieces(PawnTakes().board)
  {
    var board := PawnTakes().board;
    assert forall s: Square :: s != 0 && s != 52 && s != 59 ==> board[s].None?;
  }

  lemma PawnTakesRow(board: Board, r: Coordinate)
    requires PawnTakesPieces(board)
    ensures RowText(RankCells(board, r), 0) == match r case 0 => "K7" case 6 => "4P3" case 7 => "3k4" case _ => "8"
  {
    var cells := RankCells(board, r);
    assert forall i: Coordinate :: cells[i] == board[8 * r + i];
    LettersByValue();
    RunsByValue();
    hide RankCells, RowText, RunText, PieceLetter;
    match r
    case 0 => OnePieceRow(cells, 0, Piece(White, King));
    case 6 => OnePieceRow(cells, 4, Piece(White, Pawn));
    case 7 => OnePieceRow(cells, 3, Piece(Black, King));
    case _ => BlankRow(cells, 0);
  }

  const NEIGHBOURS_ROWS: seq<string> := ["8", "8", "8", "8", "8", "8", "P3k3", "4K3"]

  lemma NeighboursText()
    ensures Parse("8/8/8/8/8/8/P3k3/4K3 w - - 0 1") == Ok(Neighbours())
  {
    NeighboursFacts();
    NeighboursFormat();
    hide Neighbours, Sound, Parse, Format, Applicable, PseudoLegal, TakesKing;
    ReadBack(Neighbours(), "8/8/8/8/8/8/P3k3/4K3 w - - 0 1");
  }

  lemma NeighboursFormat()
    ensures Neighbours().fullmove == 1
    ensures Format(Neighbours()) == "8/8/8/8/8/8/P3k3/4K3 w - - 0 1"
  {
    var c := Neighbours();
    assert c.castling == NO_RIGHTS && c.ep == None && c.halfmove == 0 && c.fullmove == 1 && c.side == White;
    NeighboursBoard();
    RightsByValue();
    Numerals();
    NeighboursWhole();
    hide Neighbours, PlacementText, RankCells, RowText, CastlingText, Decimal, Format, Joined, Fields;
    forall r: Coordinate
      ensures RowText(RankCells(c.board, r), 0) == NEIGHBOURS_ROWS[7 - r]
    {
      NeighboursRow(c.board, r);
    }
    EightRanks(c.board, NEIGHBOURS_ROWS);
    SixFields(c, Joined(NEIGHBOURS_ROWS), "-", "-", "0", "1");
  }

  lemma NeighboursWhole()
    ensures Fields(Joined(NEIGHBOURS_ROWS), "w", "-", "-", "0", "1") == "8/8/8/8/8/8/P3k3/4K3 w - - 0 1"
  {
    assert Joined(NEIGHBOURS_ROWS) == "8/8/8/8/8/8/P3k3/4K3";
  }

  predicate NeighboursPieces(board: Board) {
    && Holds(board, 4, White, King) && Holds(board, 8, White, Pawn) && Holds(board, 12, Black, King)
    && forall s: Square :: s != 4 && s != 8 && s != 12 ==> board[s].None?
  }

  lemma NeighboursBoard()
    ensures NeighboursPieces(Neighbours().board)
  {
    var board := Neighbours().board;
    assert forall s: Square :: s != 4 && s != 8 && s != 12 ==> board[s].None?;
  }

  lemma NeighboursRow(board: Board, r: Coordinate)
    requires NeighboursPieces(board)
    ensures RowText(RankCells(board, r), 0) == match r case 0 => "4K3" case 1 => "P3k3" case _ => "8"
  {
    var cells := RankCells(board, r);
    assert forall i: Coordinate :: cells[i] == board[8 * r + i];
    LettersByValue();
    RunsByValue();
    hide RankCells, RowText, RunText, PieceLetter;
    match r
    case 0 => OnePieceRow(cells, 4, Piece(White, King));
    case 1 => TwoPieceRow(cells, 0, Piece(White, Pawn), 4, Piece(Black, King));
    case _ => BlankRow(cells, 0);
  }

  // ---- Move texts ----

  /** Origin, target, and the letter of the piece a pawn becomes. */
  lemma MovesByValue()
    ensures ToUci(Move(12, 28, DoublePush)) == "e2e4" && ToUci(Move(E8, 62, KingCastle)) == "e8g8"
    ensures ToUci(Move(52, 60, KnightPromo)) == "e7e8n" && ToUci(Move(52, 60, BishopPromo)) == "e7e8b"
    ensures ToUci(Move(8, 1, RookPromoCapture)) == "a2b1r" && ToUci(Move(8, 1, QueenPromoCapture)) == "a2b1q"
  {
    SquaresByValue();
    hide SquareName;
  }

  lemma SquaresByValue()
    ensures SquareName(12) == "e2" && SquareName(28) == "e4" && SquareName(E8) == "e8" && SquareName(62) == "g8"
    ensures SquareName(52) == "e7" && SquareName(60) == "e8" && SquareName(8) == "a2" && SquareName(1) == "b1"
  {}
}
