/** The piece-placement field of a FEN string: its grammar, its scanner and its printer. */
module Placement {
  import opened Wrappers
  import opened Chess
  import opened Rules
  import opened Text

  datatype FenError =
    | WrongFieldCount(found: nat)
    | BadPiecePlacement(text: string)
    | BadActiveColor(text: string)
    | BadCastlingRights(text: string)
    | BadEnPassant(text: string)
    | BadHalfmoveClock(text: string)
    | BadFullmoveNumber(text: string)
    | MissingKing(color: Color)
    | TooManyKings(color: Color)
    | PawnOnBackRank(square: Square)
    | InconsistentCastlingRights(right: CastlingRights)

  // ---- Letters ----

  function KindLetter(kind: PieceKind): char {
    match kind
    case Pawn => 'p'
    case Knight => 'n'
    case Bishop => 'b'
    case Rook => 'r'
    case Queen => 'q'
    case King => 'k'
  }

  function KindOfLetter(c: char): Option<PieceKind> {
    if c == 'p' || c == 'P' then Some(Pawn)
    else if c == 'n' || c == 'N' then Some(Knight)
    else if c == 'b' || c == 'B' then Some(Bishop)
    else if c == 'r' || c == 'R' then Some(Rook)
    else if c == 'q' || c == 'Q' then Some(Queen)
    else if c == 'k' || c == 'K' then Some(King)
    else None
  }

  /** Upper case for White. */
  function PieceLetter(p: Piece): char {
    if p.color.Black? then KindLetter(p.kind) else (KindLetter(p.kind) as int - 0x20) as char
  }

  function PieceOfLetter(c: char): Option<Piece> {
    if KindOfLetter(c).None? then None
    else if 'A' <= c <= 'Z' then Some(Piece(White, KindOfLetter(c).value))
    else if 'a' <= c <= 'z' then Some(Piece(Black, KindOfLetter(c).value))
    else None
  }

  lemma PieceLetters(c: char, p: Piece)
    ensures PieceOfLetter(c) == Some(p) <==> c == PieceLetter(p)
  {
    if PieceOfLetter(c) == Some(p) { assert p == Piece(p.color, p.kind); }
  }

  predicate IsRunDigit(c: char) {
    '1' <= c <= '8'
  }

  // ---- The grammar ----

  /** The cells one rank's text stands for: a digit for a run of empty cells, a letter for a piece. */
  function Row(text: string): Option<seq<Cell>> {
    if text == "" then Some([])
    else
      var rest := Row(text[1..]);
      if rest.None? then None
      else if IsRunDigit(text[0]) then Some(seq(DigitValue(text[0]), _ => None) + rest.value)
      else if PieceOfLetter(text[0]).Some? then Some([PieceOfLetter(text[0])] + rest.value)
      else None
  }

  predicate HasPawn(cells: seq<Cell>) {
    exists i :: 0 <= i < |cells| && cells[i].Some? && cells[i].value.kind.Pawn?
  }

  /** A rank's text that completes the rank from `file` on. Ranks count from 8 down to 1. */
  predicate RowFits(text: string, rank: nat, file: nat) {
    && Row(text).Some?
    && file + |Row(text).value| == 8
    && (rank == 1 || rank == 8 ==> !HasPawn(Row(text).value))
  }

  /** The texts of `rank` ranks, the first of which starts at `file`. */
  predicate RowsFit(rows: seq<string>, rank: nat, file: nat) {
    && |rows| == rank
    && forall i :: 0 <= i < |rows| ==> RowFits(rows[i], rank - i, if i == 0 then file else 0)
  }

  /** A placement field: eight ranks separated by slashes, each exactly eight cells. */
  predicate IsPlacement(text: string) {
    RowsFit(Split(text, '/'), 8, 0)
  }

  /** Rank 8 comes first. */
  function PlacementCell(text: string, s: Square): Cell
    requires IsPlacement(text)
  {
    var rows := Split(text, '/');
    assert RowFits(rows[7 - Rank(s)], 8 - (7 - Rank(s)), 0);
    Row(rows[7 - Rank(s)]).value[File(s)]
  }

  function PlacementBoard(text: string): Board
    requires IsPlacement(text)
  {
    seq(64, s requires 0 <= s < 64 => PlacementCell(text, s))
  }

  // ---- The scanner: a rank cursor, a file cursor and a board ----

  type RankNumber = r: int | 1 <= r <= 8 witness 8

  type FileCursor = f: int | 0 <= f <= 8

  function Scan(s: string, rank: RankNumber, file: FileCursor, board: Board, whole: string): Result<Board, FenError> {
    if s == "" then
      if rank == 1 && file == 8 then Ok(board) else Err(BadPiecePlacement(whole))
    else if s[0] == '/' then
      if file != 8 || rank == 1 then Err(BadPiecePlacement(whole)) else Scan(s[1..], rank - 1, 0, board, whole)
    else if IsRunDigit(s[0]) then
      var next := file + DigitValue(s[0]);
      if next > 8 then Err(BadPiecePlacement(whole)) else Scan(s[1..], rank, next, board, whole)
    else if PieceOfLetter(s[0]).None? || file >= 8 then Err(BadPiecePlacement(whole))
    else
      var piece := PieceOfLetter(s[0]).value;
      if piece.kind.Pawn? && (rank == 1 || rank == 8) then Err(PawnOnBackRank(At(file, rank - 1)))
      else Scan(s[1..], rank, file + 1, board[At(file, rank - 1) := Some(piece)], whole)
  }

  function EmptyBoard(): Board {
    seq(64, _ => None)
  }

  /** The pre-check on the number of ranks, then the scan. */
  function ParsePlacement(s: string): Result<Board, FenError> {
    if |Split(s, '/')| != 8 then Err(BadPiecePlacement(s)) else Scan(s, 8, 0, EmptyBoard(), s)
  }

  // ---- The scanner accepts the grammar ----

  /** Squares the scan has yet to reach are still empty. */
  predicate Untouched(board: Board, rank: RankNumber, file: FileCursor) {
    forall s: Square :: Rank(s) < rank - 1 || (Rank(s) == rank - 1 && File(s) >= file) ==> board[s].None?
  }

  /** What the scan leaves on `s` when the remaining text is made of `rows`. */
  function Filled(rows: seq<string>, rank: RankNumber, file: FileCursor, board: Board, s: Square): Cell
    requires RowsFit(rows, rank, file)
  {
    if Rank(s) > rank - 1 || (Rank(s) == rank - 1 && File(s) < file) then board[s]
    else
      var i := rank - 1 - Rank(s);
      assert RowFits(rows[i], rank - i, if i == 0 then file else 0);
      Row(rows[i]).value[if i == 0 then File(s) - file else File(s)]
  }

  ghost predicate ScansTo(s: string, rank: RankNumber, file: FileCursor, board: Board, whole: string) {
    var rows := Split(s, '/');
    var r := Scan(s, rank, file, board, whole);
    && (r.Ok? <==> RowsFit(rows, rank, file))
    && (r.Ok? ==> forall q: Square :: r.value[q] == Filled(rows, rank, file, board, q))
  }

  lemma ScanEnd(rank: RankNumber, file: FileCursor, board: Board, whole: string)
    requires Untouched(board, rank, file)
    ensures ScansTo("", rank, file, board, whole)
  {
    var rows := Split("", '/');
    assert rows == [""] && Row("") == Some([]);
    assert rank == 1 ==> (RowsFit(rows, rank, file) <==> RowFits(rows[0], rank, file));
  }

  lemma ScanSlash(s: string, rank: RankNumber, file: FileCursor, board: Board, whole: string)
    requires s != "" && s[0] == '/'
    requires rank > 1 ==> ScansTo(s[1..], rank - 1, 0, board, whole)
    ensures ScansTo(s, rank, file, board, whole)
  {
    var rows := Split(s, '/');
    var rest := Split(s[1..], '/');
    assert rows == [""] + rest;
    hide Row, Split;
    EmptyRow();
    assert RowsFit(rows, rank, file) ==> RowFits(rows[0], rank, file) && |rest| == rank - 1;
    if file == 8 && rank > 1 {
      RowsAfterSlash(rest, rank);
    }
  }

  lemma EmptyRow()
    ensures Row("") == Some([])
  {}

  lemma RowsAfterSlash(rest: seq<string>, rank: RankNumber)
    requires rank > 1
    ensures RowsFit(rest, rank - 1, 0) <==> RowsFit([""] + rest, rank, 8)
  {
    var rows := [""] + rest;
    EmptyRow();
    hide Row;
    assert RowFits("", rank, 8);
    assert forall i :: 0 <= i < |rest| ==> rows[i + 1] == rest[i];
    if RowsFit(rows, rank, 8) {
      forall i | 0 <= i < |rest|
        ensures RowFits(rest[i], rank - 1 - i, 0)
      {
        assert RowFits(rows[i + 1], rank - (i + 1), 0);
      }
    }
    if RowsFit(rest, rank - 1, 0) {
      forall i | 0 <= i < |rows|
        ensures RowFits(rows[i], rank - i, if i == 0 then 8 else 0)
      {
        if i > 0 { assert RowFits(rest[i - 1], rank - 1 - (i - 1), 0); }
      }
    }
  }

  /** Cells contributed by one character of a rank. */
  function CharCells(c: char): Option<seq<Cell>> {
    if IsRunDigit(c) then Some(seq(DigitValue(c), _ => None))
    else if PieceOfLetter(c).Some? then Some([PieceOfLetter(c)])
    else None
  }

  lemma RowOfCons(c: char, text: string)
    ensures Row([c] + text).Some? <==> CharCells(c).Some? && Row(text).Some?
    ensures Row([c] + text).Some? ==> Row([c] + text).value == CharCells(c).value + Row(text).value
  {
    assert ([c] + text)[1..] == text;
  }

  /** Prefixing the first row by one character. */
  lemma RowsAfterChar(c: char, rest: seq<string>, rank: RankNumber, file: FileCursor)
    requires |rest| >= 1
    requires CharCells(c).Some?
    ensures var rows := [[c] + rest[0]] + rest[1..];
            var cells := CharCells(c).value;
            RowsFit(rows, rank, file) <==>
            file + |cells| <= 8 && !((rank == 1 || rank == 8) && HasPawn(cells)) && RowsFit(rest, rank, file + |cells|)
  {
    var rows := [[c] + rest[0]] + rest[1..];
    var cells := CharCells(c).value;
    RowOfCons(c, rest[0]);
    hide Row, CharCells;
    var tail := Row(rest[0]);
    if tail.Some? {
      PawnsOfConcat(cells, tail.value);
    }
    assert RowFits(rows[0], rank, file) <==>
           file + |cells| <= 8 && !((rank == 1 || rank == 8) && HasPawn(cells)) && RowFits(rest[0], rank, file + |cells|);
    assert forall i :: 1 <= i < |rest| ==> rows[i] == rest[i];
    hide RowFits;
  }

  lemma PawnsOfConcat(a: seq<Cell>, b: seq<Cell>)
    ensures HasPawn(a + b) <==> HasPawn(a) || HasPawn(b)
  {
    var c := a + b;
    if HasPawn(a) { var i :| 0 <= i < |a| && a[i].Some? && a[i].value.kind.Pawn?; assert c[i] == a[i]; }
    if HasPawn(b) { var i :| 0 <= i < |b| && b[i].Some? && b[i].value.kind.Pawn?; assert c[|a| + i] == b[i]; }
    if HasPawn(c) {
      var i :| 0 <= i < |c| && c[i].Some? && c[i].value.kind.Pawn?;
      if i < |a| { assert a[i] == c[i]; } else { assert b[i - |a|] == c[i]; }
    }
  }

  lemma RunCells(c: char)
    requires IsRunDigit(c)
    ensures CharCells(c).Some? && |CharCells(c).value| == DigitValue(c)
    ensures forall i :: 0 <= i < DigitValue(c) ==> CharCells(c).value[i].None?
    ensures !HasPawn(CharCells(c).value)
  {}

  /** The cells of a row whose text grew by one character at the front. */
  lemma FilledAfterChar(c: char, rest: seq<string>, rank: RankNumber, file: FileCursor, board: Board, next: Board, s: Square)
    requires |rest| >= 1 && CharCells(c).Some?
    requires var cells := CharCells(c).value;
             && file + |cells| <= 8
             && RowsFit(rest, rank, file + |cells|)
             && RowsFit([[c] + rest[0]] + rest[1..], rank, file)
             && forall q: Square ::
                  next[q] ==
                  if Rank(q) == rank - 1 && file <= File(q) < file + |cells| then cells[File(q) - file] else board[q]
    ensures Filled([[c] + rest[0]] + rest[1..], rank, file, board, s)
         == Filled(rest, rank, file + |CharCells(c).value|, next, s)
  {
    var rows := [[c] + rest[0]] + rest[1..];
    RowOfCons(c, rest[0]);
    assert RowFits(rows[0], rank, file) && RowFits(rest[0], rank, file + |CharCells(c).value|);
    assert forall i :: 1 <= i < |rest| ==> rows[i] == rest[i];
    hide Row, CharCells, RowsFit;
  }

  lemma ScanRun(s: string, rank: RankNumber, file: FileCursor, board: Board, whole: string)
    requires s != "" && IsRunDigit(s[0])
    requires Untouched(board, rank, file)
    requires file + DigitValue(s[0]) <= 8 ==> ScansTo(s[1..], rank, file + DigitValue(s[0]), board, whole)
    ensures ScansTo(s, rank, file, board, whole)
  {
    var rest := Split(s[1..], '/');
    var rows := Split(s, '/');
    RunCells(s[0]);
    RowsAfterChar(s[0], rest, rank, file);
    assert rows == [[s[0]] + rest[0]] + rest[1..];
    hide RowsFit, CharCells, Split;
    if RowsFit(rows, rank, file) {
      forall q: Square
        ensures Filled(rows, rank, file, board, q) == Filled(rest, rank, file + DigitValue(s[0]), board, q)
      {
        FilledAfterChar(s[0], rest, rank, file, board, board, q);
      }
    }
  }

  lemma ScanLetter(s: string, rank: RankNumber, file: FileCursor, board: Board, whole: string)
    requires s != "" && s[0] != '/' && !IsRunDigit(s[0])
    requires Untouched(board, rank, file)
    requires PieceOfLetter(s[0]).Some? && file < 8 ==>
               ScansTo(s[1..], rank, file + 1, board[At(file, rank - 1) := PieceOfLetter(s[0])], whole)
    ensures ScansTo(s, rank, file, board, whole)
  {
    var rest := Split(s[1..], '/');
    var rows := Split(s, '/');
    assert rows == [[s[0]] + rest[0]] + rest[1..];
    RowOfCons(s[0], rest[0]);
    if PieceOfLetter(s[0]).Some? {
      RowsAfterChar(s[0], rest, rank, file);
      assert CharCells(s[0]) == Some([PieceOfLetter(s[0])]);
      SinglePawn(PieceOfLetter(s[0]));
      hide RowsFit, CharCells, Split, Row, PieceOfLetter;
      if RowsFit(rows, rank, file) {
        var next := board[At(file, rank - 1) := PieceOfLetter(s[0])];
        forall q: Square
          ensures Filled(rows, rank, file, board, q) == Filled(rest, rank, file + 1, next, q)
        {
          SquareIsAt(q);
          FilledAfterChar(s[0], rest, rank, file, board, next, q);
        }
      }
    } else {
      assert RowsFit(rows, rank, file) ==> RowFits(rows[0], rank, file);
    }
  }

  lemma SinglePawn(cell: Cell)
    ensures HasPawn([cell]) <==> cell.Some? && cell.value.kind.Pawn?
  {
    assert [cell][0] == cell;
  }

  lemma SquareIsAt(q: Square)
    ensures forall f: Coordinate, r: Coordinate :: q == At(f, r) <==> File(q) == f && Rank(q) == r
  {}

  lemma {:induction false} ScanAll(s: string, rank: RankNumber, file: FileCursor, board: Board, whole: string)
    requires Untouched(board, rank, file)
    ensures ScansTo(s, rank, file, board, whole)
  {
    hide ScansTo, PieceOfLetter;
    if s == "" {
      ScanEnd(rank, file, board, whole);
    } else if s[0] == '/' {
      if rank > 1 { ScanAll(s[1..], rank - 1, 0, board, whole); }
      ScanSlash(s, rank, file, board, whole);
    } else if IsRunDigit(s[0]) {
      if file + DigitValue(s[0]) <= 8 { ScanAll(s[1..], rank, file + DigitValue(s[0]), board, whole); }
      ScanRun(s, rank, file, board, whole);
    } else {
      if PieceOfLetter(s[0]).Some? && file < 8 {
        ScanAll(s[1..], rank, file + 1, board[At(file, rank - 1) := PieceOfLetter(s[0])], whole);
      }
      ScanLetter(s, rank, file, board, whole);
    }
  }

  /** The scanner accepts exactly the placement grammar and reads the board the text denotes. */
  lemma PlacementAccepted(s: string)
    ensures ParsePlacement(s).Ok? <==> IsPlacement(s)
    ensures IsPlacement(s) ==> ParsePlacement(s) == Ok(PlacementBoard(s))
  {
    ScanAll(s, 8, 0, EmptyBoard(), s);
    hide Scan, Row;
    if IsPlacement(s) {
      assert ParsePlacement(s).value == PlacementBoard(s);
    }
  }

  lemma AcceptedPawns(s: string)
    requires IsPlacement(s)
    ensures NoBackRankPawns(PlacementBoard(s))
  {
    hide Row;
    var rows := Split(s, '/');
    forall q: Square | Rank(q) == 0 || Rank(q) == 7
      ensures !(PlacementBoard(s)[q].Some? && PlacementBoard(s)[q].value.kind.Pawn?)
    {
      assert RowFits(rows[7 - Rank(q)], 8 - (7 - Rank(q)), 0);
    }
  }

  // ---- The printer ----

  function RunText(run: nat): string
    requires run <= 8
  {
    if run == 0 then "" else [DigitChar(run)]
  }

  /** The text of a rank whose last `run` cells, not yet printed, were empty. */
  function RowText(cells: seq<Cell>, run: nat): string
    requires run + |cells| <= 8
  {
    if cells == [] then RunText(run)
    else if cells[0].Some? then RunText(run) + [PieceLetter(cells[0].value)] + RowText(cells[1..], 0)
    else RowText(cells[1..], run + 1)
  }

  function RankCells(board: Board, rank: Coordinate): (cells: seq<Cell>)
    ensures |cells| == 8
  {
    board[8 * rank..8 * rank + 8]
  }

  /** Ranks `rank` down to 0, separated by slashes. */
  function RanksText(board: Board, rank: Coordinate): string {
    if rank == 0 then RowText(RankCells(board, 0), 0)
    else RowText(RankCells(board, rank), 0) + ['/'] + RanksText(board, rank - 1)
  }

  function PlacementText(board: Board): string {
    RanksText(board, 7)
  }

  // ---- Printing and scanning are inverse ----

  function Blanks(run: nat): seq<Cell> {
    seq(run, _ => None)
  }

  lemma RunRow(run: nat, text: string)
    requires run <= 8 && Row(text).Some?
    ensures Row(RunText(run) + text) == Some(Blanks(run) + Row(text).value)
  {
    if run == 0 {
      assert RunText(run) + text == text;
      assert Blanks(run) + Row(text).value == Row(text).value;
    } else {
      RowOfCons(DigitChar(run), text);
    }
  }

  lemma {:induction false} RowOfText(cells: seq<Cell>, run: nat)
    requires run + |cells| <= 8
    ensures Row(RowText(cells, run)) == Some(Blanks(run) + cells)
    decreases |cells|
  {
    if cells == [] {
      RunRow(run, "");
      assert RunText(run) + "" == RunText(run);
    } else if cells[0].Some? {
      var rest := RowText(cells[1..], 0);
      var letter := PieceLetter(cells[0].value);
      RowOfText(cells[1..], 0);
      PieceLetters(letter, cells[0].value);
      RowOfCons(letter, rest);
      RunRow(run, [letter] + rest);
      assert RunText(run) + ([letter] + rest) == RunText(run) + [letter] + rest;
      assert Row([letter] + rest).value == cells;
    } else {
      RowOfText(cells[1..], run + 1);
      assert Blanks(run + 1) + cells[1..] == Blanks(run) + cells;
    }
  }

  predicate PlainText(s: string) {
    forall i :: 0 <= i < |s| ==> s[i] != '/' && s[i] != ' '
  }

  lemma {:induction false} RowTextPlain(cells: seq<Cell>, run: nat)
    requires run + |cells| <= 8
    ensures PlainText(RowText(cells, run))
    decreases |cells|
  {
    if cells != [] {
      if cells[0].Some? {
        RowTextPlain(cells[1..], 0);
        assert PieceLetter(cells[0].value) != '/' && PieceLetter(cells[0].value) != ' ';
      } else {
        RowTextPlain(cells[1..], run + 1);
      }
    }
  }

  lemma {:induction false} RanksSplit(board: Board, rank: Coordinate)
    ensures |Split(RanksText(board, rank), '/')| == rank + 1
    ensures forall i :: 0 <= i <= rank ==>
                          Split(RanksText(board, rank), '/')[i] == RowText(RankCells(board, rank - i), 0)
    ensures ' ' !in RanksText(board, rank)
  {
    var first := RowText(RankCells(board, rank), 0);
    RowTextPlain(RankCells(board, rank), 0);
    if rank == 0 {
      SplitWhole(first, '/');
    } else {
      RanksSplit(board, rank - 1);
      SplitJoined(first, RanksText(board, rank - 1), '/');
    }
  }

  lemma BackRankCells(board: Board, rank: Coordinate)
    requires NoBackRankPawns(board) && (rank == 0 || rank == 7)
    ensures !HasPawn(RankCells(board, rank))
  {
    var cells := RankCells(board, rank);
    forall f: Coordinate
      ensures !(cells[f].Some? && cells[f].value.kind.Pawn?)
    {
      assert cells[f] == board[At(f, rank)];
    }
  }

  /** Printing a board without back-rank pawns gives a text that denotes it. */
  lemma PrintedDenotes(board: Board)
    requires NoBackRankPawns(board)
    ensures IsPlacement(PlacementText(board)) && PlacementBoard(PlacementText(board)) == board
  {
    hide Row, RowText;
    RanksSplit(board, 7);
    var rows := Split(PlacementText(board), '/');
    forall i | 0 <= i < 8
      ensures Row(rows[i]) == Some(RankCells(board, 7 - i)) && RowFits(rows[i], 8 - i, 0)
    {
      var cells := RankCells(board, 7 - i);
      RowOfText(cells, 0);
      assert Blanks(0) + cells == cells;
      if i == 0 || i == 7 { BackRankCells(board, 7 - i); }
    }
    forall q: Square
      ensures PlacementBoard(PlacementText(board))[q] == board[q]
    {
      assert Row(rows[7 - Rank(q)]) == Some(RankCells(board, Rank(q)));
    }
  }
}
