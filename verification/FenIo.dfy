/** The parser and the printer as they run: cursors over text, pieces placed one by one. */
module FenIo {
  import opened Wrappers
  import opened Chess
  import opened Bitboards
  import opened Rules
  import opened Text
  import opened Placement
  import opened Fen
  import opened Zobrist
  import opened Evaluation
  import opened Positions
  import opened Scratch
  import opened Transition
  import opened Folds

  // ---- Parsing ----

  /** `parse_placement`. */
  method ReadPlacement(pos: Position, s: string) returns (error: Option<FenError>)
    requires pos.Agree() && pos.mailbox == EmptyBoard()
    modifies pos`kindBits, pos`colorBits, pos`mailbox, pos`kings
    ensures pos.Agree()
    ensures error.None? ==> ParsePlacement(s) == Ok(pos.mailbox)
    ensures error.Some? ==> ParsePlacement(s) == Err(error.value)
    ensures error.None? ==> KingsFollow(pos.mailbox, pos.kings)
  {
    hide Split, KindsAgree, ColorsAgree, PieceOfLetter, KingsFollow;
    if |Split(s, '/')| != 8 {
      return Some(BadPiecePlacement(s));
    }
    var rank: RankNumber := 8;
    var file: FileCursor := 0;
    NoKingsYet(pos.kings);
    for i := 0 to |s|
      invariant pos.Agree()
      invariant Scan(s[i..], rank, file, pos.mailbox, s) == Scan(s, 8, 0, EmptyBoard(), s)
      invariant |Split(s[i..], '/')| == rank
      invariant KingsFollow(pos.mailbox, pos.kings)
      invariant Untouched(pos.mailbox, rank, file)
    {
      assert s[i..][0] == s[i] && s[i..][1..] == s[i + 1..];
      SplitStep(s[i..], '/');
      if s[i] == '/' {
        if file != 8 {
          return Some(BadPiecePlacement(s));
        }
        assert rank != 1;
        rank := rank - 1;
        file := 0;
      } else if IsRunDigit(s[i]) {
        var next := file + DigitValue(s[i]);
        if next > 8 {
          return Some(BadPiecePlacement(s));
        }
        file := next;
      } else {
        var piece := PieceOfLetter(s[i]);
        if piece.None? || file >= 8 {
          return Some(BadPiecePlacement(s));
        }
        if piece.value.kind.Pawn? && (rank == 1 || rank == 8) {
          return Some(PawnOnBackRank(At(file, rank - 1)));
        }
        PlacedKing(pos.mailbox, pos.kings, At(file, rank - 1), piece.value);
        pos.SetPiece(At(file, rank - 1), piece.value);
        file := file + 1;
      }
    }
    assert s[|s|..] == "";
    if rank != 1 || file != 8 {
      return Some(BadPiecePlacement(s));
    }
    return None;
  }

  lemma SplitStep(s: string, sep: char)
    requires s != ""
    ensures |Split(s, sep)| == |Split(s[1..], sep)| + if s[0] == sep then 1 else 0
    ensures |Split(s[1..], sep)| >= 1
  {}

  /** Each cached square holds its king whenever that king is on the board at all. */
  ghost predicate KingsFollow(board: Board, kings: seq<Square>) {
    && |kings| == 2
    && forall c: Color :: (exists s: Square :: Holds(board, s, c, King)) ==> Holds(board, kings[c.Index()], c, King)
  }

  lemma NoKingsYet(kings: seq<Square>)
    requires |kings| == 2
    ensures KingsFollow(EmptyBoard(), kings)
  {}

  lemma PlacedKing(board: Board, kings: seq<Square>, s: Square, p: Piece)
    requires KingsFollow(board, kings) && board[s].None?
    ensures KingsFollow(board[s := Some(p)], if p.kind.King? then kings[p.color.Index() := s] else kings)
  {
    var after := board[s := Some(p)];
    var kings' := if p.kind.King? then kings[p.color.Index() := s] else kings;
    assert p == Piece(p.color, p.kind);
    forall c: Color | exists q: Square :: Holds(after, q, c, King)
      ensures Holds(after, kings'[c.Index()], c, King)
    {
      var q: Square :| Holds(after, q, c, King);
      if !(p.kind.King? && p.color == c) {
        assert Holds(board, q, c, King);
      }
    }
  }

  /** `parse_castling`: each letter must be found among those not yet passed. */
  method ReadCastling(s: string) returns (r: Result<CastlingRights, FenError>)
    ensures r == ParseCastling(s)
  {
    hide FindLetter, Right;
    if s == "-" {
      return Ok(NO_RIGHTS);
    }
    if s == "" {
      return Err(BadCastlingRights(s));
    }
    var next := 0;
    var rights := NO_RIGHTS;
    for i := 0 to |s|
      invariant next <= 4
      invariant ScanCastling(s[i..], next, rights) == ScanCastling(s, 0, NO_RIGHTS)
    {
      assert s[i..][0] == s[i] && s[i..][1..] == s[i + 1..];
      var found := FindLetter(s[i], next);
      if found == 4 {
        return Err(BadCastlingRights(s));
      }
      rights := rights | Right(found);
      next := found + 1;
    }
    assert s[|s|..] == "";
    return Ok(rights);
  }

  // ---- Checks across fields ----

  lemma {:induction false} CountsPieces(b: bv64, board: Board, color: Color, kind: PieceKind, n: nat)
    requires n <= 64
    requires forall s: Square :: Contains(b, s) <==> Holds(board, s, color, kind)
    ensures MembersTo(b, n) == CountTo(board, color, kind, n)
  {
    hide Contains;
    if n > 0 { CountsPieces(b, board, color, kind, n - 1); }
  }

  method CheckKing(pos: Position, color: Color) returns (error: Option<FenError>)
    requires pos.Agree()
    ensures error == KingError(pos.mailbox, color)
  {
    pos.PiecesColoredAt(color, King);
    hide Contains, KindsAgree, ColorsAgree;
    var bits := pos.PiecesColored(color, King);
    CountsPieces(bits, pos.mailbox, color, King, 64);
    var count := Count(bits);
    return if count == 0 then Some(MissingKing(color)) else if count == 1 then None else Some(TooManyKings(color));
  }

  /** `validate_post_parse`. */
  method CheckFields(pos: Position) returns (error: Option<FenError>)
    requires pos.Agree()
    ensures error == Validate(pos.mailbox, pos.castling)
  {
    hide KingError, HasRight, KingAndRookHome, KindsAgree, ColorsAgree;
    error := CheckKing(pos, White);
    if error.Some? { return; }
    error := CheckKing(pos, Black);
    if error.Some? { return; }
    if HasRight(pos.castling, WHITE_KING) && !KingAndRookHome(pos.mailbox, White, E1, H1) {
      return Some(InconsistentCastlingRights(WHITE_KING));
    }
    if HasRight(pos.castling, WHITE_QUEEN) && !KingAndRookHome(pos.mailbox, White, E1, A1) {
      return Some(InconsistentCastlingRights(WHITE_QUEEN));
    }
    if HasRight(pos.castling, BLACK_KING) && !KingAndRookHome(pos.mailbox, Black, E8, H8) {
      return Some(InconsistentCastlingRights(BLACK_KING));
    }
    if HasRight(pos.castling, BLACK_QUEEN) && !KingAndRookHome(pos.mailbox, Black, E8, A8) {
      return Some(InconsistentCastlingRights(BLACK_QUEEN));
    }
    return None;
  }

  /** Once each side has one king, the cache holds its square. */
  lemma KingFound(board: Board, kings: seq<Square>, c: Color)
    requires KingsFollow(board, kings) && OneKing(board, c)
    ensures KingAt(board, c, kings[c.Index()])
  {
    var k: Square :| KingAt(board, c, k);
    assert Holds(board, k, c, King);
    assert Holds(board, kings[c.Index()], c, King);
  }

  /** Recomputes the three caches. */
  method Refresh(pos: Position)
    requires pos.Agree() && Sound(pos.Recorded())
    requires KingAt(pos.mailbox, White, pos.kings[0]) && KingAt(pos.mailbox, Black, pos.kings[1])
    modifies pos`hash, pos`pawnHash, pos`mg, pos`eg, pos`phase
    ensures pos.Valid()
  {
    hide ValidSnapshot, KindsAgree, ColorsAgree, KingAt, HashOf, XorAll, Sum, PhaseTable;
    pos.hash := HashFromScratch(pos);
    pos.pawnHash := PawnHashFromScratch(pos);
    pos.mg, pos.eg, pos.phase := EvalStateFromScratch(pos);
    ValidWhole(pos.tables, pos.Fields());
  }

  /** `fen::parse`: a valid position, or the first error. */
  method ReadFen(tables: Tables, s: string) returns (r: Result<Position, FenError>)
    ensures r.Ok? <==> Parse(s).Ok?
    ensures r.Err? ==> Parse(s) == Err(r.error)
    ensures r.Ok? ==> fresh(r.value) && r.value.tables == tables && r.value.Valid() && Parse(s) == Ok(r.value.Recorded())
  {
    hide Split, ParsePlacement, ParseSide, ParseCastling, ParseEp, ParseDecimal, Validate, SanitizeEp,
      Sound, KindsAgree, ColorsAgree, KingsFollow;
    var fields := Split(s, ' ');
    if |fields| != 6 {
      return Err(WrongFieldCount(|fields|));
    }
    var pos := new Position.Empty(tables);
    var error := ReadPlacement(pos, fields[0]);
    if error.Some? {
      return Err(error.value);
    }
    var side := ParseSide(fields[1]);
    if side.Err? { return Err(side.error); }
    var rights := ReadCastling(fields[2]);
    if rights.Err? { return Err(rights.error); }
    var ep := ParseEp(fields[3]);
    if ep.Err? { return Err(ep.error); }
    var halfmove := ReadDecimal(fields[4], 0xFF);
    if halfmove.None? { return Err(BadHalfmoveClock(fields[4])); }
    var fullmove := ReadDecimal(fields[5], 0xFFFF);
    if fullmove.None? || fullmove.value == 0 { return Err(BadFullmoveNumber(fields[5])); }
    DecimalFits(fields[4], 0xFF);
    DecimalFits(fields[5], 0xFFFF);
    var target := SanitizeEp(pos.mailbox, side.value, ep.value);
    pos.SetAuxState(side.value, rights.value, target, halfmove.value, fullmove.value);
    error := CheckFields(pos);
    if error.Some? {
      return Err(error.value);
    }
    assert Parse(s) == Ok(pos.Recorded());
    ParsedIsSound(s);
    SoundKings(pos.Recorded());
    KingFound(pos.mailbox, pos.kings, White);
    KingFound(pos.mailbox, pos.kings, Black);
    Refresh(pos);
    return Ok(pos);
  }

  lemma SoundKings(c: Core)
    requires Sound(c)
    ensures OneKing(c.board, White) && OneKing(c.board, Black)
  {}

  lemma DecimalFits(s: string, max: nat)
    ensures ParseDecimal(s, max).Some? ==> ParseDecimal(s, max).value <= max
  {}

  // ---- Printing ----

  /** One rank: runs of empty squares are counted and flushed before a piece and at the end. */
  method WriteRank(cells: seq<Cell>) returns (text: string)
    requires |cells| == 8
    ensures text == RowText(cells, 0)
  {
    hide PieceLetter;
    text := "";
    var run := 0;
    for file := 0 to 8
      invariant run <= file
      invariant text + RowText(cells[file..], run) == RowText(cells, 0)
    {
      ghost var rest := cells[file..];
      assert rest[0] == cells[file] && rest[1..] == cells[file + 1..];
      ghost var before := text;
      if cells[file].Some? {
        if run > 0 {
          text := text + RunText(run);
        }
        text := text + [PieceLetter(cells[file].value)];
        assert text + RowText(rest[1..], 0) == before + RowText(rest, run);
        run := 0;
      } else {
        run := run + 1;
      }
    }
    assert cells[8..] == [];
    if run > 0 {
      text := text + RunText(run);
    }
  }

  function RanksBelow(board: Board, rank: int): string
    requires -1 <= rank <= 7
  {
    if rank < 0 then "" else RanksText(board, rank)
  }

  lemma RanksStep(board: Board, rank: Coordinate)
    ensures RanksText(board, rank)
         == RowText(RankCells(board, rank), 0) + (if rank != 0 then ['/'] else []) + RanksBelow(board, rank - 1)
  {
    hide RowText;
  }

  lemma Concatenation(a: string, b: string, c: string)
    ensures a + (b + c) == (a + b) + c
  {}

  method WritePlacement(board: Board) returns (text: string)
    ensures text == PlacementText(board)
  {
    hide RowText, RanksText, RankCells;
    text := "";
    var rank := 7;
    while rank >= 0
      invariant -1 <= rank <= 7
      invariant text + RanksBelow(board, rank) == PlacementText(board)
    {
      var row := WriteRank(RankCells(board, rank));
      RanksStep(board, rank);
      var chunk := row + if rank != 0 then ['/'] else [];
      Concatenation(text, chunk, RanksBelow(board, rank - 1));
      text := text + chunk;
      rank := rank - 1;
    }
  }

  /** `fen::format`. */
  method WriteFen(pos: Position) returns (text: string)
    ensures text == Format(pos.Recorded())
  {
    hide PlacementText, Decimal, CastlingText, EpText, SideText;
    text := WritePlacement(pos.mailbox);
    text := text + " " + SideText(pos.side) + " " + CastlingText(pos.castling) + " " + EpText(pos.ep)
    + " " + Decimal(pos.halfmove) + " " + Decimal(pos.fullmove);
  }

  /** Printing a valid position and reading the text back gives an equal position, field by field. */
  method RoundTrip(pos: Position) returns (copy: Result<Position, FenError>)
    requires pos.Valid()
    ensures pos.fullmove != 0 ==> copy.Ok? && copy.value.Fields() == pos.Fields()
    ensures pos.fullmove == 0 ==> copy == Err(BadFullmoveNumber("0"))
  {
    hide ValidSnapshot, Sound, Parse, Format;
    ValidParts(pos.tables, pos.Fields());
    var text := WriteFen(pos);
    FormatParses(pos.Recorded());
    copy := ReadFen(pos.tables, text);
    if copy.Ok? {
      ValidDetermined(pos.tables, copy.value.Fields(), pos.Fields());
    }
  }
}
