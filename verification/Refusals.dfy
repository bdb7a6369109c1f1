/**
 Which error a refused text is given. Of a position: the first field that cannot be read, then the kings, then
 the rights. Of a move: the squares, then the promotion letter, then the position.
*/
module Refusals {
  import opened Wrappers
  import opened Chess
  import opened Rules
  import opened Text
  import opened Placement
  import opened Fen
  import opened Moves

  predicate BadSide(t: string) {
    t != "w" && t != "b"
  }

  /** Not one of the sixteen texts. */
  ghost predicate BadRights(t: string) {
    forall rights: CastlingRights :: t != CastlingText(rights)
  }

  /** Neither the dash nor a square of the third or sixth rank. */
  ghost predicate BadTarget(t: string) {
    t != "-" && forall s: Square :: Rank(s) == 2 || Rank(s) == 5 ==> t != SquareName(s)
  }

  predicate BadNumber(t: string, least: nat, most: nat) {
    t == "" || !AllDigits(t) || !(least <= Value(t) <= most)
  }

  lemma {:induction false} FieldCount(s: string, sep: char)
    ensures |Split(s, sep)| == multiset(s)[sep] + 1
  {
    if s != "" {
      FieldCount(s[1..], sep);
      assert s == [s[0]] + s[1..];
    }
  }

  lemma SideRefused(t: string)
    ensures ParseSide(t) == if BadSide(t) then Err(BadActiveColor(t)) else Ok(if t == "w" then White else Black)
  {}

  lemma RightsRefused(t: string)
    ensures BadRights(t) ==> ParseCastling(t) == Err(BadCastlingRights(t))
    ensures !BadRights(t) ==> ParseCastling(t).Ok? && t == CastlingText(ParseCastling(t).value)
  {
    assert ParseCastling(t).Ok? || ParseCastling(t) == Err(BadCastlingRights(t));
    forall rights: CastlingRights
      ensures ParseCastling(t) == Ok(rights) <==> t == CastlingText(rights)
    {
      CastlingExact(t, rights);
    }
    hide ParseCastling, CastlingText;
    if ParseCastling(t).Ok? {
      assert t == CastlingText(ParseCastling(t).value);
    }
  }

  lemma TargetRefused(t: string)
    ensures BadTarget(t) ==> ParseEp(t) == Err(BadEnPassant(t))
    ensures !BadTarget(t) ==> ParseEp(t).Ok? && t == EpText(ParseEp(t).value)
  {
    forall s: Square
      ensures ParseSquare(t) == Some(s) <==> t == SquareName(s)
    {
      SquareNames(t, s);
    }
    hide ParseSquare, SquareName;
    if ParseSquare(t).Some? {
      assert t == SquareName(ParseSquare(t).value);
    }
  }

  lemma NumberRefused(t: string, most: nat)
    ensures BadNumber(t, 0, most) <==> ParseDecimal(t, most).None?
    ensures BadNumber(t, 1, most) <==> ParseDecimal(t, most).None? || ParseDecimal(t, most).value == 0
  {}

  lemma {:induction false} ScanRefused(s: string, rank: RankNumber, file: FileCursor, board: Board, whole: string)
    ensures var r := Scan(s, rank, file, board, whole);
            r.Err? ==>
              || r.error == BadPiecePlacement(whole)
              || (r.error.PawnOnBackRank? && (Rank(r.error.square) == 0 || Rank(r.error.square) == 7) && ('P' in s || 'p' in s))
    decreases |s|
  {
    if s != "" {
      assert s[0] in s && forall c :: c in s[1..] ==> c in s;
      if s[0] == '/' {
        if file == 8 && rank != 1 { ScanRefused(s[1..], rank - 1, 0, board, whole); }
      } else if IsRunDigit(s[0]) {
        var next := file + DigitValue(s[0]);
        if next <= 8 { ScanRefused(s[1..], rank, next, board, whole); }
      } else if PieceOfLetter(s[0]).Some? && file < 8 {
        var piece := PieceOfLetter(s[0]).value;
        if !(piece.kind.Pawn? && (rank == 1 || rank == 8)) {
          ScanRefused(s[1..], rank, file + 1, board[At(file, rank - 1) := Some(piece)], whole);
        }
      }
    }
  }

  /** A placement that is refused for a pawn has a pawn, and the square named is on a back rank. */
  lemma PlacementRefused(s: string)
    ensures ParsePlacement(s).Ok? <==> IsPlacement(s)
    ensures var r := ParsePlacement(s);
            r.Err? ==>
              || r.error == BadPiecePlacement(s)
              || (r.error.PawnOnBackRank? && (Rank(r.error.square) == 0 || Rank(r.error.square) == 7) && ('P' in s || 'p' in s))
  {
    PlacementAccepted(s);
    if |Split(s, '/')| == 8 { ScanRefused(s, 8, 0, EmptyBoard(), s); }
    hide Scan, IsPlacement, Split;
  }

  /** Texts of other than six fields, and those with a field that cannot be read, by the first such field. */
  lemma FieldRefused(s: string)
    ensures multiset(s)[' '] != 5 ==> Parse(s) == Err(WrongFieldCount(multiset(s)[' '] + 1))
    ensures multiset(s)[' '] == 5 ==>
              var f := Split(s, ' ');
              && |f| == 6
              && (!IsPlacement(f[0]) ==> ParsePlacement(f[0]).Err? && Parse(s) == Err(ParsePlacement(f[0]).error))
              && (IsPlacement(f[0]) ==>
                    if BadSide(f[1]) then Parse(s) == Err(BadActiveColor(f[1]))
                    else if BadRights(f[2]) then Parse(s) == Err(BadCastlingRights(f[2]))
                    else if BadTarget(f[3]) then Parse(s) == Err(BadEnPassant(f[3]))
                    else if BadNumber(f[4], 0, 255) then Parse(s) == Err(BadHalfmoveClock(f[4]))
                    else if BadNumber(f[5], 1, 65535) then Parse(s) == Err(BadFullmoveNumber(f[5]))
                    else
                      && ParseCastling(f[2]).Ok?
                      && var error := Validate(PlacementBoard(f[0]), ParseCastling(f[2]).value);
                      if error.Some? then Parse(s) == Err(error.value) else Parse(s).Ok?)
  {
    FieldCount(s, ' ');
    var f := Split(s, ' ');
    if |f| == 6 {
      PlacementAccepted(f[0]);
      SideRefused(f[1]);
      RightsRefused(f[2]);
      TargetRefused(f[3]);
      NumberRefused(f[4], 255);
      NumberRefused(f[5], 65535);
    }
    hide Split, ParsePlacement, IsPlacement, PlacementBoard, BadSide, ParseSide, BadRights, ParseCastling, BadTarget,
      ParseEp, BadNumber, ParseDecimal, Validate, SanitizeEp;
  }

  lemma {:induction false} TwoCounted(board: Board, color: Color, kind: PieceKind, n: nat)
    requires n <= 64
    ensures CountTo(board, color, kind, n) > 1 <==>
            exists s: Square, t: Square :: s < t < n && Holds(board, s, color, kind) && Holds(board, t, color, kind)
  {
    if n > 0 {
      TwoCounted(board, color, kind, n - 1);
      CountNone(board, color, kind, n - 1);
    }
  }

  /** What is wrong with a side's kings. */
  lemma KingsRefused(board: Board, color: Color)
    ensures KingError(board, color) == Some(MissingKing(color)) <==> forall s: Square :: !Holds(board, s, color, King)
    ensures KingError(board, color) == Some(TooManyKings(color)) <==>
            exists s: Square, t: Square :: s < t && Holds(board, s, color, King) && Holds(board, t, color, King)
    ensures KingError(board, color).None? <==> OneKing(board, color)
  {
    CountNone(board, color, King, 64);
    TwoCounted(board, color, King, 64);
    KingsCounted(board, color);
    hide CountTo, Holds, OneKing;
  }

  /** White's kings are complained of first, then Black's, then the first right without its king and rook. */
  lemma CheckRefused(board: Board, rights: CastlingRights)
    ensures var bare := (right: CastlingRights) =>
                          HasRight(rights, right) && !match right
                                                      case 1 => KingAndRookHome(board, White, E1, H1)
                                                      case 2 => KingAndRookHome(board, White, E1, A1)
                                                      case 4 => KingAndRookHome(board, Black, E8, H8)
                                                      case _ => KingAndRookHome(board, Black, E8, A8);
            Validate(board, rights) ==
            if !OneKing(board, White) then KingError(board, White)
            else if !OneKing(board, Black) then KingError(board, Black)
            else if bare(1) then Some(InconsistentCastlingRights(1))
            else if bare(2) then Some(InconsistentCastlingRights(2))
            else if bare(4) then Some(InconsistentCastlingRights(4))
            else if bare(8) then Some(InconsistentCastlingRights(8))
            else None
  {
    KingsCounted(board, White);
    KingsCounted(board, Black);
    hide KingError, OneKing, HasRight, KingAndRookHome;
  }

  // ---- Move texts ----

  /** Two squares and at most one more character. */
  ghost predicate InShape(t: string) {
    && (|t| == 4 || |t| == 5)
    && (exists from: Square :: t[0..2] == SquareName(from))
    && (exists to: Square :: t[2..4] == SquareName(to))
  }

  lemma ShapeRefused(t: string)
    requires |t| == 4 || |t| == 5
    ensures InShape(t) <==> ParseSquare(t[0..2]).Some? && ParseSquare(t[2..4]).Some?
  {
    forall s: Square
      ensures ParseSquare(t[0..2]) == Some(s) <==> t[0..2] == SquareName(s)
      ensures ParseSquare(t[2..4]) == Some(s) <==> t[2..4] == SquareName(s)
    {
      SquareNames(t[0..2], s);
      SquareNames(t[2..4], s);
    }
    hide ParseSquare, SquareName;
    if ParseSquare(t[0..2]).Some? && ParseSquare(t[2..4]).Some? {
      assert t[0..2] == SquareName(ParseSquare(t[0..2]).value);
      assert t[2..4] == SquareName(ParseSquare(t[2..4]).value);
    }
  }

  lemma {:induction false} ListedIsFound(moves: seq<Move>, mv: Move)
    requires mv in moves
    ensures FindMove(moves, mv.from, mv.to, mv.flag.Promotion()).Some?
  {
    if mv != moves[0] {
      assert mv in moves[1..];
      ListedIsFound(moves[1..], mv);
    }
  }

  lemma ListedIsRead(t: string, moves: seq<Move>, mv: Move)
    requires mv in moves && ToUci(mv) == t
    ensures FromUci(t, moves).Ok?
  {
    UciShape(mv);
    SquareNames(t[0..2], mv.from);
    SquareNames(t[2..4], mv.to);
    ListedIsFound(moves, mv);
    hide ToUci, ParseSquare, SquareName, PromotionOf, IsAscii, FindMove;
  }

  lemma ReadIsListed(t: string, moves: seq<Move>)
    requires FromUci(t, moves).Ok?
    ensures FromUci(t, moves).value in moves && ToUci(FromUci(t, moves).value) == t
  {
    var promotion := if |t| == 5 then PromotionOf(t[4]) else None;
    FoundMatches(moves, ParseSquare(t[0..2]).value, ParseSquare(t[2..4]).value, promotion);
    UciOfMatch(t, FromUci(t, moves).value);
    hide ToUci, ParseSquare, SquareName, PromotionOf, IsAscii, FindMove;
  }

  /** A move text is read exactly if a listed move prints so; else what is wrong with it, squares before promotion letter. */
  lemma MoveRefused(t: string, moves: seq<Move>)
    ensures FromUci(t, moves).Ok? <==> exists mv :: mv in moves && ToUci(mv) == t
    ensures FromUci(t, moves) == Err(NullMove) <==> t == "0000"
    ensures FromUci(t, moves) == Err(Malformed) <==> t != "0000" && !(InShape(t) && IsAscii(t))
    ensures FromUci(t, moves) == Err(IllegalPromotionPiece) <==> InShape(t) && IsAscii(t) && |t| == 5 && t[4] !in "nbrq"
  {
    if |t| == 4 || |t| == 5 { ShapeRefused(t); }
    assert !InShape("0000") by {
      ShapeRefused("0000");
    }
    if mv :| mv in moves && ToUci(mv) == t { ListedIsRead(t, moves, mv); }
    if FromUci(t, moves).Ok? { ReadIsListed(t, moves); }
    assert forall c: char :: PromotionOf(c).Some? <==> c in "nbrq";
    hide ToUci, ParseSquare, SquareName, PromotionOf, IsAscii, FindMove, InShape;
  }
}
