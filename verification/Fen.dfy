/** FEN strings, section 16.1 of the Portable Game Notation Specification: parsing and printing. */
module Fen {
  import opened Wrappers
  import opened Chess
  import opened Rules
  import opened Text
  import opened Placement

  // ---- Active colour ----

  function SideText(side: Color): string {
    if side.White? then "w" else "b"
  }

  function ParseSide(s: string): Result<Color, FenError> {
    if s == "w" then Ok(White) else if s == "b" then Ok(Black) else Err(BadActiveColor(s))
  }

  // ---- Castling rights ----

  /** The letters in the order the standard prescribes. */
  function Letter(i: nat): char
    requires i < 4
  {
    "KQkq"[i]
  }

  function Right(i: nat): CastlingRights
    requires i < 4
  {
    if i == 0 then WHITE_KING else if i == 1 then WHITE_QUEEN else if i == 2 then BLACK_KING else BLACK_QUEEN
  }

  /** Position of `c` among the letters from the `i`-th on, or 4. */
  function FindLetter(c: char, i: nat): (j: nat)
    requires i <= 4
    ensures i <= j <= 4
    ensures j < 4 ==> Letter(j) == c
    decreases 4 - i
  {
    if i == 4 || Letter(i) == c then i else FindLetter(c, i + 1)
  }

  function ScanCastling(s: string, i: nat, rights: CastlingRights): Option<CastlingRights>
    requires i <= 4
  {
    if s == "" then Some(rights)
    else
      var j := FindLetter(s[0], i);
      if j == 4 then None else ScanCastling(s[1..], j + 1, rights | Right(j))
  }

  function ParseCastling(s: string): Result<CastlingRights, FenError> {
    if s == "-" then Ok(NO_RIGHTS)
    else if s == "" then Err(BadCastlingRights(s))
    else
      var r := ScanCastling(s, 0, NO_RIGHTS);
      if r.Some? then Ok(r.value) else Err(BadCastlingRights(s))
  }

  /** The letters of the rights held, from the `i`-th on. */
  function Letters(rights: CastlingRights, i: nat): string
    requires i <= 4
    decreases 4 - i
  {
    if i == 4 then ""
    else if HasRight(rights, Right(i)) then [Letter(i)] + Letters(rights, i + 1)
    else Letters(rights, i + 1)
  }

  function CastlingText(rights: CastlingRights): string {
    if rights == NO_RIGHTS then "-" else Letters(rights, 0)
  }

  /** The rights below the `i`-th. */
  function Below(rights: CastlingRights, i: nat): CastlingRights
    requires i <= 4
  {
    rights & (if i == 0 then 0 else if i == 1 then 1 else if i == 2 then 3 else if i == 3 then 7 else 15)
  }

  lemma {:induction false} LettersFrom(rights: CastlingRights, c: char, s: string, i: nat, j: nat)
    requires i <= 4 && j == FindLetter(c, i) < 4
    ensures [c] + s == Letters(rights, i) <==>
            && HasRight(rights, Right(j)) && s == Letters(rights, j + 1)
            && forall k :: i <= k < j ==> !HasRight(rights, Right(k))
    decreases j - i
  {
    hide HasRight;
    var t := [c] + s;
    assert t[0] == c && t[1..] == s;
    if i < j {
      LettersFrom(rights, c, s, i + 1, j);
    }
  }

  lemma {:induction false} NoSuchLetter(rights: CastlingRights, c: char, s: string, i: nat)
    requires i <= 4 && FindLetter(c, i) == 4
    ensures [c] + s != Letters(rights, i)
    decreases 4 - i
  {
    hide HasRight;
    assert ([c] + s)[0] == c;
    if i < 4 { NoSuchLetter(rights, c, s, i + 1); }
  }

  lemma BelowStep(rights: CastlingRights, acc: CastlingRights, i: nat, j: nat)
    requires i <= j < 4 && Below(acc, i) == acc
    ensures Below(acc | Right(j), j + 1) == acc | Right(j)
    ensures Below(rights, j + 1) == acc | Right(j) <==>
            Below(rights, i) == acc && HasRight(rights, Right(j)) && forall k :: i <= k < j ==> !HasRight(rights, Right(k))
  {
    assert j == 0 || j == 1 || j == 2 || j == 3;
    assert i == 0 || i == 1 || i == 2 || i == 3;
    var gap := forall k :: i <= k < j ==> !HasRight(rights, Right(k));
    assert gap <==> (
                      && (i <= 0 < j ==> !HasRight(rights, Right(0)))
                      && (i <= 1 < j ==> !HasRight(rights, Right(1)))
                      && (i <= 2 < j ==> !HasRight(rights, Right(2))));
  }

  lemma {:induction false} ScanReads(s: string, i: nat, acc: CastlingRights, rights: CastlingRights)
    requires i <= 4 && Below(acc, i) == acc
    ensures ScanCastling(s, i, acc) == Some(rights) <==> s == Letters(rights, i) && Below(rights, i) == acc
    decreases |s|
  {
    hide Letters, Right, Below, FindLetter, HasRight;
    if s == "" {
      NoLetters(rights, i);
    } else {
      var j := FindLetter(s[0], i);
      assert s == [s[0]] + s[1..];
      if j == 4 {
        NoSuchLetter(rights, s[0], s[1..], i);
      } else {
        BelowStep(rights, acc, i, j);
        LettersFrom(rights, s[0], s[1..], i, j);
        ScanReads(s[1..], j + 1, acc | Right(j), rights);
      }
    }
  }

  lemma NoLetters(rights: CastlingRights, i: nat)
    requires i <= 4
    ensures Letters(rights, i) == "" <==> Below(rights, i) == rights
  {
    assert Letters(rights, 4) == "";
    assert i < 4 ==> (Letters(rights, 3) == "" <==> !HasRight(rights, Right(3)));
    assert i < 3 ==> (Letters(rights, 2) == "" <==> !HasRight(rights, Right(2)) && !HasRight(rights, Right(3)));
    assert i < 2 ==> (Letters(rights, 1) == "" <==> !HasRight(rights, Right(1)) && Letters(rights, 2) == "");
    assert i < 1 ==> (Letters(rights, 0) == "" <==> !HasRight(rights, Right(0)) && Letters(rights, 1) == "");
  }

  /** Each set of rights has exactly one text: other orders, repeats and strays are rejected. */
  lemma CastlingExact(s: string, rights: CastlingRights)
    ensures ParseCastling(s) == Ok(rights) <==> s == CastlingText(rights)
  {
    ScanReads(s, 0, NO_RIGHTS, rights);
    NoLetters(rights, 0);
    NoDash(rights, 0);
    assert '-' in "-" by { assert "-"[0] == '-'; }
  }

  lemma {:induction false} NoDash(rights: CastlingRights, i: nat)
    requires i <= 4
    ensures '-' !in Letters(rights, i) && ' ' !in Letters(rights, i)
    decreases 4 - i
  {
    hide HasRight;
    if i < 4 { NoDash(rights, i + 1); }
  }

  // ---- En passant target ----

  function ParseEp(s: string): Result<Option<Square>, FenError> {
    if s == "-" then Ok(None)
    else
      var square := ParseSquare(s);
      if square.None? then Err(BadEnPassant(s))
      else if Rank(square.value) != 2 && Rank(square.value) != 5 then Err(BadEnPassant(s))
      else Ok(square)
  }

  function EpText(ep: Option<Square>): string {
    if ep.None? then "-" else SquareName(ep.value)
  }

  lemma EpReads(ep: Option<Square>)
    requires ep.Some? ==> Rank(ep.value) == 2 || Rank(ep.value) == 5
    ensures ParseEp(EpText(ep)) == Ok(ep)
  {
    if ep.Some? { SquareNames(SquareName(ep.value), ep.value); }
  }

  // ---- Checks across fields ----

  function CountTo(board: Board, color: Color, kind: PieceKind, n: nat): nat
    requires n <= 64
  {
    if n == 0 then 0 else CountTo(board, color, kind, n - 1) + if Holds(board, n - 1, color, kind) then 1 else 0
  }

  function KingError(board: Board, color: Color): Option<FenError> {
    var count := CountTo(board, color, King, 64);
    if count == 0 then Some(MissingKing(color))
    else if count > 1 then Some(TooManyKings(color))
    else None
  }

  function RightError(board: Board, rights: CastlingRights, right: CastlingRights, color: Color, king: Square, rook: Square)
    : Option<FenError>
  {
    if HasRight(rights, right) && !KingAndRookHome(board, color, king, rook)
    then Some(InconsistentCastlingRights(right))
    else None
  }

  function FirstError(a: Option<FenError>, b: Option<FenError>): Option<FenError> {
    if a.Some? then a else b
  }

  function Validate(board: Board, rights: CastlingRights): Option<FenError> {
    FirstError(KingError(board, White),
               FirstError(KingError(board, Black),
                          FirstError(RightError(board, rights, WHITE_KING, White, E1, H1),
                                     FirstError(RightError(board, rights, WHITE_QUEEN, White, E1, A1),
                                                FirstError(RightError(board, rights, BLACK_KING, Black, E8, H8),
                                                           RightError(board, rights, BLACK_QUEEN, Black, E8, A8))))))
  }

  lemma {:induction false} CountNone(board: Board, color: Color, kind: PieceKind, n: nat)
    requires n <= 64
    ensures CountTo(board, color, kind, n) == 0 <==> forall s: Square :: s < n ==> !Holds(board, s, color, kind)
  {
    if n > 0 { CountNone(board, color, kind, n - 1); }
  }

  ghost predicate OnlyAt(board: Board, color: Color, kind: PieceKind, n: nat, k: Square) {
    k < n && forall s: Square :: s < n ==> (Holds(board, s, color, kind) <==> s == k)
  }

  lemma {:induction false} CountOne(board: Board, color: Color, kind: PieceKind, n: nat)
    requires n <= 64
    ensures CountTo(board, color, kind, n) == 1 <==> exists k: Square :: OnlyAt(board, color, kind, n, k)
  {
    if n > 0 {
      CountOne(board, color, kind, n - 1);
      CountNone(board, color, kind, n - 1);
      if CountTo(board, color, kind, n) == 1 {
        if Holds(board, n - 1, color, kind) {
          assert OnlyAt(board, color, kind, n, n - 1);
        } else {
          var k: Square :| OnlyAt(board, color, kind, n - 1, k);
          assert OnlyAt(board, color, kind, n, k);
        }
      }
      if k: Square :| OnlyAt(board, color, kind, n, k) {
        assert k < n - 1 ==> OnlyAt(board, color, kind, n - 1, k);
        assert Holds(board, n - 1, color, kind) <==> k == n - 1;
      }
    }
  }

  lemma KingsCounted(board: Board, color: Color)
    ensures KingError(board, color).None? <==> OneKing(board, color)
  {
    CountOne(board, color, King, 64);
    assert forall k: Square :: OnlyAt(board, color, King, 64, k) <==> KingAt(board, color, k);
    hide CountTo, OnlyAt, KingAt;
  }

  lemma Validated(board: Board, rights: CastlingRights)
    ensures Validate(board, rights).None? <==>
            OneKing(board, White) && OneKing(board, Black) && CastlingConsistent(board, rights)
  {
    KingsCounted(board, White);
    KingsCounted(board, Black);
    hide KingError, OneKing, HasRight, KingAndRookHome;
  }

  // ---- The whole string ----

  /** `fen::parse`, checks in order. */
  function Parse(s: string): Result<Core, FenError> {
    var fields := Split(s, ' ');
    if |fields| != 6 then Err(WrongFieldCount(|fields|))
    else
      var board :- ParsePlacement(fields[0]);
      var side :- ParseSide(fields[1]);
      var rights :- ParseCastling(fields[2]);
      var ep :- ParseEp(fields[3]);
      var halfmove := ParseDecimal(fields[4], 0xFF);
      if halfmove.None? then Err(BadHalfmoveClock(fields[4]))
      else
        var fullmove := ParseDecimal(fields[5], 0xFFFF);
        if fullmove.None? || fullmove.value == 0 then Err(BadFullmoveNumber(fields[5]))
        else
          var error := Validate(board, rights);
          if error.Some? then Err(error.value)
          else Ok(Core(board, side, rights, SanitizeEp(board, side, ep), halfmove.value, fullmove.value))
  }

  /** `fen::format`. */
  function Format(c: Core): string {
    PlacementText(c.board) + " " + SideText(c.side) + " " + CastlingText(c.castling) + " " + EpText(c.ep)
    + " " + Decimal(c.halfmove) + " " + Decimal(c.fullmove)
  }

  lemma SanitizeTwice(board: Board, side: Color, ep: Option<Square>)
    ensures SanitizeEp(board, side, SanitizeEp(board, side, ep)) == SanitizeEp(board, side, ep)
  {}

  /** Whatever the parser accepts is a sound position with a positive move number. */
  lemma ParsedIsSound(s: string)
    requires Parse(s).Ok?
    ensures Sound(Parse(s).value) && Parse(s).value.fullmove != 0
  {
    hide Split, ParsePlacement, PlacementBoard, IsPlacement, ParseCastling, ParseDecimal, Validate, OneKing,
      CastlingConsistent, NoBackRankPawns, SanitizeEp;
    var fields := Split(s, ' ');
    var c := Parse(s).value;
    PlacementAccepted(fields[0]);
    AcceptedPawns(fields[0]);
    Validated(c.board, c.castling);
    SanitizeTwice(c.board, c.side, ParseEp(fields[3]).value);
  }

  lemma NoSpaces(c: Core)
    ensures ' ' !in PlacementText(c.board) && ' ' !in SideText(c.side) && ' ' !in CastlingText(c.castling)
    ensures ' ' !in EpText(c.ep) && ' ' !in Decimal(c.halfmove) && ' ' !in Decimal(c.fullmove)
  {
    RanksSplit(c.board, 7);
    NoDash(c.castling, 0);
    DecimalValue(c.halfmove);
    DecimalValue(c.fullmove);
    hide Split, RanksText, Letters, Decimal;
  }

  lemma FormatSplits(c: Core)
    ensures Split(Format(c), ' ') == [PlacementText(c.board), SideText(c.side), CastlingText(c.castling), EpText(c.ep),
                                      Decimal(c.halfmove), Decimal(c.fullmove)]
  {
    NoSpaces(c);
    hide PlacementText, SideText, CastlingText, EpText, Decimal, Split;
    var f5 := Decimal(c.fullmove);
    var f4 := Decimal(c.halfmove) + [' '] + f5;
    var f3 := EpText(c.ep) + [' '] + f4;
    var f2 := CastlingText(c.castling) + [' '] + f3;
    var f1 := SideText(c.side) + [' '] + f2;
    var f0 := PlacementText(c.board) + [' '] + f1;
    assert Format(c) == f0;
    SplitJoined(PlacementText(c.board), f1, ' ');
    SplitJoined(SideText(c.side), f2, ' ');
    SplitJoined(CastlingText(c.castling), f3, ' ');
    SplitJoined(EpText(c.ep), f4, ' ');
    SplitJoined(Decimal(c.halfmove), f5, ' ');
    SplitWhole(f5, ' ');
  }

  /** The parser's verdict on a printed text: the counter is looked at first, then kings and rights. */
  lemma PrintedReads(c: Core)
    requires NoBackRankPawns(c.board) && (c.ep.Some? ==> Rank(c.ep.value) == 2 || Rank(c.ep.value) == 5)
    ensures Parse(Format(c)) ==
            if c.fullmove == 0 then Err(BadFullmoveNumber("0"))
            else if Validate(c.board, c.castling).Some? then Err(Validate(c.board, c.castling).value)
            else Ok(c.(ep := SanitizeEp(c.board, c.side, c.ep)))
  {
    hide Split, Format, ParsePlacement, PlacementText, IsPlacement, PlacementBoard, ParseCastling, CastlingText, ParseEp,
      EpText, Decimal, Validate, Value, NoBackRankPawns, AllDigits, SanitizeEp;
    FormatSplits(c);
    PrintedDenotes(c.board);
    PlacementAccepted(PlacementText(c.board));
    CastlingExact(CastlingText(c.castling), c.castling);
    EpReads(c.ep);
    DecimalValue(c.halfmove);
    DecimalValue(c.fullmove);
    DecimalZero();
  }

  /** Printing a sound position and parsing the text gives the position back, unless its counter is 0. */
  lemma FormatParses(c: Core)
    requires Sound(c)
    ensures c.fullmove != 0 ==> Parse(Format(c)) == Ok(c)
    ensures c.fullmove == 0 ==> Parse(Format(c)) == Err(BadFullmoveNumber("0"))
  {
    SanitizedRank(c);
    PrintedReads(c);
    Validated(c.board, c.castling);
    hide Parse, Format, OneKing, CastlingConsistent, NoBackRankPawns, SanitizeEp, Validate;
  }

  /** A position is recorded faithfully by its text exactly when it is sound and its counter is not 0. */
  lemma RecordedExactly(c: Core)
    ensures Parse(Format(c)) == Ok(c) <==> Sound(c) && c.fullmove != 0
  {
    hide Parse, Format, Sound;
    if Parse(Format(c)) == Ok(c) {
      ParsedIsSound(Format(c));
    }
    if Sound(c) && c.fullmove != 0 {
      FormatParses(c);
    }
  }

  /** A king's absence is reported by name, White's first. */
  lemma KingMissed(board: Board, rights: CastlingRights, color: Color)
    requires forall s: Square :: !Holds(board, s, color, King)
    requires color.White? || OneKing(board, White)
    ensures Validate(board, rights) == Some(MissingKing(color))
  {
    CountNone(board, color, King, 64);
    KingsCounted(board, White);
    hide HasRight, KingAndRookHome, CountTo, OneKing;
  }

  lemma DecimalZero()
    ensures Decimal(0) == "0"
  {}

  lemma SanitizedRank(c: Core)
    requires Sound(c)
    ensures c.ep.Some? ==> Rank(c.ep.value) == 2 || Rank(c.ep.value) == 5
  {}

  /** Parsing is idempotent through printing, also for texts that are not in printed form. */
  lemma ParseNormalizes(s: string)
    requires Parse(s).Ok?
    ensures Parse(Format(Parse(s).value)) == Parse(s)
  {
    ParsedIsSound(s);
    FormatParses(Parse(s).value);
    hide Parse, Format, Sound;
  }
}
