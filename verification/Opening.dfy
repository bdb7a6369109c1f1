/** The first move of the game: exactly the twenty that everybody knows. */
module Opening {
  import opened Wrappers
  import opened Chess
  import opened Legality
  import opened Generation
  import opened Perft
  import opened Book
  import opened Lapses
  import opened Divide

  /** A pawn goes one or two ranks ahead, or a knight goes to the third rank. */
  predicate OpeningMove(mv: Move) {
    || (8 <= mv.from < 16 && mv.to == mv.from + 8 && mv.flag == Quiet)
    || (8 <= mv.from < 16 && mv.to == mv.from + 16 && mv.flag == DoublePush)
    || (mv.from == 1 && (mv.to == 16 || mv.to == 18) && mv.flag == Quiet)
    || (mv.from == 6 && (mv.to == 21 || mv.to == 23) && mv.flag == Quiet)
  }

  lemma StartCells(s: Square)
    ensures var board := StartPosition().board;
            && board[s] == StartCell(s)
            && (board[s].Some? <==> Rank(s) <= 1 || Rank(s) >= 6)
            && (board[s].Some? && board[s].value.color == White <==> Rank(s) <= 1)
            && (Rank(s) == 1 ==> board[s] == Some(Piece(White, Pawn)))
            && (Rank(s) == 0 ==> board[s] == Some(Piece(White, HomeKind(File(s)))))
            && (Rank(s) >= 6 ==> board[s].value.kind.King? ==> s == E8)
            && (Rank(s) >= 6 && File(s) == 4 ==> board[s].value.kind.Pawn? || board[s].value.kind.King?)
            && (Holds(board, s, White, King) <==> s == E1)
  {}

  /** Nothing moves along a line from the first rank. */
  lemma Blocked(a: Square, t: Square)
    requires Rank(a) == 0 && Rank(t) >= 2 && (Straight(a, t) || Diagonal(a, t))
    ensures !Open(StartPosition().board, a, t)
  {
    var f: int := if File(t) < File(a) then File(a) - 1 else if File(t) > File(a) then File(a) + 1 else File(a);
    var u: Square := 8 + f;
    StartCells(u);
    assert File(u) == f && Rank(u) == 1;
    hide File, Rank, StartPosition;
    assert Between(a, t, u);
  }

  lemma StartGoes(mv: Move)
    ensures Goes(StartPosition(), mv) <==> OpeningMove(mv)
  {
    var c := StartPosition();
    StartCells(mv.from);
    StartCells(mv.to);
    assert c.ep == None && c.side == White;
    if Rank(mv.from) == 1 {
      StartPawns(c, mv);
    } else if Rank(mv.from) == 0 {
      StartPieces(c, mv);
    } else {
      assert !OpeningMove(mv);
    }
  }

  lemma StartPawns(c: Core, mv: Move)
    requires c == StartPosition() && Rank(mv.from) == 1
    ensures Goes(c, mv) <==> OpeningMove(mv)
  {
    StartCells(mv.from);
    StartCells(mv.to);
    assert c.ep == None && c.side == White;
    if Rank(mv.to) == 3 && FilesApart(mv.from, mv.to) == 0 { OpenAhead(mv.from, mv.to); }
    hide StartPosition, Open, KingCastles, Strikes;
  }

  lemma OpenAhead(a: Square, t: Square)
    requires Rank(a) == 1 && Rank(t) == 3
    ensures Open(StartPosition().board, a, t)
  {
    forall u: Square | Between(a, t, u)
      ensures StartPosition().board[u].None?
    {
      StartCells(u);
      assert Rank(u) == 2;
    }
  }

  lemma StartPieces(c: Core, mv: Move)
    requires c == StartPosition() && Rank(mv.from) == 0
    ensures Goes(c, mv) <==> OpeningMove(mv)
  {
    StartCells(mv.from);
    StartCells(mv.to);
    assert c.side == White;
    var kind := HomeKind(File(mv.from));
    if Rank(mv.to) >= 2 {
      if Straight(mv.from, mv.to) || Diagonal(mv.from, mv.to) { Blocked(mv.from, mv.to); }
      if kind.Knight? { KnightTargets(mv.from, mv.to); }
    }
    hide StartPosition, Open, Straight, Diagonal, Struck, PawnGoes;
  }

  lemma KnightTargets(a: Square, t: Square)
    requires Rank(a) == 0 && Rank(t) >= 2 && (File(a) == 1 || File(a) == 6)
    ensures FilesApart(a, t) * RanksApart(a, t) == 2 <==>
            (a == 1 && (t == 16 || t == 18)) || (a == 6 && (t == 21 || t == 23))
  {
    var (f, r) := (FilesApart(a, t), RanksApart(a, t));
    assert r >= 2;
    if f >= 2 { assert f * r >= 4; }
    assert f == 1 ==> f * r == r;
    assert f == 0 ==> f * r == 0;
  }

  /** Black's men strike nowhere near White's king. */
  lemma FarAway(board: Board, a: Square)
    requires Rank(a) >= 6 && board[a].Some? && (board[a].value.kind.King? ==> a == E8)
    requires File(a) == 4 ==> board[a].value.kind.Pawn? || board[a].value.kind.King?
    ensures !Strikes(board, a, E1)
  {
    var (f, r) := (FilesApart(a, E1), RanksApart(a, E1));
    assert r >= 6 && f <= 4;
    if f > 0 { assert f * r >= r; }
  }

  lemma StaysUnstruck(mv: Move)
    requires OpeningMove(mv)
    ensures StartPosition().board[mv.from].Some? && KingUnstruck(Played(StartPosition(), mv), White)
  {
    var c := StartPosition();
    StartCells(mv.from);
    StartCells(mv.to);
    assert Becomes(mv.flag).None? && 2 <= Rank(mv.to) <= 3 && Rank(mv.from) <= 1 && mv.from != E1;
    var after := Played(c, mv);
    forall s: Square
      ensures s != mv.from && s != mv.to ==> after[s] == c.board[s]
    {
      OnlyTwoCells(c, mv, s);
    }
    hide StartPosition, Played, Strikes, Rank, File;
    forall s: Square | Holds(after, s, White, King)
      ensures !Struck(after, Black, s)
    {
      StartCells(s);
      forall a: Square | after[a].Some? && after[a].value.color == Black
        ensures !Strikes(after, a, s)
      {
        StartCells(a);
        FarAway(after, a);
      }
    }
  }

  lemma OnlyTwoCells(c: Core, mv: Move, s: Square)
    requires c == StartPosition() && OpeningMove(mv)
    ensures c.board[mv.from].Some?
    ensures s != mv.from && s != mv.to ==> Played(c, mv)[s] == c.board[s]
  {
    StartCells(mv.from);
  }

  /** In the starting position White has its sixteen pawn moves and four knight moves, and no others. */
  lemma OpeningMoves()
    ensures forall mv :: mv in Gen(StartPosition()) <==> OpeningMove(mv)
  {
    StartIsFair();
    GenIsByTheBook(StartPosition());
    forall mv
      ensures Allowed(StartPosition(), mv) <==> OpeningMove(mv)
    {
      StartGoes(mv);
      if OpeningMove(mv) { StaysUnstruck(mv); }
      hide Goes, StartPosition, KingUnstruck, Played;
    }
    hide Gen, Allowed, StartPosition, Fair;
  }

  // ---- How many they are ----

  /** The twenty moves, written out. */
  const TWENTY: seq<Move> := [
    Move(8, 16, Quiet), Move(9, 17, Quiet), Move(10, 18, Quiet), Move(11, 19, Quiet),
    Move(12, 20, Quiet), Move(13, 21, Quiet), Move(14, 22, Quiet), Move(15, 23, Quiet),
    Move(8, 24, DoublePush), Move(9, 25, DoublePush), Move(10, 26, DoublePush), Move(11, 27, DoublePush),
    Move(12, 28, DoublePush), Move(13, 29, DoublePush), Move(14, 30, DoublePush), Move(15, 31, DoublePush),
    Move(1, 16, Quiet), Move(1, 18, Quiet), Move(6, 21, Quiet), Move(6, 23, Quiet)]

  lemma TwentyHas(mv: Move)
    ensures mv in TWENTY <==> OpeningMove(mv)
  {
    if mv.flag == Quiet && 8 <= mv.from < 16 && mv.to == mv.from + 8 { assert TWENTY[mv.from - 8] == mv; }
    if mv.flag == DoublePush && 8 <= mv.from < 16 && mv.to == mv.from + 16 { assert TWENTY[mv.from] == mv; }
    if mv.flag == Quiet && mv.from == 1 && (mv.to == 16 || mv.to == 18) { assert TWENTY[8 + mv.to / 2] == mv; }
    if mv.flag == Quiet && mv.from == 6 && (mv.to == 21 || mv.to == 23) { assert TWENTY[mv.to / 2 + 8] == mv; }
  }

  lemma SameMembers(a: seq<Move>, b: seq<Move>)
    requires Distinct(a) && Distinct(b) && forall mv :: mv in a <==> mv in b
    ensures |a| == |b|
  {
    DistinctOnce(a);
    DistinctOnce(b);
    hide Distinct;
    forall mv
      ensures multiset(a)[mv] == multiset(b)[mv]
    {
      assert mv in a <==> mv in multiset(a);
      assert mv in b <==> mv in multiset(b);
    }
    SameLength(a, b);
  }

  /** One ply from the starting position there are twenty leaves. */
  lemma TwentyLeaves()
    ensures |Gen(StartPosition())| == 20 && Leaves(Gen, StartPosition(), 1) == 20
  {
    OpeningMoves();
    forall mv
      ensures mv in TWENTY <==> OpeningMove(mv)
    {
      TwentyHas(mv);
    }
    assert Distinct(TWENTY);
    StartIsFair();
    GenIsByTheBook(StartPosition());
    hide Distinct, Gen, Allowed, StartPosition, Fair, OpeningMove;
    SameMembers(Gen(StartPosition()), TWENTY);
    LeavesAtOne(Gen, StartPosition(), Gen(StartPosition()));
  }
}
