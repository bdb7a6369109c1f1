/** The list of moves the generator emits, in its order, and what it contains. */
module Generation {
  import opened Wrappers
  import opened Chess
  import opened Rules
  import opened Moves
  import opened Legality

  predicate Distinct(moves: seq<Move>) {
    forall i, j :: 0 <= i < j < |moves| ==> moves[i] != moves[j]
  }

  /** A candidate is emitted if it passes the tests. */
  ghost function Try(c: Core, mv: Move): seq<Move>
    requires Sound(c)
  {
    if Passes(c, mv) then [mv] else []
  }

  function Plain(c: Core, from: Square, to: Square): Move {
    Move(from, to, if c.board[to].Some? then Capture else Quiet)
  }

  /** Moves of the piece on `from` to the squares from `t` on, promotions and specials apart. */
  ghost function FromSquare(c: Core, from: Square, t: nat): seq<Move>
    requires Sound(c) && t <= 64
    decreases 64 - t
  {
    if t == 64 then [] else Try(c, Plain(c, from, t)) + FromSquare(c, from, t + 1)
  }

  /** Moves of the pieces of one kind on the squares from `s` on. */
  ghost function OfKind(c: Core, kind: PieceKind, s: nat): seq<Move>
    requires Sound(c) && s <= 64
    decreases 64 - s
  {
    if s == 64 then []
    else (if Holds(c.board, s, c.side, kind) then FromSquare(c, s, 0) else []) + OfKind(c, kind, s + 1)
  }

  ghost function Castles(c: Core): seq<Move>
    requires Sound(c)
  {
    Try(c, Move(KingHome(c.side), KingHome(c.side) + 2, KingCastle))
    + Try(c, Move(KingHome(c.side), KingHome(c.side) - 2, QueenCastle))
  }

  ghost function Promotions(c: Core, from: Square, to: Square): seq<Move>
    requires Sound(c)
  {
    Try(c, Move(from, to, KnightPromo)) + Try(c, Move(from, to, BishopPromo))
    + Try(c, Move(from, to, RookPromo)) + Try(c, Move(from, to, QueenPromo))
  }

  ghost function PromotionCaptures(c: Core, from: Square, to: Square): seq<Move>
    requires Sound(c)
  {
    Try(c, Move(from, to, KnightPromoCapture)) + Try(c, Move(from, to, BishopPromoCapture))
    + Try(c, Move(from, to, RookPromoCapture)) + Try(c, Move(from, to, QueenPromoCapture))
  }

  predicate PawnOn(c: Core, s: Square) {
    Holds(c.board, s, c.side, Pawn)
  }

  lemma PawnRoom(c: Core, s: Square)
    requires Sound(c) && PawnOn(c, s)
    ensures 0 <= s + Forward(c.side) < 64
    ensures Rank(s) == PawnHome(c.side) ==> 0 <= s + 2 * Forward(c.side) < 64
  {}

  ghost function SinglePush(c: Core, from: Square): seq<Move>
    requires Sound(c) && PawnOn(c, from)
  {
    PawnRoom(c, from);
    var to := from + Forward(c.side);
    if Rank(to) == LastRank(c.side) then Promotions(c, from, to) else Try(c, Move(from, to, Quiet))
  }

  ghost function DoublePushes(c: Core, from: Square): seq<Move>
    requires Sound(c) && PawnOn(c, from)
  {
    PawnRoom(c, from);
    if Rank(from) == PawnHome(c.side) then Try(c, Move(from, from + 2 * Forward(c.side), DoublePush)) else []
  }

  ghost function Pushes(c: Core, from: Square): seq<Move>
    requires Sound(c) && PawnOn(c, from)
  {
    SinglePush(c, from) + DoublePushes(c, from)
  }

  ghost function CapturesOn(c: Core, from: Square, t: Square): seq<Move>
    requires Sound(c)
  {
    if Rank(t) == LastRank(c.side) then PromotionCaptures(c, from, t) else Try(c, Move(from, t, Capture))
  }

  ghost function PawnCaptures(c: Core, from: Square, t: nat): seq<Move>
    requires Sound(c) && t <= 64
    decreases 64 - t
  {
    if t == 64 then []
    else CapturesOn(c, from, t) + PawnCaptures(c, from, t + 1)
  }

  ghost function PawnMoves(c: Core, s: nat): seq<Move>
    requires Sound(c) && s <= 64
    decreases 64 - s
  {
    if s == 64 then []
    else (if PawnOn(c, s) then Pushes(c, s) + PawnCaptures(c, s, 0) else []) + PawnMoves(c, s + 1)
  }

  ghost function EnPassants(c: Core, s: nat): seq<Move>
    requires Sound(c) && s <= 64 && c.ep.Some?
    decreases 64 - s
  {
    if s == 64 then []
    else (if PawnOn(c, s) then Try(c, Move(s, c.ep.value, EnPassant)) else []) + EnPassants(c, s + 1)
  }

  ghost function KingMoves(c: Core): seq<Move>
    requires Sound(c)
  {
    HasKings(c, c.side);
    FromSquare(c, KingOf(c.board, c.side), 0) + Castles(c)
  }

  ghost function AllPawnMoves(c: Core): seq<Move>
    requires Sound(c)
  {
    PawnMoves(c, 0) + if c.ep.Some? then EnPassants(c, 0) else []
  }

  ghost function SliderMoves(c: Core): seq<Move>
    requires Sound(c)
  {
    OfKind(c, Bishop, 0) + OfKind(c, Rook, 0) + OfKind(c, Queen, 0)
  }

  ghost function OtherMoves(c: Core): seq<Move>
    requires Sound(c)
  {
    AllPawnMoves(c) + OfKind(c, Knight, 0) + SliderMoves(c)
  }

  /** `generate_moves`: king moves, then pawns, knights and sliders; nothing is said of unsound positions. */
  ghost function Gen(c: Core): seq<Move> {
    if Sound(c) then KingMoves(c) + OtherMoves(c) else []
  }

  // ---- Members ----

  lemma {:induction false} FromSquareHas(c: Core, from: Square, t: nat)
    requires Sound(c) && t <= 64
    ensures forall mv :: mv in FromSquare(c, from, t) <==> Passes(c, mv) && mv.to >= t && mv == Plain(c, from, mv.to)
    ensures Distinct(FromSquare(c, from, t))
    decreases 64 - t
  {
    hide Sound, Passes;
    if t < 64 {
      FromSquareHas(c, from, t + 1);
      Joined(Try(c, Plain(c, from, t)), FromSquare(c, from, t + 1));
      assert forall mv: Move :: mv.to >= t && mv == Plain(c, from, mv.to) <==>
                                mv == Plain(c, from, t) || (mv.to >= t + 1 && mv == Plain(c, from, mv.to));
    }
  }

  lemma Joined(a: seq<Move>, b: seq<Move>)
    ensures forall mv :: mv in a + b <==> mv in a || mv in b
    ensures Distinct(a) && Distinct(b) && (forall mv :: mv in a ==> mv !in b) ==> Distinct(a + b)
  {
    if Distinct(a) && Distinct(b) && forall mv :: mv in a ==> mv !in b {
      forall i, j | 0 <= i < j < |a + b|
        ensures (a + b)[i] != (a + b)[j]
      {
        assert i < |a| ==> (a + b)[i] in a;
        assert j >= |a| ==> (a + b)[j] in b;
      }
    }
  }

  lemma {:induction false} OfKindHas(c: Core, kind: PieceKind, s: nat)
    requires Sound(c) && s <= 64
    ensures forall mv :: mv in OfKind(c, kind, s) <==>
                         Passes(c, mv) && mv.from >= s && Holds(c.board, mv.from, c.side, kind) && mv == Plain(c, mv.from, mv.to)
    ensures Distinct(OfKind(c, kind, s))
    decreases 64 - s
  {
    hide Sound, Passes, FromSquare, Plain;
    if s < 64 {
      OfKindHas(c, kind, s + 1);
      FromSquareHas(c, s, 0);
      PlainFrom(c, s);
      hide Distinct;
      var here := if Holds(c.board, s, c.side, kind) then FromSquare(c, s, 0) else [];
      assert Distinct(here) by { NothingTwice(); }
      Joined(here, OfKind(c, kind, s + 1));
    }
  }

  lemma NothingTwice()
    ensures Distinct([])
  {}

  lemma PlainFrom(c: Core, from: Square)
    ensures forall to: Square :: Plain(c, from, to).from == from && Plain(c, from, to).to == to
  {}

  predicate IsPush(c: Core, mv: Move) {
    mv.flag.Quiet? || mv.flag.DoublePush? || (mv.flag.Promotion().Some? && !mv.flag.IsCapture())
  }

  lemma PromotionsHas(c: Core, from: Square, to: Square)
    requires Sound(c)
    ensures forall mv :: mv in Promotions(c, from, to) <==>
                         Passes(c, mv) && mv.from == from && mv.to == to && mv.flag.Promotion().Some? && !mv.flag.IsCapture()
    ensures forall mv :: mv in PromotionCaptures(c, from, to) <==>
                         Passes(c, mv) && mv.from == from && mv.to == to && mv.flag.IsPromoCapture()
    ensures Distinct(Promotions(c, from, to)) && Distinct(PromotionCaptures(c, from, to))
  {
    hide Sound, Passes, Try, Distinct;
    FourTries(c, Move(from, to, KnightPromo), Move(from, to, BishopPromo), Move(from, to, RookPromo), Move(from, to, QueenPromo));
    FourTries(c, Move(from, to, KnightPromoCapture), Move(from, to, BishopPromoCapture),
              Move(from, to, RookPromoCapture), Move(from, to, QueenPromoCapture));
  }

  lemma TryHas(c: Core, mv: Move)
    requires Sound(c)
    ensures forall m :: m in Try(c, mv) <==> m == mv && Passes(c, mv)
    ensures Distinct(Try(c, mv))
  {
    hide Sound, Passes;
  }

  lemma FourTries(c: Core, m1: Move, m2: Move, m3: Move, m4: Move)
    requires Sound(c) && m1 != m2 && m1 != m3 && m1 != m4 && m2 != m3 && m2 != m4 && m3 != m4
    ensures var list := Try(c, m1) + Try(c, m2) + Try(c, m3) + Try(c, m4);
            && (forall m :: m in list <==> Passes(c, m) && (m == m1 || m == m2 || m == m3 || m == m4))
            && Distinct(list)
  {
    hide Sound, Passes, Try, Distinct;
    TryHas(c, m1);
    TryHas(c, m2);
    TryHas(c, m3);
    TryHas(c, m4);
    Joined(Try(c, m1), Try(c, m2));
    Joined(Try(c, m1) + Try(c, m2), Try(c, m3));
    Joined(Try(c, m1) + Try(c, m2) + Try(c, m3), Try(c, m4));
  }

  /** Where the flags of a pawn move can lead. */
  lemma PawnTargets(c: Core, mv: Move)
    requires Sound(c) && PseudoLegal(c, mv) && PawnOn(c, mv.from)
    ensures 0 <= mv.from + Forward(c.side) < 64
    ensures mv.flag.DoublePush? ==> mv.to == mv.from + 2 * Forward(c.side) && Rank(mv.from) == PawnHome(c.side)
    ensures IsPush(c, mv) && !mv.flag.DoublePush? ==> mv.to == mv.from + Forward(c.side)
    ensures !mv.flag.DoublePush? && !mv.flag.EnPassant? ==>
              (Rank(mv.to) == LastRank(c.side) <==> mv.flag.Promotion().Some?)
    ensures mv.flag.EnPassant? ==> c.ep == Some(mv.to)
    ensures !mv.flag.IsCastle()
  {
    if mv.flag.IsCastle() { CastleIsKings(c, mv); }
    hide Sound;
    PawnRoomHere(c, mv.from);
  }

  lemma PawnRoomHere(c: Core, s: Square)
    requires Sound(c) && PawnOn(c, s)
    ensures 0 <= s + Forward(c.side) < 64
  {}

  lemma CastleIsKings(c: Core, mv: Move)
    requires Sound(c) && PseudoLegal(c, mv) && mv.flag.IsCastle()
    ensures Holds(c.board, mv.from, c.side, King)
  {}

  // The moves of one pawn, en passant apart.

  lemma PushTargets(c: Core, from: Square)
    requires Sound(c) && PawnOn(c, from)
    ensures forall mv :: Passes(c, mv) && mv.from == from ==>
                           && (mv.flag.DoublePush? ==> mv.to == from + 2 * Forward(c.side) && Rank(from) == PawnHome(c.side))
                           && (IsPush(c, mv) && !mv.flag.DoublePush? ==> mv.to == from + Forward(c.side))
                           && (!mv.flag.DoublePush? && !mv.flag.EnPassant? ==>
                                 (Rank(mv.to) == LastRank(c.side) <==> mv.flag.Promotion().Some?))
  {
    forall mv | Passes(c, mv) && mv.from == from
      ensures mv.flag.DoublePush? ==> mv.to == from + 2 * Forward(c.side) && Rank(from) == PawnHome(c.side)
      ensures IsPush(c, mv) && !mv.flag.DoublePush? ==> mv.to == from + Forward(c.side)
      ensures !mv.flag.DoublePush? && !mv.flag.EnPassant? ==>
                (Rank(mv.to) == LastRank(c.side) <==> mv.flag.Promotion().Some?)
    {
      hide Sound;
      PawnTargets(c, mv);
    }
  }

  /** The form of a single push, by the rank it reaches. */
  predicate IsSinglePush(c: Core, mv: Move, from: Square, to: Square) {
    if Rank(to) == LastRank(c.side)
    then mv.from == from && mv.to == to && mv.flag.Promotion().Some? && !mv.flag.IsCapture()
    else mv == Move(from, to, Quiet)
  }

  lemma SinglePushForm(c: Core, mv: Move)
    requires Sound(c) && PawnOn(c, mv.from) && Passes(c, mv)
    ensures 0 <= mv.from + Forward(c.side) < 64
    ensures IsPush(c, mv) && !mv.flag.DoublePush? <==> IsSinglePush(c, mv, mv.from, mv.from + Forward(c.side))
  {
    PawnTargets(c, mv);
    hide Sound, PseudoLegal;
  }

  lemma SinglePushList(c: Core, from: Square)
    requires Sound(c) && PawnOn(c, from)
    ensures 0 <= from + Forward(c.side) < 64
    ensures var to: Square := from + Forward(c.side);
            SinglePush(c, from) ==
            if Rank(to) == LastRank(c.side) then Promotions(c, from, to) else Try(c, Move(from, to, Quiet))
  {
    PawnRoom(c, from);
    hide Sound, PawnOn, Promotions, Try, Rank, LastRank, Passes;
  }

  lemma SinglePushHas(c: Core, from: Square)
    requires Sound(c) && PawnOn(c, from)
    ensures forall mv :: mv in SinglePush(c, from) <==>
                         Passes(c, mv) && mv.from == from && IsPush(c, mv) && !mv.flag.DoublePush?
    ensures Distinct(SinglePush(c, from))
  {
    SinglePushList(c, from);
    var to: Square := from + Forward(c.side);
    hide Sound, Passes, PawnOn, Try, Distinct, Promotions, IsPush, MoveFlag.Promotion, MoveFlag.IsCapture, SinglePush, Forward,
      Rank, LastRank;
    forall mv | Passes(c, mv) && mv.from == from
      ensures IsPush(c, mv) && !mv.flag.DoublePush? <==> IsSinglePush(c, mv, from, to)
    {
      SinglePushForm(c, mv);
    }
    PromotionsHas(c, from, to);
    TryHas(c, Move(from, to, Quiet));
  }

  lemma DoublePushesHas(c: Core, from: Square)
    requires Sound(c) && PawnOn(c, from)
    ensures forall mv :: mv in DoublePushes(c, from) <==> Passes(c, mv) && mv.from == from && mv.flag.DoublePush?
    ensures Distinct(DoublePushes(c, from))
  {
    PawnRoom(c, from);
    PushTargets(c, from);
    hide Sound, Passes, Try, Distinct;
    NothingTwice();
    if Rank(from) == PawnHome(c.side) { TryHas(c, Move(from, from + 2 * Forward(c.side), DoublePush)); }
  }

  lemma PushesHas(c: Core, from: Square)
    requires Sound(c) && PawnOn(c, from)
    ensures forall mv :: mv in Pushes(c, from) <==> Passes(c, mv) && mv.from == from && IsPush(c, mv)
    ensures Distinct(Pushes(c, from))
  {
    hide Sound, Passes, Distinct, PawnOn, SinglePush, DoublePushes;
    SinglePushHas(c, from);
    DoublePushesHas(c, from);
    Joined(SinglePush(c, from), DoublePushes(c, from));
  }

  lemma CapturesOnHas(c: Core, from: Square, t: Square)
    requires Sound(c) && PawnOn(c, from)
    ensures forall mv :: mv in CapturesOn(c, from, t) <==>
                         Passes(c, mv) && mv.from == from && mv.to == t && mv.flag.IsCapture() && !mv.flag.EnPassant?
    ensures Distinct(CapturesOn(c, from, t))
  {
    forall mv | Passes(c, mv) && mv.from == from
      ensures !mv.flag.DoublePush? && !mv.flag.EnPassant? ==>
                (Rank(mv.to) == LastRank(c.side) <==> mv.flag.Promotion().Some?)
    {
      hide Sound;
      PawnTargets(c, mv);
    }
    hide Sound, Passes, Try, Distinct, PromotionCaptures;
    PromotionsHas(c, from, t);
    TryHas(c, Move(from, t, Capture));
  }

  lemma {:induction false} PawnCapturesHas(c: Core, from: Square, t: nat)
    requires Sound(c) && t <= 64 && PawnOn(c, from)
    ensures forall mv :: mv in PawnCaptures(c, from, t) <==>
                         Passes(c, mv) && mv.from == from && mv.to >= t && mv.flag.IsCapture() && !mv.flag.EnPassant?
    ensures Distinct(PawnCaptures(c, from, t))
    decreases 64 - t
  {
    hide Sound, Passes, CapturesOn, PawnOn, MoveFlag.IsCapture;
    if t < 64 {
      PawnCapturesHas(c, from, t + 1);
      CapturesOnHas(c, from, t);
      hide Distinct;
      Joined(CapturesOn(c, from, t), PawnCaptures(c, from, t + 1));
    }
  }

  lemma {:induction false} PawnMovesHas(c: Core, s: nat)
    requires Sound(c) && s <= 64
    ensures forall mv :: mv in PawnMoves(c, s) <==>
                         Passes(c, mv) && mv.from >= s && PawnOn(c, mv.from) && !mv.flag.EnPassant?
    ensures Distinct(PawnMoves(c, s))
    decreases 64 - s
  {
    NothingTwice();
    if s < 64 {
      PawnMovesHas(c, s + 1);
      if PawnOn(c, s) {
        PushesHas(c, s);
        PawnCapturesHas(c, s, 0);
        PawnFlags(c, s);
        hide Sound, Passes, Distinct, Pushes, PawnCaptures, PawnOn;
        Joined(Pushes(c, s), PawnCaptures(c, s, 0));
        Joined(Pushes(c, s) + PawnCaptures(c, s, 0), PawnMoves(c, s + 1));
      } else {
        assert [] + PawnMoves(c, s + 1) == PawnMoves(c, s + 1);
      }
    }
  }

  lemma PawnFlags(c: Core, s: Square)
    requires Sound(c) && PawnOn(c, s)
    ensures forall mv :: Passes(c, mv) && mv.from == s ==>
                           mv.flag.EnPassant? || IsPush(c, mv) != (mv.flag.IsCapture() && !mv.flag.EnPassant?)
    ensures forall mv: Move :: IsPush(c, mv) ==> !mv.flag.EnPassant?
  {
    forall mv | Passes(c, mv) && mv.from == s
      ensures !mv.flag.IsCastle()
    {
      hide Sound;
      PawnTargets(c, mv);
    }
    hide Sound, Passes;
  }

  lemma {:induction false} EnPassantsHas(c: Core, s: nat)
    requires Sound(c) && s <= 64 && c.ep.Some?
    ensures forall mv :: mv in EnPassants(c, s) <==> Passes(c, mv) && mv.from >= s && mv.flag.EnPassant?
    ensures Distinct(EnPassants(c, s))
    decreases 64 - s
  {
    NothingTwice();
    if s < 64 {
      EnPassantsHas(c, s + 1);
      forall mv | Passes(c, mv) && mv.flag.EnPassant?
        ensures PawnOn(c, mv.from) && c.ep == Some(mv.to)
      {
        hide Sound;
      }
      hide Sound, Passes, Distinct, Try;
      TryHas(c, Move(s, c.ep.value, EnPassant));
      var here := if PawnOn(c, s) then Try(c, Move(s, c.ep.value, EnPassant)) else [];
      Joined(here, EnPassants(c, s + 1));
    }
  }

  // The whole list.

  /** What kind of piece a flag needs. */
  lemma FlagKinds(c: Core, mv: Move)
    requires Sound(c) && PseudoLegal(c, mv)
    ensures c.board[mv.from].Some? && c.board[mv.from].value.color == c.side
    ensures mv.flag.IsCastle() ==> Holds(c.board, mv.from, c.side, King) && mv.from == KingHome(c.side)
    ensures mv.flag.IsCastle() ==> mv.to == if mv.flag.KingCastle? then mv.from + 2 else mv.from - 2
    ensures !mv.flag.IsCastle() && !mv.flag.Quiet? && !mv.flag.Capture? ==> PawnOn(c, mv.from)
    ensures mv.flag.Quiet? || mv.flag.Capture? ==> mv == Plain(c, mv.from, mv.to)
  {
    if mv.flag.IsCastle() { CastleIsKings(c, mv); }
    hide Sound;
  }

  lemma KingSquare(c: Core, s: Square)
    requires Sound(c)
    ensures OneKing(c.board, c.side)
    ensures Holds(c.board, s, c.side, King) <==> s == KingOf(c.board, c.side)
  {
    HasKings(c, c.side);
  }

  lemma CastlesHas(c: Core)
    requires Sound(c)
    ensures forall mv :: mv in Castles(c) <==> Passes(c, mv) && mv.flag.IsCastle()
    ensures Distinct(Castles(c))
  {
    var short := Move(KingHome(c.side), KingHome(c.side) + 2, KingCastle);
    var long := Move(KingHome(c.side), KingHome(c.side) - 2, QueenCastle);
    forall mv | Passes(c, mv) && mv.flag.IsCastle()
      ensures mv == short || mv == long
    {
      FlagKinds(c, mv);
    }
    hide Sound, Passes, Try, Distinct;
    TryHas(c, short);
    TryHas(c, long);
    Joined(Try(c, short), Try(c, long));
  }

  lemma KingTargets(c: Core, k: Square)
    requires Sound(c) && OneKing(c.board, c.side) && k == KingOf(c.board, c.side)
    ensures forall mv :: Passes(c, mv) ==>
                           && (mv.flag.IsCastle() ==> mv.from == k)
                           && (mv.from == k && !mv.flag.IsCastle() ==> mv == Plain(c, k, mv.to))
  {
    forall mv | Passes(c, mv)
      ensures mv.flag.IsCastle() ==> mv.from == k
      ensures mv.from == k && !mv.flag.IsCastle() ==> mv == Plain(c, k, mv.to)
    {
      hide Sound, Plain;
      FlagKinds(c, mv);
      KingSquare(c, mv.from);
    }
  }

  lemma PlainNeverCastles(c: Core, from: Square)
    ensures forall to: Square :: !Plain(c, from, to).flag.IsCastle()
  {}

  lemma KingMovesHas(c: Core)
    requires Sound(c)
    ensures OneKing(c.board, c.side)
    ensures forall mv :: mv in KingMoves(c) <==> Passes(c, mv) && mv.from == KingOf(c.board, c.side)
    ensures Distinct(KingMoves(c))
  {
    HasKings(c, c.side);
    var k := KingOf(c.board, c.side);
    hide Sound, Passes, Distinct, Castles, FromSquare, Plain, MoveFlag.IsCastle;
    KingTargets(c, k);
    FromSquareHas(c, k, 0);
    CastlesHas(c);
    PlainNeverCastles(c, k);
    Joined(FromSquare(c, k, 0), Castles(c));
  }

  lemma AllPawnMovesHas(c: Core)
    requires Sound(c)
    ensures forall mv :: mv in AllPawnMoves(c) <==> Passes(c, mv) && PawnOn(c, mv.from)
    ensures Distinct(AllPawnMoves(c))
  {
    hide Sound, Passes, Distinct, PawnMoves, EnPassants, PawnOn;
    EpMovers(c);
    PawnMovesHas(c, 0);
    NothingTwice();
    if c.ep.Some? {
      EnPassantsHas(c, 0);
      Joined(PawnMoves(c, 0), EnPassants(c, 0));
    } else {
      assert PawnMoves(c, 0) + [] == PawnMoves(c, 0);
    }
  }

  lemma EpMovers(c: Core)
    requires Sound(c)
    ensures forall mv :: Passes(c, mv) && mv.flag.EnPassant? ==> PawnOn(c, mv.from) && c.ep.Some?
  {
    forall mv | Passes(c, mv) && mv.flag.EnPassant?
      ensures PawnOn(c, mv.from) && c.ep.Some?
    {
      hide Sound;
      FlagKinds(c, mv);
      EpTargetIs(c, mv);
    }
  }

  /** A move in the plain form, of a piece of the given kind. */
  ghost predicate PlainOf(c: Core, mv: Move, kind: PieceKind) {
    Holds(c.board, mv.from, c.side, kind) && mv == Plain(c, mv.from, mv.to)
  }

  lemma KindHas(c: Core, kind: PieceKind)
    requires Sound(c)
    ensures forall mv :: mv in OfKind(c, kind, 0) <==> Passes(c, mv) && PlainOf(c, mv, kind)
    ensures Distinct(OfKind(c, kind, 0))
  {
    OfKindHas(c, kind, 0);
    hide Sound, Passes, Distinct, OfKind, Plain;
  }

  lemma OneKind(c: Core, mv: Move, a: PieceKind, b: PieceKind)
    ensures PlainOf(c, mv, a) && PlainOf(c, mv, b) ==> a == b
    ensures PlainOf(c, mv, a) && PawnOn(c, mv.from) ==> a == Pawn
  {}

  lemma SliderMovesHas(c: Core)
    requires Sound(c)
    ensures forall mv :: mv in SliderMoves(c) <==>
                         Passes(c, mv) && (PlainOf(c, mv, Bishop) || PlainOf(c, mv, Rook) || PlainOf(c, mv, Queen))
    ensures Distinct(SliderMoves(c))
  {
    hide Sound, Passes, Distinct, OfKind, PlainOf;
    KindHas(c, Bishop);
    KindHas(c, Rook);
    KindHas(c, Queen);
    forall mv
      ensures !(PlainOf(c, mv, Bishop) && PlainOf(c, mv, Rook))
      ensures !(PlainOf(c, mv, Queen) && (PlainOf(c, mv, Bishop) || PlainOf(c, mv, Rook)))
    {
      OneKind(c, mv, Bishop, Rook);
      OneKind(c, mv, Queen, Bishop);
      OneKind(c, mv, Queen, Rook);
    }
    Joined(OfKind(c, Bishop, 0), OfKind(c, Rook, 0));
    Joined(OfKind(c, Bishop, 0) + OfKind(c, Rook, 0), OfKind(c, Queen, 0));
  }

  /** A move of a piece other than the king falls in exactly one part of the list. */
  lemma OnePart(c: Core, mv: Move)
    requires Sound(c) && PseudoLegal(c, mv)
    ensures OneKing(c.board, c.side)
    ensures mv.from != KingOf(c.board, c.side) <==>
            || PawnOn(c, mv.from) || PlainOf(c, mv, Knight)
            || PlainOf(c, mv, Bishop) || PlainOf(c, mv, Rook) || PlainOf(c, mv, Queen)
  {
    FlagKinds(c, mv);
    KingSquare(c, mv.from);
    hide Sound, PseudoLegal, Plain;
    var p := c.board[mv.from].value;
    assert p == Piece(p.color, p.kind);
  }

  lemma OtherMovesHas(c: Core)
    requires Sound(c)
    ensures OneKing(c.board, c.side)
    ensures forall mv :: mv in OtherMoves(c) <==> Passes(c, mv) && mv.from != KingOf(c.board, c.side)
    ensures Distinct(OtherMoves(c))
  {
    HasKings(c, c.side);
    forall mv | Passes(c, mv)
      ensures mv.from != KingOf(c.board, c.side) <==>
              || PawnOn(c, mv.from) || PlainOf(c, mv, Knight)
              || PlainOf(c, mv, Bishop) || PlainOf(c, mv, Rook) || PlainOf(c, mv, Queen)
      ensures !(PawnOn(c, mv.from) && PlainOf(c, mv, Knight))
      ensures PlainOf(c, mv, Bishop) || PlainOf(c, mv, Rook) || PlainOf(c, mv, Queen) ==>
                !PawnOn(c, mv.from) && !PlainOf(c, mv, Knight)
    {
      OnePart(c, mv);
      hide Sound, PseudoLegal;
    }
    hide Sound, Passes, Distinct, OfKind, PlainOf, AllPawnMoves, SliderMoves, PawnOn;
    AllPawnMovesHas(c);
    KindHas(c, Knight);
    SliderMovesHas(c);
    Joined(AllPawnMoves(c), OfKind(c, Knight, 0));
    Joined(AllPawnMoves(c) + OfKind(c, Knight, 0), SliderMoves(c));
  }

  /** The list holds exactly the moves that pass the tests, each of them once. */
  lemma GenHas(c: Core)
    requires Sound(c)
    ensures forall mv :: mv in Gen(c) <==> Passes(c, mv)
    ensures Distinct(Gen(c))
  {
    KingMovesHas(c);
    OtherMovesHas(c);
    hide Sound, Passes, Distinct, KingMoves, OtherMoves;
    Joined(KingMoves(c), OtherMoves(c));
  }

  /** On fair positions the generator emits exactly the legal moves, each of them once. */
  lemma GenIsLegal(c: Core)
    requires Fair(c)
    ensures forall mv :: mv in Gen(c) <==> Legal(c, mv)
    ensures Distinct(Gen(c))
  {
    GuardedParts(c);
    GenHas(c);
    forall mv
      ensures Passes(c, mv) <==> Legal(c, mv)
    {
      PassesIsLegal(c, mv);
    }
    hide Sound, Passes, Legal, Gen, Distinct;
  }
}
