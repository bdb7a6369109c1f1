/** The bundle of masks move generation filters by: checkers, pins, evasion masks, king danger. */
module Masks {
  import opened Wrappers
  import opened Chess
  import opened Bits
  import opened Bitboards
  import opened Rules
  import opened SlowAttacks
  import opened Moves
  import opened Lines
  import opened Checks
  import opened Lookups
  import opened Positions
  import opened Draining
  import opened Segments
  import Fills

  // ---- Counting members ----

  lemma {:induction false} MembersAtMostOne(b: bv64, n: nat)
    requires n <= 64
    ensures MembersTo(b, n) == 0 <==> forall s: Square :: s < n ==> !Contains(b, s)
    ensures MembersTo(b, n) <= 1 <==> forall s: Square, t: Square :: s < t < n ==> !(Contains(b, s) && Contains(b, t))
  {
    hide Contains;
    if n > 0 {
      MembersAtMostOne(b, n - 1);
      if Contains(b, n - 1) && MembersTo(b, n - 1) > 0 {
        var s: Square :| s < n - 1 && Contains(b, s);
        assert s < n - 1 < n;
      }
    }
  }

  lemma CountAtMostOne(b: bv64)
    ensures Count(b) == 0 <==> forall s: Square :: !Contains(b, s)
    ensures Count(b) <= 1 <==> forall s: Square, t: Square :: Contains(b, s) && Contains(b, t) ==> s == t
  {
    hide Contains;
    MembersAtMostOne(b, 64);
    if Count(b) <= 1 {
      forall s: Square, t: Square | Contains(b, s) && Contains(b, t)
        ensures s == t
      {
        assert !(s < t < 64) && !(t < s < 64);
      }
    }
  }

  // ---- Checkers ----

  lemma LeapsSymmetric(us: Color, k: Square, a: Square)
    ensures PawnHits(us, k, a) == PawnHits(us.Flip(), a, k)
    ensures KnightJump(k, a) == KnightJump(a, k)
    ensures KingStep(k, a) == KingStep(a, k)
  {
    hide File, Rank;
    if k == a { NoStepToSelf(k); }
  }

  lemma NoStepToSelf(k: Square)
    ensures !KingStep(k, k)
  {}

  /** A check, by the kind of piece that gives it. */
  lemma CheckedByKind(board: Board, us: Color, k: Square, a: Square)
    ensures CheckedBy(board, us, k, a) <==>
            || (Holds(board, a, us.Flip(), Pawn) && PawnHits(us, k, a))
            || (Holds(board, a, us.Flip(), Knight) && KnightJump(k, a))
            || ((Holds(board, a, us.Flip(), Bishop) || Holds(board, a, us.Flip(), Queen))
                && Lined(BishopSlider, k, a) && Clear(board, k, a))
            || ((Holds(board, a, us.Flip(), Rook) || Holds(board, a, us.Flip(), Queen))
                && Lined(RookSlider, k, a) && Clear(board, k, a))
  {
    LeapsSymmetric(us, k, a);
    LinesSymmetric(k, a, k);
    ClearSymmetric(board, k, a);
    if board[a].Some? { assert board[a].value == Piece(board[a].value.color, board[a].value.kind); }
    hide PawnHits, KnightJump, KingStep, Lined, Clear;
  }

  predicate OccupancyOf(occ: bv64, board: Board) {
    forall s: Square :: Contains(occ, s) <==> board[s].Some?
  }

  lemma SliderSees(slider: Slider, k: Square, occ: bv64, board: Board, a: Square)
    requires OccupancyOf(occ, board)
    ensures Contains(Attacks(slider, k, occ), a) <==> Lined(slider, k, a) && Clear(board, k, a)
  {
    hide Contains, Attacks, Lined, Inside;
    AttacksAlongLines(slider, k, a, occ);
  }

  /** `checkers_of`, given the occupancy of the board. */
  method CheckersOf(pos: Position, l: AttackTables, us: Color, k: Square, occ: bv64) returns (chk: bv64)
    requires pos.Agree() && Ready(l) && OccupancyOf(occ, pos.mailbox)
    ensures forall a: Square :: Contains(chk, a) <==> CheckedBy(pos.mailbox, us, k, a)
  {
    hide Contains, And, Or, Attacks, KindsAgree, ColorsAgree, Ready, CheckedBy, OccupancyOf, Lined, Clear, PawnHits, KnightJump;
    var them := us.Flip();
    var queens := pos.PiecesColored(them, Queen);
    var pawns := And(PawnAttacks(l, us, k), pos.PiecesColored(them, Pawn));
    var knights := And(KnightAttacks(l, k), pos.PiecesColored(them, Knight));
    var diag := And(BishopAttacks(l, k, occ), Or(pos.PiecesColored(them, Bishop), queens));
    var orth := And(RookAttacks(l, k, occ), Or(pos.PiecesColored(them, Rook), queens));
    chk := Or(Or(Or(pawns, knights), diag), orth);
    forall a: Square
      ensures Contains(chk, a) <==> CheckedBy(pos.mailbox, us, k, a)
    {
      Or4Contains(pawns, knights, diag, orth, a);
      MenContain(pos, them, Pawn, PawnAttacks(l, us, k), a);
      MenContain(pos, them, Knight, KnightAttacks(l, k), a);
      TwoMenContain(pos, them, Bishop, BishopAttacks(l, k, occ), a);
      TwoMenContain(pos, them, Rook, RookAttacks(l, k, occ), a);
      SliderSees(BishopSlider, k, occ, pos.mailbox, a);
      SliderSees(RookSlider, k, occ, pos.mailbox, a);
      CheckedByKind(pos.mailbox, us, k, a);
    }
  }

  lemma MenContain(pos: Position, color: Color, kind: PieceKind, b: bv64, a: Square)
    requires pos.Agree()
    ensures Contains(And(b, pos.PiecesColored(color, kind)), a) <==> Contains(b, a) && Holds(pos.mailbox, a, color, kind)
  {
    pos.PiecesColoredAt(color, kind);
    hide Contains, And;
    AndContains(b, pos.PiecesColored(color, kind), a);
  }

  lemma TwoMenContain(pos: Position, color: Color, kind: PieceKind, b: bv64, a: Square)
    requires pos.Agree()
    ensures Contains(And(b, Or(pos.PiecesColored(color, kind), pos.PiecesColored(color, Queen))), a) <==>
            Contains(b, a) && (Holds(pos.mailbox, a, color, kind) || Holds(pos.mailbox, a, color, Queen))
  {
    pos.PiecesColoredAt(color, kind);
    pos.PiecesColoredAt(color, Queen);
    hide Contains, And, Or;
    OrContains(pos.PiecesColored(color, kind), pos.PiecesColored(color, Queen), a);
    AndContains(b, Or(pos.PiecesColored(color, kind), pos.PiecesColored(color, Queen)), a);
  }

  // ---- King danger ----

  /** Every target of a leap or of a slide from one of the squares in `men`. */
  ghost predicate Union(b: bv64, men: seq<Square>, targets: Square -> bv64) {
    forall s: Square :: Contains(b, s) <==> exists i :: 0 <= i < |men| && Contains(targets(men[i]), s)
  }

  lemma UnionNext(b: bv64, men: seq<Square>, a: Square, targets: Square -> bv64)
    requires Union(b, men, targets)
    ensures Union(Or(b, targets(a)), men + [a], targets)
  {
    hide Contains, Or;
    forall s: Square
      ensures Contains(Or(b, targets(a)), s) <==> exists i :: 0 <= i < |men + [a]| && Contains(targets((men + [a])[i]), s)
    {
      OrContains(b, targets(a), s);
      if i :| 0 <= i < |men| && Contains(targets(men[i]), s) { assert (men + [a])[i] == men[i]; }
      assert (men + [a])[|men|] == a;
    }
  }

  ghost predicate HitByPawn(men: bv64, color: Color, s: Square) {
    exists a: Square :: Contains(men, a) && PawnHits(color, a, s)
  }

  ghost predicate HitByKnight(men: bv64, s: Square) {
    exists a: Square :: Contains(men, a) && KnightJump(a, s)
  }

  ghost predicate HitBySlider(men: bv64, slider: Slider, occ: bv64, s: Square) {
    exists a: Square :: Contains(men, a) && Contains(Attacks(slider, a, occ), s)
  }

  ghost predicate FromPawns(b: bv64, men: bv64, color: Color) {
    forall s: Square :: Contains(b, s) <==> HitByPawn(men, color, s)
  }

  ghost predicate FromKnights(b: bv64, men: bv64) {
    forall s: Square :: Contains(b, s) <==> HitByKnight(men, s)
  }

  ghost predicate FromSliders(b: bv64, men: bv64, slider: Slider, occ: bv64) {
    forall s: Square :: Contains(b, s) <==> HitBySlider(men, slider, occ, s)
  }

  method JoinKnights(l: AttackTables, men: bv64) returns (b: bv64)
    requires Ready(l)
    ensures FromKnights(b, men)
  {
    hide Contains, Or, Ready, KnightJump, Union, FromKnights, KnightWord;
    var squares := Drain(men);
    ghost var targets := (a: Square) => KnightWord(a);
    b := 0;
    UnionNone(targets);
    for i := 0 to |squares|
      invariant Union(b, squares[..i], targets)
    {
      assert squares[..i + 1] == squares[..i] + [squares[i]];
      UnionNext(b, squares[..i], squares[i], targets);
      KnightTable(l, squares[i]);
      b := Or(b, KnightAttacks(l, squares[i]));
    }
    assert squares[..|squares|] == squares;
    KnightsJoined(l, b, men, squares);
  }

  lemma KnightsJoined(l: AttackTables, b: bv64, men: bv64, squares: seq<Square>)
    requires Ready(l) && Union(b, squares, (a: Square) => KnightWord(a))
    requires forall a: Square :: a in squares <==> Contains(men, a)
    ensures FromKnights(b, men)
  {
    hide Contains, Union, KnightJump, Ready, KnightWord;
    UnionOfWord(b, men, squares, (a: Square) => KnightWord(a));
    forall a: Square
      ensures forall s: Square :: Contains(KnightWord(a), s) <==> KnightJump(a, s)
    {
      KnightTable(l, a);
    }
  }

  lemma KnightTable(l: AttackTables, a: Square)
    requires Ready(l)
    ensures KnightAttacks(l, a) == KnightWord(a)
    ensures forall s: Square :: Contains(KnightWord(a), s) <==> KnightJump(a, s)
  {
    assert KnightAttacks(l, a) == l.knights[a];
    hide KnightWord, Contains;
  }

  lemma UnionNone(targets: Square -> bv64)
    ensures Union(0, [], targets)
  {
    hide Contains;
    EmptyContains();
  }

  lemma UnionOfWord(b: bv64, men: bv64, squares: seq<Square>, targets: Square -> bv64)
    requires Union(b, squares, targets)
    requires forall a: Square :: a in squares <==> Contains(men, a)
    ensures forall s: Square :: Contains(b, s) <==> exists a: Square :: Contains(men, a) && Contains(targets(a), s)
  {
    hide Contains;
    forall s: Square
      ensures Contains(b, s) <==> exists a: Square :: Contains(men, a) && Contains(targets(a), s)
    {
      if i :| 0 <= i < |squares| && Contains(targets(squares[i]), s) { assert squares[i] in squares; }
      if a: Square :| Contains(men, a) && Contains(targets(a), s) {
        assert a in squares;
        var i :| 0 <= i < |squares| && squares[i] == a;
      }
    }
  }

  method JoinSliders(l: AttackTables, slider: Slider, men: bv64, occ: bv64) returns (b: bv64)
    requires Ready(l)
    ensures FromSliders(b, men, slider, occ)
  {
    hide Contains, Or, Ready, Attacks, Union, SlideFrom, FromSliders;
    var squares := Drain(men);
    ghost var targets := (a: Square) => Attacks(slider, a, occ);
    b := 0;
    UnionNone(targets);
    for i := 0 to |squares|
      invariant Union(b, squares[..i], targets)
    {
      assert squares[..i + 1] == squares[..i] + [squares[i]];
      UnionNext(b, squares[..i], squares[i], targets);
      b := Or(b, SlideFrom(l, slider, squares[i], occ));
    }
    assert squares[..|squares|] == squares;
    SlidersJoined(slider, b, men, occ, squares);
  }

  lemma SlidersJoined(slider: Slider, b: bv64, men: bv64, occ: bv64, squares: seq<Square>)
    requires Union(b, squares, (a: Square) => Attacks(slider, a, occ))
    requires forall a: Square :: a in squares <==> Contains(men, a)
    ensures FromSliders(b, men, slider, occ)
  {
    hide Contains, Union, Attacks;
    UnionOfWord(b, men, squares, (a: Square) => Attacks(slider, a, occ));
  }

  /** Both diagonal shifts of a set of pawns. */
  method JoinPawns(color: Color, men: bv64) returns (b: bv64)
    ensures FromPawns(b, men, color)
  {
    hide Contains, Or, Fills.Shift;
    var up := if color.White? then 1 else -1;
    var east: Compass := Direction(1, up);
    var west: Compass := Direction(-1, up);
    b := Or(Fills.Shift(men, east), Fills.Shift(men, west));
    forall s: Square
      ensures Contains(b, s) <==> exists a: Square :: Contains(men, a) && PawnHits(color, a, s)
    {
      OrContains(Fills.Shift(men, east), Fills.Shift(men, west), s);
      Fills.ShiftSteps(men, east, s);
      Fills.ShiftSteps(men, west, s);
      forall a: Square
        ensures PawnHits(color, a, s) <==>
                (HasNext(s, Fills.Back(east)) && a == Neighbour(s, Fills.Back(east)))
                || (HasNext(s, Fills.Back(west)) && a == Neighbour(s, Fills.Back(west)))
      {
        PawnFromBehind(color, a, s, east, west);
      }
      hide PawnHits, HasNext, Neighbour;
    }
  }

  lemma PawnFromBehind(color: Color, a: Square, s: Square, east: Compass, west: Compass)
    requires east == Direction(1, if color.White? then 1 else -1) && west == Direction(-1, east.rank)
    ensures PawnHits(color, a, s) <==>
            (HasNext(s, Fills.Back(east)) && a == Neighbour(s, Fills.Back(east)))
            || (HasNext(s, Fills.Back(west)) && a == Neighbour(s, Fills.Back(west)))
  {}

  /** The men of `them` on the board with our king lifted, which are those on the board. */
  ghost predicate SameMen(board: Board, bare: Board, them: Color) {
    forall a: Square, kind: PieceKind :: Holds(bare, a, them, kind) <==> Holds(board, a, them, kind)
  }

  /** An attack, by the kind of piece. */
  lemma AttackByKind(board: Board, them: Color, a: Square, s: Square)
    ensures Ours(board, them, a) && Hits(board, board[a].value, a, s) <==>
            || (Holds(board, a, them, Pawn) && PawnHits(them, a, s))
            || (Holds(board, a, them, Knight) && KnightJump(a, s))
            || (Holds(board, a, them, King) && KingStep(a, s))
            || ((Holds(board, a, them, Bishop) || Holds(board, a, them, Queen))
                && Lined(BishopSlider, a, s) && Clear(board, a, s))
            || ((Holds(board, a, them, Rook) || Holds(board, a, them, Queen))
                && Lined(RookSlider, a, s) && Clear(board, a, s))
  {
    if board[a].Some? { assert board[a].value == Piece(board[a].value.color, board[a].value.kind); }
    hide PawnHits, KnightJump, KingStep, Lined, Clear;
  }

  /** `compute_attacked_squares`, on an occupancy from which the other side's king may be missing. */
  method AttackedSquares(pos: Position, l: AttackTables, them: Color, occ: bv64, ghost bare: Board) returns (b: bv64)
    requires pos.Agree() && Ready(l) && OccupancyOf(occ, bare) && SameMen(pos.mailbox, bare, them)
    requires KingAt(pos.mailbox, them, pos.kings[them.Index()])
    ensures forall s: Square :: Contains(b, s) <==> Attacked(bare, them, s)
  {
    hide Contains, Or, Attacks, KindsAgree, ColorsAgree, Ready, OccupancyOf, Lined, Clear, PawnHits, KnightJump, KingStep,
      Attacked, KingAt, FromPawns, FromKnights, FromSliders, SameMen;
    var queens := pos.PiecesColored(them, Queen);
    var pawns := JoinPawns(them, pos.PiecesColored(them, Pawn));
    var knights := JoinKnights(l, pos.PiecesColored(them, Knight));
    var diag := JoinSliders(l, BishopSlider, Or(pos.PiecesColored(them, Bishop), queens), occ);
    var orth := JoinSliders(l, RookSlider, Or(pos.PiecesColored(them, Rook), queens), occ);
    var king := pos.kings[them.Index()];
    var men := Or(Or(Or(pawns, knights), diag), orth);
    b := Or(men, KingAttacks(l, king));
    forall s: Square
      ensures Contains(b, s) <==> Attacked(bare, them, s)
    {
      OrContains(men, KingAttacks(l, king), s);
      Or4Contains(pawns, knights, diag, orth, s);
      AttackedParts(pos, them, occ, bare, s, pawns, knights, diag, orth);
    }
  }

  lemma AttackedParts(pos: Position, them: Color, occ: bv64, bare: Board, s: Square,
                      pawns: bv64, knights: bv64, diag: bv64, orth: bv64)
    requires pos.Agree() && OccupancyOf(occ, bare) && SameMen(pos.mailbox, bare, them)
    requires KingAt(pos.mailbox, them, pos.kings[them.Index()])
    requires FromPawns(pawns, pos.PiecesColored(them, Pawn), them) && FromKnights(knights, pos.PiecesColored(them, Knight))
    requires FromSliders(diag, Or(pos.PiecesColored(them, Bishop), pos.PiecesColored(them, Queen)), BishopSlider, occ)
    requires FromSliders(orth, Or(pos.PiecesColored(them, Rook), pos.PiecesColored(them, Queen)), RookSlider, occ)
    ensures Attacked(bare, them, s) <==>
            Contains(pawns, s) || Contains(knights, s) || Contains(diag, s) || Contains(orth, s)
            || KingStep(pos.kings[them.Index()], s)
  {
    hide Contains, Or, Attacks, KindsAgree, ColorsAgree, OccupancyOf, PawnHits, KnightJump, KingStep, KingAt, Attacked, SameMen,
      HitByPawn, HitByKnight, HitBySlider;
    assert Contains(pawns, s) <==> HitByPawn(pos.PiecesColored(them, Pawn), them, s);
    assert Contains(knights, s) <==> HitByKnight(pos.PiecesColored(them, Knight), s);
    assert Contains(diag, s) <==>
           HitBySlider(Or(pos.PiecesColored(them, Bishop), pos.PiecesColored(them, Queen)), BishopSlider, occ, s);
    assert Contains(orth, s) <==>
           HitBySlider(Or(pos.PiecesColored(them, Rook), pos.PiecesColored(them, Queen)), RookSlider, occ, s);
    HitParts(pos, them, occ, bare, s);
  }

  lemma HitParts(pos: Position, them: Color, occ: bv64, bare: Board, s: Square)
    requires pos.Agree() && OccupancyOf(occ, bare) && SameMen(pos.mailbox, bare, them)
    requires KingAt(pos.mailbox, them, pos.kings[them.Index()])
    ensures Attacked(bare, them, s) <==>
            || HitByPawn(pos.PiecesColored(them, Pawn), them, s)
            || HitByKnight(pos.PiecesColored(them, Knight), s)
            || HitBySlider(Or(pos.PiecesColored(them, Bishop), pos.PiecesColored(them, Queen)), BishopSlider, occ, s)
            || HitBySlider(Or(pos.PiecesColored(them, Rook), pos.PiecesColored(them, Queen)), RookSlider, occ, s)
            || KingStep(pos.kings[them.Index()], s)
  {
    hide Contains, Or, Attacks, KindsAgree, ColorsAgree, OccupancyOf, Lined, Clear, PawnHits, KnightJump, KingStep, Hits;
    var king := pos.kings[them.Index()];
    assert Holds(pos.mailbox, king, them, King);
    forall a: Square
      ensures Ours(bare, them, a) && Hits(bare, bare[a].value, a, s) <==>
              || (Contains(pos.PiecesColored(them, Pawn), a) && PawnHits(them, a, s))
              || (Contains(pos.PiecesColored(them, Knight), a) && KnightJump(a, s))
              || (a == king && KingStep(a, s))
              || (Contains(Or(pos.PiecesColored(them, Bishop), pos.PiecesColored(them, Queen)), a)
                  && Contains(Attacks(BishopSlider, a, occ), s))
              || (Contains(Or(pos.PiecesColored(them, Rook), pos.PiecesColored(them, Queen)), a)
                  && Contains(Attacks(RookSlider, a, occ), s))
    {
      AttackHere(pos, them, occ, bare, a, s);
    }
  }

  lemma AttackHere(pos: Position, them: Color, occ: bv64, bare: Board, a: Square, s: Square)
    requires pos.Agree() && OccupancyOf(occ, bare) && SameMen(pos.mailbox, bare, them)
    requires KingAt(pos.mailbox, them, pos.kings[them.Index()])
    ensures Ours(bare, them, a) && Hits(bare, bare[a].value, a, s) <==>
            || (Contains(pos.PiecesColored(them, Pawn), a) && PawnHits(them, a, s))
            || (Contains(pos.PiecesColored(them, Knight), a) && KnightJump(a, s))
            || (a == pos.kings[them.Index()] && KingStep(a, s))
            || (Contains(Or(pos.PiecesColored(them, Bishop), pos.PiecesColored(them, Queen)), a)
                && Contains(Attacks(BishopSlider, a, occ), s))
            || (Contains(Or(pos.PiecesColored(them, Rook), pos.PiecesColored(them, Queen)), a)
                && Contains(Attacks(RookSlider, a, occ), s))
  {
    assert Holds(pos.mailbox, a, them, King) <==> a == pos.kings[them.Index()];
    assert forall kind: PieceKind :: Holds(bare, a, them, kind) <==> Holds(pos.mailbox, a, them, kind);
    hide Contains, Or, Attacks, KindsAgree, ColorsAgree, OccupancyOf, Lined, Clear, PawnHits, KnightJump, KingStep, Hits, KingAt,
      SameMen;
    AttackByKind(bare, them, a, s);
    SliderSees(BishopSlider, a, occ, bare, s);
    SliderSees(RookSlider, a, occ, bare, s);
    pos.PiecesColoredAt(them, Pawn);
    pos.PiecesColoredAt(them, Knight);
    pos.PiecesColoredAt(them, Bishop);
    pos.PiecesColoredAt(them, Rook);
    pos.PiecesColoredAt(them, Queen);
    OrContains(pos.PiecesColored(them, Bishop), pos.PiecesColored(them, Queen), a);
    OrContains(pos.PiecesColored(them, Rook), pos.PiecesColored(them, Queen), a);
  }

  // ---- Pins ----

  lemma OnePinner(board: Board, us: Color, k: Square, a: Square, b: Square, f: Square)
    requires Pins(board, us, k, a, f) && Pins(board, us, k, b, f)
    ensures a == b
  {
    hide Inside, Aims;
    if a != b { NearerInside(k, a, b, f); }
  }

  ghost predicate IsLine(b: bv64, k: Square, a: Square) {
    forall u: Square :: Contains(b, u) <==> OnLine(k, a, u)
  }

  /** The pins by the sliders in `done` are recorded, each with its line. */
  ghost predicate PinsFound(board: Board, us: Color, k: Square, done: set<Square>, pinned: bv64, rays: seq<bv64>) {
    && |rays| == 64
    && (forall f: Square :: Contains(pinned, f) <==> exists a :: a in done && Pins(board, us, k, a, f))
    && (forall a, f: Square :: a in done && Pins(board, us, k, a, f) ==> IsLine(rays[f], k, a))
  }

  /** Blockers between the king and a slider: one of ours alone is pinned. */
  lemma PinsByCount(board: Board, us: Color, k: Square, a: Square, between: bv64)
    requires Ours(board, us.Flip(), a) && Aims(board[a].value.kind, a, k)
    requires forall u: Square :: Contains(between, u) <==> Inside(k, a, u) && board[u].Some?
    ensures var mid := LowestFrom(between, 0);
            forall f: Square :: Pins(board, us, k, a, f) <==> Count(between) == 1 && f == mid && Ours(board, us, f)
  {
    hide Contains, Inside, Aims, Count;
    CountAtMostOne(between);
    var mid := LowestFrom(between, 0);
    forall f: Square
      ensures Pins(board, us, k, a, f) <==> Count(between) == 1 && f == mid && Ours(board, us, f)
    {
      if Pins(board, us, k, a, f) {
        assert Contains(between, f);
        assert forall u: Square :: Contains(between, u) ==> u == f;
      }
    }
  }

  lemma PinRecorded(board: Board, us: Color, k: Square, done: set<Square>, pinned: bv64, rays: seq<bv64>,
                    a: Square, mid: Square, line: bv64)
    requires PinsFound(board, us, k, done, pinned, rays)
    requires forall f: Square :: Pins(board, us, k, a, f) <==> f == mid
    requires IsLine(line, k, a)
    ensures PinsFound(board, us, k, done + {a}, With(pinned, mid), rays[mid := line])
  {
    hide Contains, Pins, IsLine, With;
    WithContains(pinned, mid);
    forall b | b in done && Pins(board, us, k, b, mid)
      ensures a == b
    {
      OnePinner(board, us, k, a, b, mid);
    }
    assert Pins(board, us, k, a, mid);
  }

  lemma NoPinRecorded(board: Board, us: Color, k: Square, done: set<Square>, pinned: bv64, rays: seq<bv64>, a: Square)
    requires PinsFound(board, us, k, done, pinned, rays)
    requires forall f: Square :: !Pins(board, us, k, a, f)
    ensures PinsFound(board, us, k, done + {a}, pinned, rays)
  {
    hide Contains, Pins, IsLine;
  }

  /** One candidate of the pin loop. */
  method TryPinner(pos: Position, us: Color, k: Square, a: Square, occ: bv64, pinned: bv64, rays: seq<bv64>, ghost done: set<Square>)
    returns (pinned': bv64, rays': seq<bv64>)
    requires pos.Agree() && OccupancyOf(occ, pos.mailbox)
    requires Ours(pos.mailbox, us.Flip(), a) && Aims(pos.mailbox[a].value.kind, a, k)
    requires PinsFound(pos.mailbox, us, k, done, pinned, rays)
    ensures PinsFound(pos.mailbox, us, k, done + {a}, pinned', rays')
  {
    assert ColorsAgree(pos.colorBits, pos.mailbox);
    assert forall s: Square :: Contains(pos.colorBits[us.Index()], s) <==> Ours(pos.mailbox, us, s);
    assert forall s: Square :: Contains(occ, s) <==> pos.mailbox[s].Some?;
    AimsInLine(pos.mailbox[a].value.kind, a, k);
    hide Contains, And, With, Inside, Aims, Count, Pins, PinsFound, KindsAgree, ColorsAgree, OnLine, InLine;
    pinned', rays' := pinned, rays;
    var segment := BetweenBb(k, a);
    var between := And(segment, occ);
    forall u: Square
      ensures Contains(between, u) <==> Inside(k, a, u) && pos.mailbox[u].Some?
    {
      AndContains(segment, occ, u);
    }
    PinsByCount(pos.mailbox, us, k, a, between);
    CountAtMostOne(between);
    if Count(between) == 1 {
      var mid := LowestFrom(between, 0);
      if Contains(pos.colorBits[us.Index()], mid) {
        var line := LineBb(k, a);
        RaysLength(pos.mailbox, us, k, done, pinned, rays);
        PinRecorded(pos.mailbox, us, k, done, pinned, rays, a, mid, line);
        pinned' := With(pinned, mid);
        rays' := rays[mid := line];
        return;
      }
    }
    NoPinRecorded(pos.mailbox, us, k, done, pinned, rays, a);
  }

  lemma RaysLength(board: Board, us: Color, k: Square, done: set<Square>, pinned: bv64, rays: seq<bv64>)
    requires PinsFound(board, us, k, done, pinned, rays)
    ensures |rays| == 64
  {}

  lemma AimsInLine(kind: PieceKind, a: Square, k: Square)
    requires Aims(kind, a, k)
    ensures InLine(k, a)
  {
    LinesSymmetric(a, k, a);
    hide Lined;
  }

  /** Pieces that slide along the slider's lines. */
  predicate SlidesOn(kind: PieceKind, slider: Slider) {
    kind.Queen? || (slider.RookSlider? && kind.Rook?) || (slider.BishopSlider? && kind.Bishop?)
  }

  ghost predicate MenOf(men: bv64, board: Board, them: Color, slider: Slider) {
    forall a: Square :: Contains(men, a) <==> Ours(board, them, a) && SlidesOn(board[a].value.kind, slider)
  }

  lemma LinedAims(kind: PieceKind, slider: Slider, k: Square, a: Square)
    requires SlidesOn(kind, slider) && Lined(slider, k, a)
    ensures Aims(kind, a, k)
  {
    LinesSymmetric(a, k, a);
    hide Lined;
  }

  lemma EmptyBoardSees(slider: Slider, k: Square, a: Square)
    ensures Contains(Attacks(slider, k, 0), a) <==> Lined(slider, k, a)
  {
    hide Contains, Attacks, Lined, Inside;
    EmptyContains();
    AttacksAlongLines(slider, k, a, 0);
  }

  /** The pin loop over one kind of slider. */
  method FindPins(pos: Position, l: AttackTables, us: Color, k: Square, slider: Slider, men: bv64, occ: bv64,
                  pinned0: bv64, rays0: seq<bv64>, ghost done0: set<Square>)
    returns (pinned: bv64, rays: seq<bv64>, ghost done: set<Square>)
    requires pos.Agree() && Ready(l) && OccupancyOf(occ, pos.mailbox) && MenOf(men, pos.mailbox, us.Flip(), slider)
    requires PinsFound(pos.mailbox, us, k, done0, pinned0, rays0)
    ensures PinsFound(pos.mailbox, us, k, done, pinned, rays)
    ensures forall a: Square :: a in done0 || (Contains(men, a) && Lined(slider, k, a)) ==> a in done
  {
    hide Contains, And, Attacks, Lined, PinsFound, KindsAgree, ColorsAgree, OccupancyOf, Ready, Aims;
    var xray := And(SlideFrom(l, slider, k, 0), men);
    forall a: Square
      ensures Contains(xray, a) <==> Contains(men, a) && Lined(slider, k, a)
    {
      AndContains(SlideFrom(l, slider, k, 0), men, a);
      EmptyBoardSees(slider, k, a);
    }
    var squares := Drain(xray);
    pinned, rays, done := pinned0, rays0, done0;
    for i := 0 to |squares|
      invariant PinsFound(pos.mailbox, us, k, done, pinned, rays)
      invariant done0 <= done && forall j :: 0 <= j < i ==> squares[j] in done
    {
      var a := squares[i];
      assert a in squares;
      LinedAims(pos.mailbox[a].value.kind, slider, k, a);
      pinned, rays := TryPinner(pos, us, k, a, occ, pinned, rays, done);
      done := done + {a};
    }
    forall a: Square | Contains(men, a) && Lined(slider, k, a)
      ensures a in done
    {
      assert a in squares;
    }
  }

  // ---- Evasion masks ----

  lemma DoubleCheck(board: Board, us: Color, k: Square, a: Square, b: Square, t: Square)
    requires CheckedBy(board, us, k, a) && CheckedBy(board, us, k, b) && a != b
    ensures !Resolves(board, us, k, t)
  {
    hide Inside, Aims, Leaps;
    ClearSymmetric(board, a, k);
    ClearSymmetric(board, b, k);
    LeapsOrAims(board[a].value, a, k);
    LeapsOrAims(board[b].value, b, k);
    if Inside(k, a, t) && Inside(k, b, t) { NearerInside(k, a, b, t); }
  }

  predicate IsSlider(kind: PieceKind) {
    kind.Bishop? || kind.Rook? || kind.Queen?
  }

  lemma SliderAims(board: Board, us: Color, k: Square, a: Square)
    requires CheckedBy(board, us, k, a)
    ensures Aims(board[a].value.kind, a, k) <==> IsSlider(board[a].value.kind)
    ensures Aims(board[a].value.kind, a, k) ==> Clear(board, k, a)
  {
    ClearSymmetric(board, a, k);
    LeapsOrAims(board[a].value, a, k);
    hide Lined, Clear, PawnHits, KnightJump, KingStep;
  }

  /** The masks accept exactly the targets that answer every check. */
  ghost predicate Answers(capture: bv64, push: bv64, board: Board, us: Color, k: Square) {
    forall t: Square ::
      && (Ours(board, us.Flip(), t) ==> (Contains(capture, t) <==> Resolves(board, us, k, t)) && !Contains(push, t))
      && (board[t].None? ==> (Contains(push, t) <==> Resolves(board, us, k, t)) && !Contains(capture, t))
      && (Ours(board, us, t) ==> !Contains(push, t))
  }

  lemma NoCheckAnswers(capture: bv64, push: bv64, board: Board, us: Color, k: Square)
    requires forall a: Square :: !CheckedBy(board, us, k, a)
    requires forall t: Square :: Contains(capture, t) <==> Ours(board, us.Flip(), t)
    requires forall t: Square :: Contains(push, t) <==> board[t].None?
    ensures Answers(capture, push, board, us, k)
  {
    hide Contains, CheckedBy;
  }

  lemma OneCheckAnswers(capture: bv64, push: bv64, board: Board, us: Color, k: Square, a: Square)
    requires board[a].Some? && forall b: Square :: CheckedBy(board, us, k, b) <==> b == a
    requires forall t: Square :: Contains(capture, t) <==> t == a
    requires forall t: Square :: Contains(push, t) <==> Inside(k, a, t) && IsSlider(board[a].value.kind)
    ensures Answers(capture, push, board, us, k)
  {
    hide Contains, Inside, Aims;
    assert CheckedBy(board, us, k, a);
    SliderAims(board, us, k, a);
  }

  lemma ManyChecksAnswer(board: Board, us: Color, k: Square, a: Square, b: Square)
    requires CheckedBy(board, us, k, a) && CheckedBy(board, us, k, b) && a != b
    ensures Answers(0, 0, board, us, k)
  {
    hide Contains, CheckedBy, Resolves;
    EmptyContains();
    forall t: Square
      ensures !Resolves(board, us, k, t)
    {
      DoubleCheck(board, us, k, a, b, t);
    }
  }

  // ---- MaskInfo::compute ----

  datatype MaskInfo = MaskInfo(
    checkers: bv64,
    pinned: bv64,
    captureMask: bv64,
    pushMask: bv64,
    danger: bv64,
    pinRays: seq<bv64>)

  ghost predicate PinsKnown(board: Board, us: Color, k: Square, pinned: bv64, rays: seq<bv64>) {
    && |rays| == 64
    && (forall f: Square :: Contains(pinned, f) <==> exists a: Square :: Pins(board, us, k, a, f))
    && (forall a: Square, f: Square :: Pins(board, us, k, a, f) ==> IsLine(rays[f], k, a))
  }

  /** Each mask is what its name says. */
  ghost predicate Right(info: MaskInfo, board: Board, us: Color, k: Square) {
    && (forall a: Square :: Contains(info.checkers, a) <==> CheckedBy(board, us, k, a))
    && PinsKnown(board, us, k, info.pinned, info.pinRays)
    && Answers(info.captureMask, info.pushMask, board, us, k)
    && (forall s: Square :: Contains(info.danger, s) <==> Attacked(board[k := None], us.Flip(), s))
  }

  lemma AllPinsFound(board: Board, us: Color, k: Square, done: set<Square>, pinned: bv64, rays: seq<bv64>)
    requires PinsFound(board, us, k, done, pinned, rays)
    requires forall a: Square :: Ours(board, us.Flip(), a) && Aims(board[a].value.kind, a, k) ==> a in done
    ensures PinsKnown(board, us, k, pinned, rays)
  {
    forall a: Square, f: Square | Pins(board, us, k, a, f)
      ensures a in done
    {
      hide Aims, Inside;
    }
    hide Contains, IsLine, Pins;
  }

  lemma NoPinsYet(board: Board, us: Color, k: Square, rays: seq<bv64>)
    requires |rays| == 64
    ensures PinsFound(board, us, k, {}, 0, rays)
  {
    hide Contains, Pins, IsLine;
    EmptyContains();
  }

  lemma AimsIsLined(kind: PieceKind, a: Square, k: Square)
    requires Aims(kind, a, k)
    ensures (SlidesOn(kind, RookSlider) && Lined(RookSlider, k, a)) || (SlidesOn(kind, BishopSlider) && Lined(BishopSlider, k, a))
  {
    LinesSymmetric(a, k, a);
    hide Lined;
  }

  lemma MenOfKinds(pos: Position, them: Color, slider: Slider, men: bv64)
    requires pos.Agree()
    requires men == Or(pos.PiecesColored(them, if slider.RookSlider? then Rook else Bishop), pos.PiecesColored(them, Queen))
    ensures MenOf(men, pos.mailbox, them, slider)
  {
    hide Contains, Or, KindsAgree, ColorsAgree, SlidesOn, Holds;
    forall a: Square
      ensures Contains(men, a) <==> Ours(pos.mailbox, them, a) && SlidesOn(pos.mailbox[a].value.kind, slider)
    {
      TwoKinds(pos, them, if slider.RookSlider? then Rook else Bishop, a);
      ManSlides(pos.mailbox, them, slider, a);
    }
  }

  lemma TwoKinds(pos: Position, color: Color, kind: PieceKind, a: Square)
    requires pos.Agree()
    ensures Contains(Or(pos.PiecesColored(color, kind), pos.PiecesColored(color, Queen)), a) <==>
            Holds(pos.mailbox, a, color, kind) || Holds(pos.mailbox, a, color, Queen)
  {
    pos.PiecesColoredAt(color, kind);
    pos.PiecesColoredAt(color, Queen);
    hide Contains, Or;
    OrContains(pos.PiecesColored(color, kind), pos.PiecesColored(color, Queen), a);
  }

  lemma ManSlides(board: Board, them: Color, slider: Slider, a: Square)
    ensures Ours(board, them, a) ==> board[a].Some?
    ensures Ours(board, them, a) && SlidesOn(board[a].value.kind, slider) <==>
            Holds(board, a, them, if slider.RookSlider? then Rook else Bishop) || Holds(board, a, them, Queen)
  {
    if board[a].Some? { assert board[a].value == Piece(board[a].value.color, board[a].value.kind); }
  }

  /** Both pin loops. */
  method AllPins(pos: Position, l: AttackTables, us: Color, k: Square, occ: bv64) returns (pinned: bv64, rays: seq<bv64>)
    requires pos.Agree() && Ready(l) && OccupancyOf(occ, pos.mailbox)
    ensures PinsKnown(pos.mailbox, us, k, pinned, rays)
  {
    hide Contains, Or, KindsAgree, ColorsAgree, OccupancyOf, Ready, PinsFound, PinsKnown, Lined, Aims;
    var them := us.Flip();
    rays := seq(64, _ => 0);
    NoPinsYet(pos.mailbox, us, k, rays);
    ghost var done: set<Square>;
    var orth := Or(pos.PiecesColored(them, Rook), pos.PiecesColored(them, Queen));
    MenOfKinds(pos, them, RookSlider, orth);
    pinned, rays, done := FindPins(pos, l, us, k, RookSlider, orth, occ, 0, rays, {});
    var diag := Or(pos.PiecesColored(them, Bishop), pos.PiecesColored(them, Queen));
    MenOfKinds(pos, them, BishopSlider, diag);
    pinned, rays, done := FindPins(pos, l, us, k, BishopSlider, diag, occ, pinned, rays, done);
    forall a: Square | Ours(pos.mailbox, them, a) && Aims(pos.mailbox[a].value.kind, a, k)
      ensures a in done
    {
      AimsIsLined(pos.mailbox[a].value.kind, a, k);
    }
    AllPinsFound(pos.mailbox, us, k, done, pinned, rays);
  }

  /** `capture_mask` and `push_mask`, by the number of checkers. */
  method EvasionMasks(pos: Position, us: Color, k: Square, checkers: bv64, occ: bv64) returns (capture: bv64, push: bv64)
    requires pos.Agree() && OccupancyOf(occ, pos.mailbox)
    requires forall a: Square :: Contains(checkers, a) <==> CheckedBy(pos.mailbox, us, k, a)
    ensures Answers(capture, push, pos.mailbox, us, k)
  {
    var them := us.Flip();
    assert forall s: Square :: Contains(pos.colorBits[them.Index()], s) <==> Ours(pos.mailbox, them, s);
    assert forall s: Square :: Contains(occ, s) <==> pos.mailbox[s].Some?;
    assert forall a: Square :: CheckedBy(pos.mailbox, us, k, a) ==> pos.mailbox[a].Some?;
    hide Contains, CheckedBy, Count, KindsAgree, ColorsAgree, Answers, Inside, OccupancyOf;
    CountAtMostOne(checkers);
    if Count(checkers) == 0 {
      capture, push := pos.colorBits[them.Index()], Complement(occ);
      ComplementContains(occ);
      NoCheckAnswers(capture, push, pos.mailbox, us, k);
    } else if Count(checkers) == 1 {
      var checker := LowestFrom(checkers, 0);
      capture := checkers;
      if IsSlider(pos.mailbox[checker].value.kind) {
        push := BetweenBb(k, checker);
      } else {
        EmptyContains();
        push := 0;
      }
      OneCheckAnswers(capture, push, pos.mailbox, us, k, checker);
    } else {
      capture, push := 0, 0;
      ghost var a: Square, b: Square :| Contains(checkers, a) && Contains(checkers, b) && a != b;
      ManyChecksAnswer(pos.mailbox, us, k, a, b);
    }
  }

  function Complement(b: bv64): bv64 {
    !b
  }

  lemma ComplementBit(b: bv64, i: bv6)
    ensures BitAt(Complement(b), i) == !BitAt(b, i)
  {}

  lemma ComplementContains(b: bv64)
    ensures forall s: Square :: Contains(Complement(b), s) <==> !Contains(b, s)
  {
    forall s: Square
      ensures Contains(Complement(b), s) <==> !Contains(b, s)
    {
      hide BitAt, Complement;
      ComplementBit(b, s as bv6);
    }
  }

  lemma KingLifted(board: Board, occ: bv64, k: Square)
    requires OccupancyOf(occ, board) && board[k].Some?
    ensures OccupancyOf(Xor(occ, With(0, k)), board[k := None])
  {
    hide Contains, Xor, With;
    EmptyContains();
    WithContains(0, k);
    forall s: Square {
      XorContains(occ, With(0, k), s);
    }
  }

  /** `occupied_all`. */
  method AllOccupied(pos: Position) returns (occ: bv64)
    requires pos.Agree()
    ensures OccupancyOf(occ, pos.mailbox)
  {
    assert forall c: Color, s: Square :: Contains(pos.colorBits[c.Index()], s) <==> Ours(pos.mailbox, c, s);
    hide Contains, Or, KindsAgree, ColorsAgree;
    occ := Or(pos.colorBits[0], pos.colorBits[1]);
    forall s: Square
      ensures Contains(occ, s) <==> pos.mailbox[s].Some?
    {
      OrContains(pos.colorBits[White.Index()], pos.colorBits[Black.Index()], s);
    }
  }

  method ComputeMasks(pos: Position, l: AttackTables, us: Color, k: Square) returns (info: MaskInfo)
    requires pos.Agree() && Ready(l)
    requires KingAt(pos.mailbox, us, k) && KingAt(pos.mailbox, us.Flip(), pos.kings[us.Flip().Index()])
    ensures Right(info, pos.mailbox, us, k)
  {
    assert Holds(pos.mailbox, k, us, King);
    hide Contains, Xor, With, KindsAgree, ColorsAgree, OccupancyOf, Ready, KingAt, CheckedBy, PinsKnown, Answers, Attacked;
    var occ := AllOccupied(pos);
    var checkers := CheckersOf(pos, l, us, k, occ);
    var pinned, rays := AllPins(pos, l, us, k, occ);
    var capture, push := EvasionMasks(pos, us, k, checkers, occ);
    KingLifted(pos.mailbox, occ, k);
    var danger := AttackedSquares(pos, l, us.Flip(), Xor(occ, With(0, k)), pos.mailbox[k := None]);
    info := MaskInfo(checkers, pinned, capture, push, danger, rays);
  }
}
