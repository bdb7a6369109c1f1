/** `generate_moves` as it runs: masks first, then king, pawns, knights and sliders, each pushing onto one list. */
module Movegen {
  import opened Wrappers
  import opened Chess
  import opened Bitboards
  import opened Rules
  import opened Soundness
  import opened SlowAttacks
  import opened Moves
  import opened Lines
  import opened Checks
  import opened Legality
  import opened Generation
  import opened Lookups
  import opened Positions
  import opened Draining
  import opened Subsets
  import opened Masks
  import opened Filters

  // ---- Parts of the list in which nothing passes ----

  lemma {:induction false} SkipTargets(c: Core, from: Square, n: nat, m: nat)
    requires Sound(c) && n <= m <= 64
    requires forall t: Square :: n <= t < m ==> !Passes(c, Plain(c, from, t))
    ensures FromSquare(c, from, n) == FromSquare(c, from, m)
    decreases m - n
  {
    hide Sound, Passes, Plain;
    if n < m { SkipTargets(c, from, n + 1, m); }
  }

  lemma {:induction false} SkipKind(c: Core, kind: PieceKind, n: nat, m: nat)
    requires Sound(c) && n <= m <= 64
    requires forall s: Square :: n <= s < m ==> !Holds(c.board, s, c.side, kind)
    ensures OfKind(c, kind, n) == OfKind(c, kind, m)
    decreases m - n
  {
    hide Sound, Holds, FromSquare;
    if n < m { SkipKind(c, kind, n + 1, m); }
  }

  lemma FromSquareStep(c: Core, from: Square, t: Square)
    requires Sound(c) && Passes(c, Plain(c, from, t))
    ensures FromSquare(c, from, t) == [Plain(c, from, t)] + FromSquare(c, from, t + 1)
  {
    hide Sound, Passes, Plain;
  }

  lemma KindStep(c: Core, kind: PieceKind, s: Square)
    requires Sound(c) && Holds(c.board, s, c.side, kind)
    ensures OfKind(c, kind, s) == FromSquare(c, s, 0) + OfKind(c, kind, s + 1)
  {
    hide Sound, FromSquare;
  }

  lemma SquareListEnds(c: Core, from: Square, kind: PieceKind)
    requires Sound(c)
    ensures FromSquare(c, from, 64) == [] && OfKind(c, kind, 64) == []
  {
    hide Sound;
  }

  // ---- Targets ----

  /** The loop over the targets of one piece. */
  method EmitTargets(from: Square, targets: bv64, enemy: bv64, out: seq<Move>, ghost c: Core) returns (out': seq<Move>)
    requires Sound(c)
    requires forall t: Square :: Contains(targets, t) <==> Passes(c, Plain(c, from, t))
    requires forall t: Square :: Contains(targets, t) ==> (Contains(enemy, t) <==> c.board[t].Some?)
    ensures out' == out + FromSquare(c, from, 0)
  {
    hide Contains, Sound, Passes, FromSquare, OfKind, Plain;
    var squares := Drain(targets);
    out' := out;
    ghost var n: nat := 0;
    for i := 0 to |squares|
      invariant n <= 64
      invariant forall j :: 0 <= j < |squares| ==> (squares[j] < n <==> j < i)
      invariant out' + FromSquare(c, from, n) == out + FromSquare(c, from, 0)
    {
      var to := squares[i];
      assert to in squares;
      SkipTo(c, from, squares, targets, n, to, i);
      FromSquareStep(c, from, to);
      var flag := if Contains(enemy, to) then Capture else Quiet;
      FlagIsPlain(c, from, to, flag);
      n := to + 1;
      Regroup(out', [Plain(c, from, to)], FromSquare(c, from, n));
      out' := out' + [Move(from, to, flag)];
    }
    SkipTo(c, from, squares, targets, n, 64, |squares|);
    SquareListEnds(c, from, Knight);
  }

  lemma Regroup(a: seq<Move>, b: seq<Move>, c: seq<Move>)
    ensures a + (b + c) == (a + b) + c
  {}

  lemma FlagIsPlain(c: Core, from: Square, to: Square, flag: MoveFlag)
    requires flag == if c.board[to].Some? then Capture else Quiet
    ensures Plain(c, from, to) == Move(from, to, flag)
  {}

  lemma SkipTo(c: Core, from: Square, squares: seq<Square>, targets: bv64, n: nat, m: nat, i: nat)
    requires Sound(c) && n <= m <= 64 && i <= |squares| && Ascending(squares)
    requires forall t: Square :: t in squares <==> Contains(targets, t)
    requires forall t: Square :: Contains(targets, t) <==> Passes(c, Plain(c, from, t))
    requires forall j :: 0 <= j < |squares| ==> (squares[j] < n <==> j < i)
    requires i < |squares| ==> m == squares[i]
    ensures FromSquare(c, from, n) == FromSquare(c, from, m)
  {
    hide Contains, Sound, Passes, FromSquare, Plain;
    assert forall j :: 0 <= j < |squares| ==> squares[j] < n || squares[j] >= m;
    assert forall t: Square :: n <= t < m ==> t !in squares;
    SkipTargets(c, from, n, m);
  }

  // ---- Knights and sliders ----

  lemma PinnedLeap(info: MaskInfo, board: Board, us: Color, k: Square, f: Square, t: Square)
    requires Right(info, board, us, k) && Contains(info.pinned, f) && KnightJump(f, t)
    ensures |info.pinRays| == 64 && !Contains(info.pinRays[f], t)
  {
    hide Contains, Answers, Attacked, CheckedBy, Pins, OnLine;
    var a: Square :| Pins(board, us, k, a, f);
    assert IsLine(info.pinRays[f], k, a);
    PinIsInside(board, us, k, a, f);
    LeapLeavesLine(k, a, f, t);
  }

  /** A pinned knight has no move. */
  lemma PinnedKnight(c: Core, info: MaskInfo, k: Square, from: Square)
    requires Sound(c) && KingAt(c.board, c.side, k) && Right(info, c.board, c.side, k)
    requires Holds(c.board, from, c.side, Knight) && Contains(info.pinned, from)
    ensures FromSquare(c, from, 0) == []
  {
    hide Sound, Passes, Contains, KingAt, Right, Plain, KnightJump, FromSquare;
    forall t: Square
      ensures !Passes(c, Plain(c, from, t))
    {
      OfficerPasses(c, info, k, from, t);
      PlainIs(c, from, t);
      if KnightJump(from, t) { PinnedLeap(info, c.board, c.side, k, from, t); }
    }
    SkipTargets(c, from, 0, 64);
    SquareListEnds(c, from, Knight);
  }

  lemma PinIsInside(board: Board, us: Color, k: Square, a: Square, f: Square)
    requires Pins(board, us, k, a, f)
    ensures Inside(k, a, f)
  {}

  /** `targets` of one piece: what it attacks, no piece of ours, and what the masks admit. */
  lemma TargetsPass(c: Core, info: MaskInfo, k: Square, from: Square, attacks: bv64, own: bv64, targets: bv64)
    requires Sound(c) && KingAt(c.board, c.side, k) && Right(info, c.board, c.side, k)
    requires Ours(c.board, c.side, from) && !c.board[from].value.kind.Pawn? && !c.board[from].value.kind.King?
    requires forall t: Square :: Contains(attacks, t) <==> PieceReaches(c, Plain(c, from, t), c.board[from].value.kind)
    requires forall t: Square :: Contains(own, t) <==> Ours(c.board, c.side, t)
    requires |info.pinRays| == 64
    requires forall t: Square :: Contains(targets, t) <==>
                                 Contains(attacks, t) && !Contains(own, t) && Admits(info, from, t)
    ensures forall t: Square :: Contains(targets, t) <==> Passes(c, Plain(c, from, t))
  {
    hide Contains, Sound, KingAt, Right, PieceReaches, Admits, Passes, Plain, Ours;
    forall t: Square
      ensures Contains(targets, t) <==> Passes(c, Plain(c, from, t))
    {
      OfficerPasses(c, info, k, from, t);
    }
  }

  /** Applies the masks to the attacks of a piece. */
  method Masked(info: MaskInfo, from: Square, attacks: bv64, own: bv64) returns (targets: bv64)
    requires |info.pinRays| == 64
    ensures forall t: Square :: Contains(targets, t) <==>
                                Contains(attacks, t) && !Contains(own, t) && Admits(info, from, t)
  {
    hide Contains, And, AndNot, Or;
    var mask := Or(info.captureMask, info.pushMask);
    targets := And(AndNot(attacks, own), mask);
    forall t: Square
      ensures Contains(targets, t) <==>
              Contains(attacks, t) && !Contains(own, t) && (Contains(info.captureMask, t) || Contains(info.pushMask, t))
    {
      OrContains(info.captureMask, info.pushMask, t);
      AndNotContains(attacks, own, t);
      AndContains(AndNot(attacks, own), mask, t);
    }
    if Contains(info.pinned, from) {
      ghost var before := targets;
      targets := And(targets, info.pinRays[from]);
      forall t: Square {
        AndContains(before, info.pinRays[from], t);
      }
    }
  }

  /** `emit_knight_moves`. */
  method EmitKnights(l: AttackTables, info: MaskInfo, knights: bv64, men: Men, out: seq<Move>, ghost c: Core, ghost k: Square)
    returns (out': seq<Move>)
    requires Ready(l) && Setting(c, k, info, men)
    requires forall t: Square :: Contains(knights, t) <==> Holds(c.board, t, c.side, Knight)
    ensures out' == out + OfKind(c, Knight, 0)
  {
    hide *;
    SettingIsSound(c, k, info, men);
    var squares := Drain(knights);
    out' := out;
    ghost var n: nat := 0;
    for i := 0 to |squares|
      invariant n <= 64
      invariant forall j :: 0 <= j < |squares| ==> (squares[j] < n <==> j < i)
      invariant out' + OfKind(c, Knight, n) == out + OfKind(c, Knight, 0)
    {
      var from := squares[i];
      NextPiece(c, Knight, squares, n, i, out');
      n := from + 1;
      out' := EmitKnight(l, info, from, men, out', c, k);
    }
    SkipToPiece(c, Knight, squares, n, 64, |squares|);
    SquareListEnds(c, 0, Knight);
  }

  /** The two sides' occupancies. */
  datatype Men = Men(own: bv64, enemy: bv64)

  /** A sound position with its king, masks and occupancies. */
  ghost predicate Setting(c: Core, k: Square, info: MaskInfo, men: Men) {
    && Sound(c) && KingAt(c.board, c.side, k) && Right(info, c.board, c.side, k)
    && (forall s: Square :: Contains(men.own, s) <==> Ours(c.board, c.side, s))
    && (forall s: Square :: Contains(men.enemy, s) <==> Ours(c.board, c.side.Flip(), s))
  }

  lemma SettingIsSound(c: Core, k: Square, info: MaskInfo, men: Men)
    requires Setting(c, k, info, men)
    ensures Sound(c)
  {}

  /** Reaching the next piece of the kind splits its moves off the rest of the list. */
  lemma NextPiece(c: Core, kind: PieceKind, squares: seq<Square>, n: nat, i: nat, out: seq<Move>)
    requires Sound(c) && n <= 64 && i < |squares| && Ascending(squares)
    requires forall t: Square :: t in squares <==> Holds(c.board, t, c.side, kind)
    requires forall j :: 0 <= j < |squares| ==> (squares[j] < n <==> j < i)
    ensures var from: int := squares[i];
            && Holds(c.board, from, c.side, kind)
            && (forall j :: 0 <= j < |squares| ==> (squares[j] < from + 1 <==> j < i + 1))
            && out + OfKind(c, kind, n) == (out + FromSquare(c, from, 0)) + OfKind(c, kind, from + 1)
  {
    hide Sound, Holds, OfKind, FromSquare;
    var from: int := squares[i];
    assert squares[i] in squares;
    SkipToPiece(c, kind, squares, n, from, i);
    KindStep(c, kind, from);
    Regroup(out, FromSquare(c, from, 0), OfKind(c, kind, from + 1));
  }

  lemma SkipToPiece(c: Core, kind: PieceKind, squares: seq<Square>, n: nat, m: nat, i: nat)
    requires Sound(c) && n <= m <= 64 && i <= |squares| && Ascending(squares)
    requires forall t: Square :: t in squares <==> Holds(c.board, t, c.side, kind)
    requires forall j :: 0 <= j < |squares| ==> (squares[j] < n <==> j < i)
    requires i < |squares| ==> m == squares[i]
    ensures OfKind(c, kind, n) == OfKind(c, kind, m)
  {
    hide Sound, Holds, OfKind;
    assert forall j :: 0 <= j < |squares| ==> squares[j] < n || squares[j] >= m;
    assert forall t: Square :: n <= t < m ==> t !in squares;
    SkipKind(c, kind, n, m);
  }

  /** One knight: nothing if it is pinned. */
  method EmitKnight(l: AttackTables, info: MaskInfo, from: Square, men: Men, out: seq<Move>, ghost c: Core, ghost k: Square)
    returns (out': seq<Move>)
    requires Ready(l) && Setting(c, k, info, men) && Holds(c.board, from, c.side, Knight)
    ensures out' == out + FromSquare(c, from, 0)
  {
    hide *;
    SettingIsSound(c, k, info, men);
    HeldKind(c, from, Knight);
    if Contains(info.pinned, from) {
      PinnedKnightStays(c, info, men, k, from);
      return out;
    }
    var attacks := KnightAttackSet(l, from, c);
    out' := EmitOfficer(info, from, attacks, men, out, c, k);
  }

  method KnightAttackSet(l: AttackTables, from: Square, ghost c: Core) returns (attacks: bv64)
    requires Ready(l)
    ensures forall t: Square :: Contains(attacks, t) <==> PieceReaches(c, Plain(c, from, t), Knight)
  {
    hide Contains, Ready, PieceReaches, Plain;
    KnightReaches(l, c, from);
    attacks := KnightAttacks(l, from);
  }

  lemma PinnedKnightStays(c: Core, info: MaskInfo, men: Men, k: Square, from: Square)
    requires Setting(c, k, info, men) && Holds(c.board, from, c.side, Knight) && Contains(info.pinned, from)
    ensures FromSquare(c, from, 0) == []
  {
    hide Contains, Sound, KingAt, Right, FromSquare;
    PinnedKnight(c, info, k, from);
  }

  lemma HeldKind(c: Core, from: Square, kind: PieceKind)
    requires Holds(c.board, from, c.side, kind)
    ensures Ours(c.board, c.side, from) && c.board[from].value.kind == kind
  {}

  lemma KnightReaches(l: AttackTables, c: Core, from: Square)
    requires Ready(l)
    ensures forall t: Square :: Contains(KnightAttacks(l, from), t) <==> PieceReaches(c, Plain(c, from, t), Knight)
  {
    hide Contains, Ready, KnightJump;
    forall t: Square
      ensures Contains(KnightAttacks(l, from), t) <==> PieceReaches(c, Plain(c, from, t), Knight)
    {
      PlainIs(c, from, t);
    }
  }

  /** What every piece but king and pawn does with its attack set. */
  method EmitOfficer(info: MaskInfo, from: Square, attacks: bv64, men: Men, out: seq<Move>, ghost c: Core, ghost k: Square)
    returns (out': seq<Move>)
    requires Setting(c, k, info, men)
    requires Ours(c.board, c.side, from) && !c.board[from].value.kind.Pawn? && !c.board[from].value.kind.King?
    requires forall t: Square :: Contains(attacks, t) <==> PieceReaches(c, Plain(c, from, t), c.board[from].value.kind)
    ensures out' == out + FromSquare(c, from, 0)
  {
    RaysAre64(info, c.board, c.side, k);
    hide Contains, Sound, KingAt, Right, FromSquare, Passes, Admits, PieceReaches, Plain, Ours;
    var targets := Masked(info, from, attacks, men.own);
    TargetsPass(c, info, k, from, attacks, men.own, targets);
    TargetsAreFree(c, men, targets);
    out' := EmitTargets(from, targets, men.enemy, out, c);
  }

  lemma TargetsAreFree(c: Core, men: Men, targets: bv64)
    requires forall s: Square :: Contains(men.enemy, s) <==> Ours(c.board, c.side.Flip(), s)
    requires forall t: Square :: Contains(targets, t) ==> !Ours(c.board, c.side, t)
    ensures forall t: Square :: Contains(targets, t) ==> (Contains(men.enemy, t) <==> c.board[t].Some?)
  {
    hide Contains;
    forall t: Square | Contains(targets, t)
      ensures Contains(men.enemy, t) <==> c.board[t].Some?
    {
      assert c.board[t].Some? ==> Ours(c.board, c.side, t) || Ours(c.board, c.side.Flip(), t);
    }
  }

  function SliderAttacks(l: AttackTables, kind: PieceKind, from: Square, occ: bv64): bv64
    requires Ready(l)
  {
    if kind.Bishop? then BishopAttacks(l, from, occ)
    else if kind.Rook? then RookAttacks(l, from, occ)
    else QueenAttacks(l, from, occ)
  }

  lemma SliderReaches(l: AttackTables, c: Core, kind: PieceKind, from: Square, occ: bv64)
    requires Ready(l) && OccupancyOf(occ, c.board) && IsSlider(kind)
    ensures forall t: Square :: Contains(SliderAttacks(l, kind, from, occ), t) <==> PieceReaches(c, Plain(c, from, t), kind)
  {
    hide Contains, Or, Ready, Slides, Attacks;
    forall t: Square
      ensures Contains(SliderAttacks(l, kind, from, occ), t) <==> PieceReaches(c, Plain(c, from, t), kind)
    {
      PlainIs(c, from, t);
      SlidesAreAttacks(c.board, occ, BishopSlider, from, t);
      SlidesAreAttacks(c.board, occ, RookSlider, from, t);
      hide Plain;
    }
  }

  lemma SliderIsOfficer(kind: PieceKind)
    requires IsSlider(kind)
    ensures !kind.Pawn? && !kind.King?
  {}

  method EmitSlider(l: AttackTables, info: MaskInfo, kind: PieceKind, from: Square, occ: bv64, men: Men, out: seq<Move>,
                    ghost c: Core, ghost k: Square)
    returns (out': seq<Move>)
    requires Ready(l) && Setting(c, k, info, men) && OccupancyOf(occ, c.board) && IsSlider(kind)
    requires Holds(c.board, from, c.side, kind)
    ensures out' == out + FromSquare(c, from, 0)
  {
    hide *;
    SettingIsSound(c, k, info, men);
    HeldKind(c, from, kind);
    SliderIsOfficer(kind);
    SliderReaches(l, c, kind, from, occ);
    var attacks := SliderAttacks(l, kind, from, occ);
    out' := EmitOfficer(info, from, attacks, men, out, c, k);
  }

  /** The pass of `emit_slider_moves` over one kind. */
  method EmitKind(l: AttackTables, info: MaskInfo, kind: PieceKind, pieces: bv64, occ: bv64, men: Men, out: seq<Move>,
                  ghost c: Core, ghost k: Square)
    returns (out': seq<Move>)
    requires Ready(l) && Setting(c, k, info, men) && OccupancyOf(occ, c.board) && IsSlider(kind)
    requires forall t: Square :: Contains(pieces, t) <==> Holds(c.board, t, c.side, kind)
    ensures out' == out + OfKind(c, kind, 0)
  {
    hide *;
    SettingIsSound(c, k, info, men);
    var squares := Drain(pieces);
    out' := out;
    ghost var n: nat := 0;
    for i := 0 to |squares|
      invariant n <= 64
      invariant forall j :: 0 <= j < |squares| ==> (squares[j] < n <==> j < i)
      invariant out' + OfKind(c, kind, n) == out + OfKind(c, kind, 0)
    {
      var from := squares[i];
      NextPiece(c, kind, squares, n, i, out');
      n := from + 1;
      out' := EmitSlider(l, info, kind, from, occ, men, out', c, k);
    }
    SkipToPiece(c, kind, squares, n, 64, |squares|);
    SquareListEnds(c, 0, kind);
  }

  // ---- The king ----

  lemma Nothing(a: seq<Move>)
    ensures a + [] == a
  {}

  /** The plain moves of `emit_king_moves`. */
  method EmitKingSteps(l: AttackTables, info: MaskInfo, king: Square, men: Men, out: seq<Move>, ghost c: Core)
    returns (out': seq<Move>)
    requires Ready(l) && Setting(c, king, info, men)
    ensures out' == out + FromSquare(c, king, 0)
  {
    hide Contains, Sound, KingAt, Right, FromSquare, Passes, Plain, Ready, AndNot, KingStep;
    var steps := KingAttacks(l, king);
    var targets := AndNot(AndNot(steps, men.own), info.danger);
    forall t: Square
      ensures Contains(targets, t) <==> Passes(c, Plain(c, king, t))
      ensures Contains(targets, t) ==> !Ours(c.board, c.side, t)
    {
      AndNotContains(steps, men.own, t);
      AndNotContains(AndNot(steps, men.own), info.danger, t);
      KingPasses(c, info, king, t);
    }
    TargetsAreFree(c, men, targets);
    out' := EmitTargets(king, targets, men.enemy, out, c);
  }

  // ---- Castling ----

  function CastleMove(side: Color, flag: MoveFlag): Move
    requires flag.IsCastle()
  {
    Move(KingHome(side), if flag.KingCastle? then KingHome(side) + 2 else KingHome(side) - 2, flag)
  }

  /** The squares between king and rook. */
  predicate PathEmpty(board: Board, side: Color, flag: MoveFlag)
    requires flag.IsCastle()
  {
    var k := KingHome(side);
    if flag.KingCastle? then board[k + 1].None? && board[k + 2].None?
    else board[k - 1].None? && board[k - 2].None? && board[k - 3].None?
  }

  lemma CastlePseudoLegal(c: Core, flag: MoveFlag)
    requires Sound(c) && flag.IsCastle()
    ensures PseudoLegal(c, CastleMove(c.side, flag)) <==>
            HasRight(c.castling, CastleRight(c.side, flag)) && PathEmpty(c.board, c.side, flag)
  {
    RightMeansHome(c, flag);
    hide Sound, HasRight;
  }

  lemma RightMeansHome(c: Core, flag: MoveFlag)
    requires Sound(c) && flag.IsCastle()
    ensures HasRight(c.castling, CastleRight(c.side, flag)) ==> Holds(c.board, KingHome(c.side), c.side, King)
  {
    hide HasRight;
  }

  lemma CastlePasses(c: Core, info: MaskInfo, k: Square, flag: MoveFlag)
    requires Sound(c) && KingAt(c.board, c.side, k) && Right(info, c.board, c.side, k) && flag.IsCastle()
    ensures var mv := CastleMove(c.side, flag);
            Passes(c, mv) <==>
            && HasRight(c.castling, CastleRight(c.side, flag)) && PathEmpty(c.board, c.side, flag)
            && info.checkers == 0
            && !Contains(info.danger, mv.from) && !Contains(info.danger, Middle(mv)) && !Contains(info.danger, mv.to)
  {
    var mv := CastleMove(c.side, flag);
    CastlePseudoLegal(c, flag);
    RightMeansHome(c, flag);
    assert HasRight(c.castling, CastleRight(c.side, flag)) ==> k == KingHome(c.side);
    KingIs(c.board, c.side, k);
    DangerIs(info, c.board, c.side, k, mv.from);
    DangerIs(info, c.board, c.side, k, Middle(mv));
    DangerIs(info, c.board, c.side, k, mv.to);
    CheckersEmpty(info, c.board, c.side, k);
    hide Sound, PseudoLegal, KingAt, Right, Contains, HasRight, PathEmpty, Attacked, Checked, NextBoard;
  }

  lemma CheckersEmpty(info: MaskInfo, board: Board, us: Color, k: Square)
    requires Right(info, board, us, k)
    ensures info.checkers == 0 <==> !Checked(board, us, k)
  {
    hide Contains, CheckedBy, PinsKnown, Answers, Attacked;
    NonemptyIff(info.checkers);
  }

  /** The two conditions of a castling block besides the right. */
  method CastlePath(info: MaskInfo, flag: MoveFlag, side: Color, occ: bv64, ghost board: Board) returns (open: bool)
    requires flag.IsCastle() && OccupancyOf(occ, board)
    ensures open <==>
            var mv := CastleMove(side, flag);
            && PathEmpty(board, side, flag)
            && !Contains(info.danger, mv.from) && !Contains(info.danger, Middle(mv)) && !Contains(info.danger, mv.to)
  {
    hide Contains;
    var mv := CastleMove(side, flag);
    var home := KingHome(side);
    var pathClear :=
      if flag.KingCastle? then !Contains(occ, home + 1) && !Contains(occ, home + 2)
      else !Contains(occ, home - 3) && !Contains(occ, home - 2) && !Contains(occ, home - 1);
    var pathSafe := !Contains(info.danger, mv.from) && !Contains(info.danger, Middle(mv)) && !Contains(info.danger, mv.to);
    open := pathClear && pathSafe;
  }

  lemma CastleTried(c: Core, info: MaskInfo, k: Square, flag: MoveFlag)
    requires Sound(c) && KingAt(c.board, c.side, k) && Right(info, c.board, c.side, k) && flag.IsCastle() && info.checkers == 0
    ensures var mv := CastleMove(c.side, flag);
            Try(c, mv) ==
            if HasRight(c.castling, CastleRight(c.side, flag)) && PathEmpty(c.board, c.side, flag)
               && !Contains(info.danger, mv.from) && !Contains(info.danger, Middle(mv)) && !Contains(info.danger, mv.to)
            then [mv] else []
  {
    CastlePasses(c, info, k, flag);
    TryIs(c, CastleMove(c.side, flag));
    hide Sound, KingAt, Right, Contains, HasRight, Passes, Try, PathEmpty, CastleMove;
  }

  /** One castling block of `emit_king_moves`. */
  method EmitCastle(info: MaskInfo, flag: MoveFlag, side: Color, rights: CastlingRights, occ: bv64, out: seq<Move>,
                    ghost c: Core, ghost k: Square)
    returns (out': seq<Move>)
    requires flag.IsCastle() && side == c.side && rights == c.castling && OccupancyOf(occ, c.board)
    requires Sound(c) && KingAt(c.board, c.side, k) && Right(info, c.board, c.side, k) && info.checkers == 0
    ensures out' == out + Try(c, CastleMove(c.side, flag))
  {
    CastleTried(c, info, k, flag);
    hide Sound, KingAt, Right, Contains, HasRight, Passes, Try, PathEmpty, OccupancyOf, CastleMove, CastleRight;
    Nothing(out);
    out' := out;
    if HasRight(rights, CastleRight(side, flag)) {
      var open := CastlePath(info, flag, side, occ, c.board);
      if open {
        out' := out' + [CastleMove(side, flag)];
      }
    }
  }

  /** Castling is not looked at in check. */
  method EmitCastles(info: MaskInfo, side: Color, rights: CastlingRights, occ: bv64, out: seq<Move>, ghost c: Core, ghost k: Square)
    returns (out': seq<Move>)
    requires side == c.side && rights == c.castling && OccupancyOf(occ, c.board)
    requires Sound(c) && KingAt(c.board, c.side, k) && Right(info, c.board, c.side, k)
    ensures out' == out + Castles(c)
  {
    hide *;
    CastlesAre(c);
    CastleFlags();
    Nothing(out);
    if info.checkers != 0 {
      NoCastlesInCheck(c, info, k);
      return out;
    }
    out' := EmitCastle(info, KingCastle, side, rights, occ, out, c, k);
    out' := EmitCastle(info, QueenCastle, side, rights, occ, out', c, k);
  }

  lemma CastleFlags()
    ensures KingCastle.IsCastle() && QueenCastle.IsCastle()
  {}

  lemma NoCastlesInCheck(c: Core, info: MaskInfo, k: Square)
    requires Sound(c) && KingAt(c.board, c.side, k) && Right(info, c.board, c.side, k) && info.checkers != 0
    ensures Castles(c) == []
  {
    CastlesAre(c);
    CastlePasses(c, info, k, KingCastle);
    CastlePasses(c, info, k, QueenCastle);
    TryIs(c, CastleMove(c.side, KingCastle));
    TryIs(c, CastleMove(c.side, QueenCastle));
    hide Sound, KingAt, Right, Contains, HasRight, Passes, PathEmpty, Try, Castles, CastleMove;
  }

  lemma CastlesAre(c: Core)
    requires Sound(c)
    ensures Castles(c) == Try(c, CastleMove(c.side, KingCastle)) + Try(c, CastleMove(c.side, QueenCastle))
  {
    hide Sound, Passes, Try;
  }

  // ---- Pawns ----

  function FourPromotions(from: Square, to: Square): seq<Move> {
    [Move(from, to, KnightPromo), Move(from, to, BishopPromo), Move(from, to, RookPromo), Move(from, to, QueenPromo)]
  }

  function FourPromotionCaptures(from: Square, to: Square): seq<Move> {
    [Move(from, to, KnightPromoCapture), Move(from, to, BishopPromoCapture),
     Move(from, to, RookPromoCapture), Move(from, to, QueenPromoCapture)]
  }

  lemma TryIs(c: Core, mv: Move)
    requires Sound(c)
    ensures Try(c, mv) == if Passes(c, mv) then [mv] else []
  {
    hide Sound, Passes;
  }

  function Single(c: Core, from: Square, to: Square): seq<Move> {
    if Rank(to) == LastRank(c.side) then FourPromotions(from, to) else [Move(from, to, Quiet)]
  }

  /** The push by one square, by the masks. */
  lemma SinglesAre(c: Core, info: MaskInfo, k: Square, from: Square)
    requires Sound(c) && KingAt(c.board, c.side, k) && Right(info, c.board, c.side, k) && PawnOn(c, from)
    ensures |info.pinRays| == 64 && 0 <= from + Forward(c.side) < 64
    ensures var to: Square := from + Forward(c.side);
            SinglePush(c, from) ==
            if c.board[to].None? && Contains(info.pushMask, to) && PinAllows(info, from, to) then Single(c, from, to) else []
  {
    PawnRoom(c, from);
    RaysAre64(info, c.board, c.side, k);
    var to: Square := from + Forward(c.side);
    hide Sound, KingAt, Right, Contains, Passes, Try, PinAllows, PawnOn;
    if Rank(to) == LastRank(c.side) {
      PushPasses(c, info, k, from, KnightPromo);
      PushPasses(c, info, k, from, BishopPromo);
      PushPasses(c, info, k, from, RookPromo);
      PushPasses(c, info, k, from, QueenPromo);
      TryIs(c, Move(from, to, KnightPromo));
      TryIs(c, Move(from, to, BishopPromo));
      TryIs(c, Move(from, to, RookPromo));
      TryIs(c, Move(from, to, QueenPromo));
    } else {
      PushPasses(c, info, k, from, Quiet);
      TryIs(c, Move(from, to, Quiet));
    }
  }

  /** The push by two, by the masks. */
  lemma DoublesAre(c: Core, info: MaskInfo, k: Square, from: Square)
    requires Sound(c) && KingAt(c.board, c.side, k) && Right(info, c.board, c.side, k) && PawnOn(c, from)
    ensures |info.pinRays| == 64 && 0 <= from + Forward(c.side) < 64
    ensures Rank(from) != PawnHome(c.side) ==> DoublePushes(c, from) == []
    ensures Rank(from) == PawnHome(c.side) ==>
              && 0 <= from + 2 * Forward(c.side) < 64
              && var far: Square := from + 2 * Forward(c.side);
              DoublePushes(c, from) ==
              if c.board[from + Forward(c.side)].None? && Contains(info.pushMask, far) && PinAllows(info, from, far)
              then [Move(from, far, DoublePush)] else []
  {
    PawnRoom(c, from);
    RaysAre64(info, c.board, c.side, k);
    if Rank(from) == PawnHome(c.side) {
      DoublePasses(c, info, k, from);
      TryIs(c, Move(from, from + 2 * Forward(c.side), DoublePush));
    }
    hide Sound, KingAt, Right, Contains, Passes, Try, PinAllows, PawnOn;
  }

  function PawnCaptureMoves(c: Core, from: Square, to: Square): seq<Move> {
    if Rank(to) == LastRank(c.side) then FourPromotionCaptures(from, to) else [Move(from, to, Capture)]
  }

  lemma CapturesOnAre(c: Core, info: MaskInfo, k: Square, from: Square, to: Square)
    requires Sound(c) && KingAt(c.board, c.side, k) && Right(info, c.board, c.side, k) && PawnOn(c, from)
    ensures |info.pinRays| == 64
    ensures CapturesOn(c, from, to) ==
            if PawnHits(c.side, from, to) && Ours(c.board, c.side.Flip(), to)
               && Contains(info.captureMask, to) && PinAllows(info, from, to)
            then PawnCaptureMoves(c, from, to) else []
  {
    RaysAre64(info, c.board, c.side, k);
    hide Sound, KingAt, Right, Contains, Passes, Try, PinAllows, PawnOn, PawnHits, Ours;
    if Rank(to) == LastRank(c.side) {
      PawnCapturePasses(c, info, k, from, to, KnightPromoCapture);
      PawnCapturePasses(c, info, k, from, to, BishopPromoCapture);
      PawnCapturePasses(c, info, k, from, to, RookPromoCapture);
      PawnCapturePasses(c, info, k, from, to, QueenPromoCapture);
      TryIs(c, Move(from, to, KnightPromoCapture));
      TryIs(c, Move(from, to, BishopPromoCapture));
      TryIs(c, Move(from, to, RookPromoCapture));
      TryIs(c, Move(from, to, QueenPromoCapture));
    } else {
      PawnCapturePasses(c, info, k, from, to, Capture);
      TryIs(c, Move(from, to, Capture));
    }
  }

  /** The push by one square, with four promotions on the last rank. */
  method EmitSingle(info: MaskInfo, from: Square, to: Square, side: Color, out: seq<Move>, ghost c: Core)
    returns (out': seq<Move>)
    requires side == c.side && |info.pinRays| == 64
    ensures out' == out + if Contains(info.pushMask, to) && PinAllows(info, from, to) then Single(c, from, to) else []
  {
    hide Contains, PinAllows;
    out' := out;
    if Contains(info.pushMask, to) && PinAllows(info, from, to) {
      if Rank(to) == LastRank(side) {
        out' := out' + FourPromotions(from, to);
      } else {
        out' := out' + [Move(from, to, Quiet)];
      }
    }
  }

  /** The push by two squares, from home. */
  method EmitDouble(info: MaskInfo, from: Square, far: Square, out: seq<Move>) returns (out': seq<Move>)
    requires |info.pinRays| == 64
    ensures out' == out + if Contains(info.pushMask, far) && PinAllows(info, from, far) then [Move(from, far, DoublePush)] else []
  {
    out' := out;
    if Contains(info.pushMask, far) && PinAllows(info, from, far) {
      out' := out' + [Move(from, far, DoublePush)];
    }
  }

  /** The pushes of one pawn: a double push is looked at only when the single one is free. */
  method EmitPushes(info: MaskInfo, from: Square, side: Color, occ: bv64, out: seq<Move>, ghost c: Core, ghost k: Square)
    returns (out': seq<Move>)
    requires side == c.side && OccupancyOf(occ, c.board)
    requires Sound(c) && KingAt(c.board, c.side, k) && Right(info, c.board, c.side, k) && PawnOn(c, from)
    ensures out' == out + Pushes(c, from)
  {
    hide *;
    SinglesAre(c, info, k, from);
    DoublesAre(c, info, k, from);
    PushesJoin(c, from, out);
    var to: Square := from + Forward(side);
    OccupiedAt(occ, c.board, to);
    out' := out;
    if !Contains(occ, to) {
      out' := EmitSingle(info, from, to, side, out', c);
      if Rank(from) == PawnHome(side) {
        out' := EmitDouble(info, from, from + 2 * Forward(side), out');
      }
    }
  }

  lemma PushesJoin(c: Core, from: Square, out: seq<Move>)
    requires Sound(c) && PawnOn(c, from)
    ensures out + Pushes(c, from) == (out + SinglePush(c, from)) + DoublePushes(c, from)
  {
    hide Sound, PawnOn, SinglePush, DoublePushes;
  }

  lemma OccupiedAt(occ: bv64, board: Board, s: Square)
    requires OccupancyOf(occ, board)
    ensures Contains(occ, s) <==> board[s].Some?
  {
    hide Contains;
  }

  lemma {:induction false} SkipCaptures(c: Core, from: Square, n: nat, m: nat)
    requires Sound(c) && n <= m <= 64
    requires forall t: Square :: n <= t < m ==> CapturesOn(c, from, t) == []
    ensures PawnCaptures(c, from, n) == PawnCaptures(c, from, m)
    decreases m - n
  {
    hide Sound, CapturesOn;
    if n < m { SkipCaptures(c, from, n + 1, m); }
  }

  /** The next target splits its captures off the rest of the list. */
  lemma NextCapture(c: Core, from: Square, squares: seq<Square>, n: nat, i: nat, out: seq<Move>)
    requires Sound(c) && n <= 64 && i < |squares| && Ascending(squares)
    requires forall t: Square :: t !in squares ==> CapturesOn(c, from, t) == []
    requires forall j :: 0 <= j < |squares| ==> (squares[j] < n <==> j < i)
    ensures var to: int := squares[i];
            && (forall j :: 0 <= j < |squares| ==> (squares[j] < to + 1 <==> j < i + 1))
            && out + PawnCaptures(c, from, n) == (out + CapturesOn(c, from, to)) + PawnCaptures(c, from, to + 1)
  {
    hide Sound, CapturesOn;
    var to: int := squares[i];
    assert forall j :: 0 <= j < |squares| ==> squares[j] < n || squares[j] >= to;
    assert forall t: Square :: n <= t < to ==> t !in squares;
    SkipCaptures(c, from, n, to);
    Regroup(out, CapturesOn(c, from, to), PawnCaptures(c, from, to + 1));
  }

  lemma LastCapture(c: Core, from: Square, squares: seq<Square>, n: nat)
    requires Sound(c) && n <= 64
    requires forall t: Square :: t !in squares ==> CapturesOn(c, from, t) == []
    requires forall j :: 0 <= j < |squares| ==> squares[j] < n
    ensures PawnCaptures(c, from, n) == []
  {
    hide Sound, CapturesOn;
    assert forall t: Square :: n <= t < 64 ==> t !in squares;
    SkipCaptures(c, from, n, 64);
  }

  /** The diagonal captures of one pawn. */
  method EmitPawnCaptures(l: AttackTables, info: MaskInfo, from: Square, side: Color, men: Men, out: seq<Move>,
                          ghost c: Core, ghost k: Square)
    returns (out': seq<Move>)
    requires Ready(l) && side == c.side && Setting(c, k, info, men) && PawnOn(c, from)
    ensures out' == out + PawnCaptures(c, from, 0)
  {
    hide *;
    SettingParts(c, k, info, men);
    RaysAre64(info, c.board, c.side, k);
    var targets := And(PawnAttacks(l, side, from), men.enemy);
    CaptureTargets(l, info, from, men, targets, c, k);
    var squares := Drain(targets);
    out' := EmitCaptureList(info, from, side, squares, out, c);
  }

  lemma CaptureTargets(l: AttackTables, info: MaskInfo, from: Square, men: Men, targets: bv64, c: Core, k: Square)
    requires Ready(l) && Setting(c, k, info, men) && PawnOn(c, from)
    requires targets == And(PawnAttacks(l, c.side, from), men.enemy)
    ensures |info.pinRays| == 64
    ensures forall t: Square ::
              CapturesOn(c, from, t) == if Contains(targets, t) && Contains(info.captureMask, t) && PinAllows(info, from, t)
              then PawnCaptureMoves(c, from, t) else []
  {
    RaysAre64(info, c.board, c.side, k);
    hide Contains, Sound, KingAt, Right, Ready, And, CapturesOn, PawnOn, PawnHits, PinAllows, Ours, PawnCaptureMoves;
    forall t: Square
      ensures CapturesOn(c, from, t) == if Contains(targets, t) && Contains(info.captureMask, t) && PinAllows(info, from, t)
                                        then PawnCaptureMoves(c, from, t) else []
    {
      AndContains(PawnAttacks(l, c.side, from), men.enemy, t);
      CapturesOnAre(c, info, k, from, t);
    }
  }

  /** The loop over the capture targets of a pawn. */
  method EmitCaptureList(info: MaskInfo, from: Square, side: Color, squares: seq<Square>, out: seq<Move>, ghost c: Core)
    returns (out': seq<Move>)
    requires Sound(c) && side == c.side && Ascending(squares) && |info.pinRays| == 64
    requires forall t: Square ::
               CapturesOn(c, from, t) == if t in squares && Contains(info.captureMask, t) && PinAllows(info, from, t)
               then PawnCaptureMoves(c, from, t) else []
    ensures out' == out + PawnCaptures(c, from, 0)
  {
    hide Contains, Sound, CapturesOn, PawnCaptures, PinAllows, Ascending;
    out' := out;
    ghost var n: nat := 0;
    for i := 0 to |squares|
      invariant n <= 64
      invariant forall j :: 0 <= j < |squares| ==> (squares[j] < n <==> j < i)
      invariant out' + PawnCaptures(c, from, n) == out + PawnCaptures(c, from, 0)
    {
      var to := squares[i];
      assert to in squares;
      NextCapture(c, from, squares, n, i, out');
      ghost var here: int := to;
      n := here + 1;
      if Contains(info.captureMask, to) && PinAllows(info, from, to) {
        if Rank(to) == LastRank(side) {
          out' := out' + FourPromotionCaptures(from, to);
        } else {
          out' := out' + [Move(from, to, Capture)];
        }
      } else {
        Nothing(out');
      }
    }
    LastCapture(c, from, squares, n);
    Nothing(out');
  }

  lemma {:induction false} SkipPawns(c: Core, n: nat, m: nat)
    requires Sound(c) && n <= m <= 64
    requires forall s: Square :: n <= s < m ==> !PawnOn(c, s)
    ensures PawnMoves(c, n) == PawnMoves(c, m)
    decreases m - n
  {
    hide Sound, PawnOn, Pushes, PawnCaptures;
    if n < m { SkipPawns(c, n + 1, m); }
  }

  lemma NextPawn(c: Core, squares: seq<Square>, n: nat, i: nat, out: seq<Move>)
    requires Sound(c) && n <= 64 && i < |squares| && Ascending(squares)
    requires forall t: Square :: t in squares <==> PawnOn(c, t)
    requires forall j :: 0 <= j < |squares| ==> (squares[j] < n <==> j < i)
    ensures var from: int := squares[i];
            && PawnOn(c, from)
            && (forall j :: 0 <= j < |squares| ==> (squares[j] < from + 1 <==> j < i + 1))
            && out + PawnMoves(c, n) == ((out + Pushes(c, from)) + PawnCaptures(c, from, 0)) + PawnMoves(c, from + 1)
  {
    hide Sound, PawnOn, Pushes, PawnCaptures;
    var from: int := squares[i];
    assert squares[i] in squares;
    assert forall j :: 0 <= j < |squares| ==> squares[j] < n || squares[j] >= from;
    assert forall t: Square :: n <= t < from ==> t !in squares;
    SkipPawns(c, n, from);
    Regroup(out, Pushes(c, from), PawnCaptures(c, from, 0));
    Regroup(out, Pushes(c, from) + PawnCaptures(c, from, 0), PawnMoves(c, from + 1));
  }

  lemma LastPawn(c: Core, squares: seq<Square>, n: nat)
    requires Sound(c) && n <= 64
    requires forall t: Square :: t in squares <==> PawnOn(c, t)
    requires forall j :: 0 <= j < |squares| ==> squares[j] < n
    ensures PawnMoves(c, n) == []
  {
    hide Sound, PawnOn, Pushes, PawnCaptures;
    assert forall t: Square :: n <= t < 64 ==> t !in squares;
    SkipPawns(c, n, 64);
  }

  /** The pawn loop of `emit_pawn_moves`. */
  method EmitPawns(l: AttackTables, info: MaskInfo, pawns: bv64, side: Color, occ: bv64, men: Men, out: seq<Move>,
                   ghost c: Core, ghost k: Square)
    returns (out': seq<Move>)
    requires Ready(l) && side == c.side && Setting(c, k, info, men) && OccupancyOf(occ, c.board)
    requires forall t: Square :: Contains(pawns, t) <==> PawnOn(c, t)
    ensures out' == out + PawnMoves(c, 0)
  {
    hide *;
    SettingParts(c, k, info, men);
    var squares := Drain(pawns);
    out' := out;
    ghost var n: nat := 0;
    for i := 0 to |squares|
      invariant n <= 64
      invariant forall j :: 0 <= j < |squares| ==> (squares[j] < n <==> j < i)
      invariant out' + PawnMoves(c, n) == out + PawnMoves(c, 0)
    {
      var from := squares[i];
      NextPawn(c, squares, n, i, out');
      n := from + 1;
      out' := EmitPushes(info, from, side, occ, out', c, k);
      out' := EmitPawnCaptures(l, info, from, side, men, out', c, k);
    }
    LastPawn(c, squares, n);
    Nothing(out');
  }

  lemma SettingParts(c: Core, k: Square, info: MaskInfo, men: Men)
    requires Setting(c, k, info, men)
    ensures Sound(c) && KingAt(c.board, c.side, k) && Right(info, c.board, c.side, k)
  {}

  // ---- En passant ----

  lemma {:induction false} SkipEnPassants(c: Core, n: nat, m: nat)
    requires Sound(c) && n <= m <= 64 && c.ep.Some?
    requires forall s: Square :: n <= s < m && PawnOn(c, s) ==> !Passes(c, Move(s, c.ep.value, EnPassant))
    ensures EnPassants(c, n) == EnPassants(c, m)
    decreases m - n
  {
    hide Sound, PawnOn, Passes;
    if n < m { SkipEnPassants(c, n + 1, m); }
  }

  lemma NextEnPassant(c: Core, squares: seq<Square>, n: nat, i: nat, out: seq<Move>)
    requires Sound(c) && n <= 64 && c.ep.Some? && i < |squares| && Ascending(squares)
    requires forall t: Square :: t in squares ==> PawnOn(c, t)
    requires forall t: Square :: PawnOn(c, t) && t !in squares ==> !Passes(c, Move(t, c.ep.value, EnPassant))
    requires forall j :: 0 <= j < |squares| ==> (squares[j] < n <==> j < i)
    ensures var from: int := squares[i];
            && PawnOn(c, from)
            && (forall j :: 0 <= j < |squares| ==> (squares[j] < from + 1 <==> j < i + 1))
            && out + EnPassants(c, n) == (out + Try(c, Move(from, c.ep.value, EnPassant))) + EnPassants(c, from + 1)
  {
    hide Sound, PawnOn, Passes, Try;
    var from: int := squares[i];
    assert squares[i] in squares;
    assert forall j :: 0 <= j < |squares| ==> squares[j] < n || squares[j] >= from;
    assert forall t: Square :: n <= t < from ==> t !in squares;
    SkipEnPassants(c, n, from);
    Regroup(out, Try(c, Move(from, c.ep.value, EnPassant)), EnPassants(c, from + 1));
  }

  lemma LastEnPassant(c: Core, squares: seq<Square>, n: nat)
    requires Sound(c) && n <= 64 && c.ep.Some?
    requires forall t: Square :: PawnOn(c, t) && t !in squares ==> !Passes(c, Move(t, c.ep.value, EnPassant))
    requires forall j :: 0 <= j < |squares| ==> squares[j] < n
    ensures EnPassants(c, n) == []
  {
    hide Sound, PawnOn, Passes, Try;
    assert forall t: Square :: n <= t < 64 ==> t !in squares;
    SkipEnPassants(c, n, 64);
  }

  /** Occupancy after the capture: two pawns lifted, one set down. */
  lemma EpOccupancy(board: Board, after: Board, us: Color, f: Square, cap: Square, to: Square, occ: bv64)
    requires EpBoards(board, after, us, f, cap, to) && OccupancyOf(occ, board) && f != cap
    ensures OccupancyOf(Or(Xor(Xor(occ, With(0, f)), With(0, cap)), With(0, to)), after)
  {
    hide Contains, Xor, Or, With;
    EmptyContains();
    WithContains(0, f);
    WithContains(0, cap);
    WithContains(0, to);
    forall s: Square
      ensures Contains(Or(Xor(Xor(occ, With(0, f)), With(0, cap)), With(0, to)), s) <==> after[s].Some?
    {
      XorContains(occ, With(0, f), s);
      XorContains(Xor(occ, With(0, f)), With(0, cap), s);
      OrContains(Xor(Xor(occ, With(0, f)), With(0, cap)), With(0, to), s);
    }
  }

  /** The sliders of the side not moving, by their lines. */
  datatype Sliders = Sliders(orth: bv64, diag: bv64)

  ghost predicate SlidersOf(s: Sliders, board: Board, them: Color) {
    MenOf(s.orth, board, them, RookSlider) && MenOf(s.diag, board, them, BishopSlider)
  }

  /** The two attack tests of an en passant capture find a slider exactly when one sees the king. */
  lemma EpSliders(board: Board, after: Board, us: Color, f: Square, cap: Square, to: Square, k: Square, post: bv64, s: Sliders)
    requires EpBoards(board, after, us, f, cap, to) && OccupancyOf(post, after) && SlidersOf(s, board, us.Flip())
    ensures And(Attacks(RookSlider, k, post), s.orth) == 0 && And(Attacks(BishopSlider, k, post), s.diag) == 0 <==>
            SlidersBlocked(after, us, k)
  {
    hide Contains, And, Attacks, OccupancyOf, Clear, Lined;
    var straight := And(Attacks(RookSlider, k, post), s.orth);
    var slanted := And(Attacks(BishopSlider, k, post), s.diag);
    NonemptyIff(straight);
    NonemptyIff(slanted);
    forall a: Square
      ensures Contains(straight, a) || Contains(slanted, a) <==>
              Ours(after, us.Flip(), a) && Aims(after[a].value.kind, a, k) && Clear(after, k, a)
    {
      AndContains(Attacks(RookSlider, k, post), s.orth, a);
      AndContains(Attacks(BishopSlider, k, post), s.diag, a);
      SliderSees(RookSlider, k, post, after, a);
      SliderSees(BishopSlider, k, post, after, a);
      LinesSymmetric(k, a, k);
      SlidersStay(board, after, us, f, cap, to, a);
    }
  }

  lemma SlidersStay(board: Board, after: Board, us: Color, f: Square, cap: Square, to: Square, a: Square)
    requires EpBoards(board, after, us, f, cap, to)
    ensures forall slider: Slider ::
              Ours(after, us.Flip(), a) && SlidesOn(after[a].value.kind, slider) <==>
              Ours(board, us.Flip(), a) && SlidesOn(board[a].value.kind, slider)
  {}

  function PostOccupancy(occ: bv64, from: Square, cap: Square, ep: Square): bv64 {
    Or(Xor(Xor(occ, With(0, from)), With(0, cap)), With(0, ep))
  }

  lemma EpTests(c: Core, from: Square, ep: Square, k: Square, occ: bv64, s: Sliders)
    requires Sound(c) && KingAt(c.board, c.side, k) && c.ep == Some(ep)
    requires OccupancyOf(occ, c.board) && SlidersOf(s, c.board, c.side.Flip())
    requires PawnOn(c, from) && PawnHits(c.side, from, ep) && AtMostOneCheck(c.board, c.side, k)
    ensures 0 <= ep - Forward(c.side) < 64
    ensures var post := PostOccupancy(occ, from, ep - Forward(c.side), ep);
            Try(c, Move(from, ep, EnPassant)) ==
            if And(Attacks(RookSlider, k, post), s.orth) == 0 && And(Attacks(BishopSlider, k, post), s.diag) == 0
            then [Move(from, ep, EnPassant)] else []
  {
    var mv := Move(from, ep, EnPassant);
    EpPasses(c, k, from);
    TryIs(c, mv);
    EpBoardsAre(c, mv);
    VictimElsewhere(c, mv);
    hide Sound, KingAt, OccupancyOf, SlidersOf, PawnOn, PawnHits, AtMostOneCheck, SlidersBlocked, NextBoard, EpBoards,
      Xor, Or, And, With, Attacks, Try, Passes, Applicable;
    EpOccupancy(c.board, NextBoard(c, mv), c.side, from, ep - Forward(c.side), ep, occ);
    EpSliders(c.board, NextBoard(c, mv), c.side, from, ep - Forward(c.side), ep, k,
              PostOccupancy(occ, from, ep - Forward(c.side), ep), s);
  }

  /** One en passant attacker. */
  method TryEnPassant(l: AttackTables, from: Square, ep: Square, king: Square, side: Color, occ: bv64, sliders: Sliders,
                      out: seq<Move>, ghost c: Core)
    returns (out': seq<Move>)
    requires Ready(l) && Sound(c) && KingAt(c.board, c.side, king) && side == c.side && c.ep == Some(ep)
    requires OccupancyOf(occ, c.board) && SlidersOf(sliders, c.board, side.Flip())
    requires PawnOn(c, from) && PawnHits(side, from, ep) && AtMostOneCheck(c.board, side, king)
    ensures out' == out + Try(c, Move(from, ep, EnPassant))
  {
    hide *;
    EpTests(c, from, ep, king, occ, sliders);
    Nothing(out);
    var post := PostOccupancy(occ, from, ep - Forward(side), ep);
    if And(RookAttacks(l, king, post), sliders.orth) != 0 {
      return out;
    }
    if And(BishopAttacks(l, king, post), sliders.diag) != 0 {
      return out;
    }
    out' := out + [Move(from, ep, EnPassant)];
  }

  lemma VictimElsewhere(c: Core, mv: Move)
    requires Sound(c) && Applicable(c, mv) && mv.flag.EnPassant?
    ensures CaptureSquare(c, mv) != mv.from && 0 <= mv.to - Forward(c.side) < 64
  {
    VictimIsEnemy(c, mv);
  }

  /** The en passant block of `emit_pawn_moves`, entered with at most one checker. */
  method EmitEnPassants(l: AttackTables, ep: Option<Square>, pawns: bv64, king: Square, side: Color, occ: bv64, sliders: Sliders,
                        out: seq<Move>, ghost c: Core)
    returns (out': seq<Move>)
    requires Ready(l) && Sound(c) && KingAt(c.board, c.side, king) && side == c.side && c.ep == ep
    requires OccupancyOf(occ, c.board) && SlidersOf(sliders, c.board, side.Flip())
    requires forall t: Square :: Contains(pawns, t) <==> PawnOn(c, t)
    requires AtMostOneCheck(c.board, side, king)
    ensures out' == out + if c.ep.Some? then EnPassants(c, 0) else []
  {
    hide *;
    Nothing(out);
    if ep.None? {
      return out;
    }
    var attackers := And(PawnAttacks(l, side.Flip(), ep.value), pawns);
    EpAttackers(l, c, king, attackers, pawns);
    var squares := Drain(attackers);
    out' := out;
    ghost var n: nat := 0;
    for i := 0 to |squares|
      invariant n <= 64
      invariant forall j :: 0 <= j < |squares| ==> (squares[j] < n <==> j < i)
      invariant out' + EnPassants(c, n) == out + EnPassants(c, 0)
    {
      var from := squares[i];
      NextEnPassant(c, squares, n, i, out');
      ghost var here: int := from;
      n := here + 1;
      assert from in squares;
      out' := TryEnPassant(l, from, ep.value, king, side, occ, sliders, out', c);
    }
    LastEnPassant(c, squares, n);
    Nothing(out');
  }

  lemma EpAttackers(l: AttackTables, c: Core, k: Square, attackers: bv64, pawns: bv64)
    requires Ready(l) && Sound(c) && KingAt(c.board, c.side, k) && c.ep.Some?
    requires forall t: Square :: Contains(pawns, t) <==> PawnOn(c, t)
    requires attackers == And(PawnAttacks(l, c.side.Flip(), c.ep.value), pawns)
    ensures forall t: Square :: Contains(attackers, t) <==> PawnOn(c, t) && PawnHits(c.side, t, c.ep.value)
    ensures forall t: Square :: PawnOn(c, t) && !Contains(attackers, t) ==> !Passes(c, Move(t, c.ep.value, EnPassant))
  {
    hide Contains, And, Ready, Sound, PawnOn, PawnHits, Passes, KingAt;
    forall t: Square
      ensures Contains(attackers, t) <==> PawnOn(c, t) && PawnHits(c.side, t, c.ep.value)
      ensures PawnOn(c, t) && !Contains(attackers, t) ==> !Passes(c, Move(t, c.ep.value, EnPassant))
    {
      AndContains(PawnAttacks(l, c.side.Flip(), c.ep.value), pawns, t);
      LeapsSymmetric(c.side.Flip(), c.ep.value, t);
      if PawnOn(c, t) { EpPasses(c, k, t); }
    }
  }

  // ---- generate_moves ----

  lemma OccupancyByColor(pos: Position)
    requires pos.Agree()
    ensures |pos.colorBits| == 2
    ensures forall color: Color, s: Square :: Contains(pos.colorBits[color.Index()], s) <==> Ours(pos.mailbox, color, s)
  {
    hide Contains;
  }

  /** With two checkers or more only the king has moves; with fewer the en passant block may be entered. */
  lemma ByCheckers(c: Core, info: MaskInfo, k: Square)
    requires Sound(c) && KingAt(c.board, c.side, k) && Right(info, c.board, c.side, k)
    ensures Count(info.checkers) <= 1 ==> AtMostOneCheck(c.board, c.side, k)
    ensures Count(info.checkers) > 1 ==> OtherMoves(c) == []
  {
    CheckersAre(info, c.board, c.side, k);
    hide Contains, Sound, KingAt, Right, Count, CheckedBy, OtherMoves;
    CountAtMostOne(info.checkers);
    if Count(info.checkers) > 1 {
      var a: Square, b: Square :| Contains(info.checkers, a) && Contains(info.checkers, b) && a != b;
      DoubleCheckKingOnly(c, k, a, b);
    }
  }

  lemma CheckersAre(info: MaskInfo, board: Board, us: Color, k: Square)
    requires Right(info, board, us, k)
    ensures forall a: Square :: Contains(info.checkers, a) <==> CheckedBy(board, us, k, a)
  {
    hide Contains, CheckedBy, PinsKnown, Answers, Attacked;
  }

  lemma Chain(out: seq<Move>, a: seq<Move>, b: seq<Move>, c: seq<Move>, d: seq<Move>, e: seq<Move>, f: seq<Move>)
    ensures out + (((a + b) + c) + ((d + e) + f)) == (((((out + a) + b) + c) + d) + e) + f
  {
    Regroup(out, (a + b) + c, (d + e) + f);
    Regroup(out, a + b, c);
    Regroup(out, a, b);
    Regroup(((out + a) + b) + c, d + e, f);
    Regroup(((out + a) + b) + c, d, e);
  }

  lemma OtherOrder(c: Core, out: seq<Move>)
    requires Sound(c)
    ensures out + OtherMoves(c) ==
            (((((out + PawnMoves(c, 0)) + if c.ep.Some? then EnPassants(c, 0) else []) + OfKind(c, Knight, 0))
              + OfKind(c, Bishop, 0)) + OfKind(c, Rook, 0)) + OfKind(c, Queen, 0)
  {
    hide Sound, FromSquare, Castles, PawnMoves, EnPassants, OfKind;
    Chain(out, PawnMoves(c, 0), if c.ep.Some? then EnPassants(c, 0) else [], OfKind(c, Knight, 0),
          OfKind(c, Bishop, 0), OfKind(c, Rook, 0), OfKind(c, Queen, 0));
  }

  lemma KingOrder(c: Core, k: Square)
    requires Sound(c) && KingAt(c.board, c.side, k)
    ensures (([] + FromSquare(c, k, 0)) + Castles(c)) + OtherMoves(c) == Gen(c)
    ensures OtherMoves(c) == [] ==> ([] + FromSquare(c, k, 0)) + Castles(c) == Gen(c)
  {
    KingIs(c.board, c.side, k);
    hide Sound, FromSquare, Castles, OtherMoves, KingAt, KingOf;
    assert [] + FromSquare(c, k, 0) == FromSquare(c, k, 0);
    assert KingMoves(c) == FromSquare(c, k, 0) + Castles(c);
    hide KingMoves;
    assert Gen(c) == KingMoves(c) + OtherMoves(c);
    if OtherMoves(c) == [] { Nothing(KingMoves(c)); }
  }

  /** Everything but the king's moves, when there is at most one checker. */
  method EmitOthers(pos: Position, l: AttackTables, info: MaskInfo, men: Men, occ: bv64, king: Square, out: seq<Move>)
    returns (out': seq<Move>)
    requires pos.Agree() && Ready(l) && Setting(pos.Recorded(), king, info, men) && OccupancyOf(occ, pos.mailbox)
    requires AtMostOneCheck(pos.mailbox, pos.side, king)
    ensures Sound(pos.Recorded()) && out' == out + OtherMoves(pos.Recorded())
  {
    hide *;
    ghost var c := pos.Recorded();
    RecordedIs(pos);
    SettingParts(c, king, info, men);
    OtherOrder(c, out);
    var us := pos.side;
    var pawns := pos.PiecesColored(us, Pawn);
    PiecesOf(pos, us);
    PawnOnIs(c);
    out' := EmitPawns(l, info, pawns, us, occ, men, out, c, king);
    var queens := pos.PiecesColored(us.Flip(), Queen);
    var sliders := Sliders(Or(pos.PiecesColored(us.Flip(), Rook), queens), Or(pos.PiecesColored(us.Flip(), Bishop), queens));
    EnemySliders(pos, us.Flip(), sliders);
    out' := EmitEnPassants(l, pos.ep, pawns, king, us, occ, sliders, out', c);
    out' := EmitKnights(l, info, pos.PiecesColored(us, Knight), men, out', c, king);
    AreSliders();
    out' := EmitKind(l, info, Bishop, pos.PiecesColored(us, Bishop), occ, men, out', c, king);
    out' := EmitKind(l, info, Rook, pos.PiecesColored(us, Rook), occ, men, out', c, king);
    out' := EmitKind(l, info, Queen, pos.PiecesColored(us, Queen), occ, men, out', c, king);
  }

  lemma RecordedIs(pos: Position)
    ensures pos.Recorded().board == pos.mailbox && pos.Recorded().side == pos.side
    ensures pos.Recorded().ep == pos.ep && pos.Recorded().castling == pos.castling
  {}

  lemma PiecesOf(pos: Position, us: Color)
    requires pos.Agree()
    ensures forall kind: PieceKind, s: Square :: Contains(pos.PiecesColored(us, kind), s) <==> Holds(pos.mailbox, s, us, kind)
  {
    hide Contains, KindsAgree, ColorsAgree;
    forall kind: PieceKind
      ensures forall s: Square :: Contains(pos.PiecesColored(us, kind), s) <==> Holds(pos.mailbox, s, us, kind)
    {
      pos.PiecesColoredAt(us, kind);
    }
  }

  lemma PawnOnIs(c: Core)
    ensures forall s: Square :: PawnOn(c, s) <==> Holds(c.board, s, c.side, Pawn)
  {}

  lemma AreSliders()
    ensures IsSlider(Bishop) && IsSlider(Rook) && IsSlider(Queen)
  {}

  lemma EnemySliders(pos: Position, them: Color, sliders: Sliders)
    requires pos.Agree()
    requires sliders.orth == Or(pos.PiecesColored(them, Rook), pos.PiecesColored(them, Queen))
    requires sliders.diag == Or(pos.PiecesColored(them, Bishop), pos.PiecesColored(them, Queen))
    ensures SlidersOf(sliders, pos.mailbox, them)
  {
    hide Contains, Or, KindsAgree, ColorsAgree, MenOf;
    MenOfKinds(pos, them, RookSlider, sliders.orth);
    MenOfKinds(pos, them, BishopSlider, sliders.diag);
  }

  /** The list of moves of a valid position. */
  method GenerateMoves(pos: Position, l: AttackTables) returns (moves: seq<Move>)
    requires pos.Valid() && Ready(l)
    ensures moves == Gen(pos.Recorded())
  {
    hide *;
    ghost var c := pos.Recorded();
    RecordedIs(pos);
    ValidForMoves(pos);
    var us := pos.side;
    var king := pos.kings[us.Index()];
    var info := ComputeMasks(pos, l, us, king);
    var men := Men(pos.colorBits[us.Index()], pos.colorBits[us.Flip().Index()]);
    SettingHere(pos, king, info, men);
    var occ := AllOccupied(pos);
    KingOrder(c, king);
    ByCheckers(c, info, king);
    moves := EmitKingSteps(l, info, king, men, [], c);
    moves := EmitCastles(info, us, pos.castling, occ, moves, c, king);
    if Count(info.checkers) <= 1 {
      moves := EmitOthers(pos, l, info, men, occ, king, moves);
    }
  }

  lemma ValidForMoves(pos: Position)
    requires pos.Valid()
    ensures pos.Agree() && Sound(pos.Recorded()) && |pos.colorBits| == 2 && |pos.kings| == 2
    ensures KingAt(pos.mailbox, pos.side, pos.kings[pos.side.Index()])
    ensures KingAt(pos.mailbox, pos.side.Flip(), pos.kings[pos.side.Flip().Index()])
  {
    hide Contains, Sound, KingAt;
  }

  lemma SettingHere(pos: Position, king: Square, info: MaskInfo, men: Men)
    requires pos.Agree() && Sound(pos.Recorded()) && |pos.colorBits| == 2
    requires KingAt(pos.mailbox, pos.side, king) && Right(info, pos.mailbox, pos.side, king)
    requires men == Men(pos.colorBits[pos.side.Index()], pos.colorBits[pos.side.Flip().Index()])
    ensures Setting(pos.Recorded(), king, info, men)
  {
    hide Contains, Sound, KingAt, Right;
    OccupancyByColor(pos);
    hide KindsAgree, ColorsAgree;
  }
}
