/** How pieces reach their targets, the sixteen-bit move encoding, and moves as UCI text. */
module Moves {
  import opened Wrappers
  import opened Chess
  import opened Rules
  import opened Text
  import opened SlowAttacks
  import opened Placement
  import opened Bitboards

  // ---- Pseudo-legal moves ----

  predicate PawnHits(side: Color, from: Square, to: Square) {
    Rank(to) == Rank(from) + Forward(side) / 8 && Distance(File(from), File(to)) == 1
  }

  predicate KingStep(from: Square, to: Square) {
    from != to && Distance(File(from), File(to)) <= 1 && Distance(Rank(from), Rank(to)) <= 1
  }

  predicate KnightJump(from: Square, to: Square) {
    || (Distance(File(from), File(to)) == 1 && Distance(Rank(from), Rank(to)) == 2)
    || (Distance(File(from), File(to)) == 2 && Distance(Rank(from), Rank(to)) == 1)
  }

  ghost predicate SlidesAt(board: Board, from: Square, d: Compass, to: Square, k: int) {
    && k >= 1
    && IsStep(from, d, k, to)
    && forall j: int, u: Square :: 1 <= j < k && IsStep(from, d, j, u) ==> board[u].None?
  }

  /** Some ray of the slider leads to `to` over empty squares. */
  ghost predicate Slides(board: Board, slider: Slider, from: Square, to: Square) {
    exists i: nat, k: int :: i < 4 && SlidesAt(board, from, Ray(slider, i), to, k)
  }

  ghost predicate PieceReaches(c: Core, mv: Move, kind: PieceKind) {
    match kind
    case Pawn =>
      if mv.flag.Quiet? then mv.to == mv.from + Forward(c.side) else PawnHits(c.side, mv.from, mv.to)
    case Knight => KnightJump(mv.from, mv.to)
    case Bishop => Slides(c.board, BishopSlider, mv.from, mv.to)
    case Rook => Slides(c.board, RookSlider, mv.from, mv.to)
    case Queen => Slides(c.board, BishopSlider, mv.from, mv.to) || Slides(c.board, RookSlider, mv.from, mv.to)
    case King => KingStep(mv.from, mv.to)
  }

  /** How the mover gets there, on top of what `make_move` relies on. */
  ghost predicate Reaches(c: Core, mv: Move)
    requires c.board[mv.from].Some?
  {
    match mv.flag
    case Quiet | Capture => PieceReaches(c, mv, c.board[mv.from].value.kind)
    case DoublePush => true
    case EnPassant => PawnHits(c.side, mv.from, mv.to)
    case KingCastle => true
    case QueenCastle => mv.from >= 3 && c.board[mv.from - 3].None?
    case KnightPromo | BishopPromo | RookPromo | QueenPromo =>
      mv.to == mv.from + Forward(c.side) && Rank(mv.to) == LastRank(c.side)
    case KnightPromoCapture | BishopPromoCapture | RookPromoCapture | QueenPromoCapture =>
      PawnHits(c.side, mv.from, mv.to) && Rank(mv.to) == LastRank(c.side)
  }

  ghost predicate PseudoLegal(c: Core, mv: Move) {
    Applicable(c, mv) && Reaches(c, mv)
  }

  /** What a slider reaches over a board is what its attack set shows for that board's occupancy. */
  lemma SlidesAreAttacks(board: Board, occ: bv64, slider: Slider, from: Square, to: Square)
    requires forall s: Square :: Contains(occ, s) <==> board[s].Some?
    ensures Slides(board, slider, from, to) <==> Contains(Attacks(slider, from, occ), to)
  {
    hide Contains, Or, Ray, RayAttack, IsStep;
    forall i: nat | i < 4
      ensures Contains(RayAttack(from, Ray(slider, i), occ), to)
         <==> exists k: int :: SlidesAt(board, from, Ray(slider, i), to, k)
    {
      var d := Ray(slider, i);
      RayAttackSees(from, d, occ, to);
      forall k: int
        ensures SlidesAt(board, from, d, to, k) <==> SeesAt(from, d, occ, to, k)
      {
      }
      hide SlidesAt, SeesAt;
    }
    Or4Contains(RayAttack(from, Ray(slider, 0), occ), RayAttack(from, Ray(slider, 1), occ),
                RayAttack(from, Ray(slider, 2), occ), RayAttack(from, Ray(slider, 3), occ), to);
    hide SlidesAt;
    if Slides(board, slider, from, to) {
      var i: nat, k: int :| i < 4 && SlidesAt(board, from, Ray(slider, i), to, k);
      assert Contains(RayAttack(from, Ray(slider, i), occ), to);
      assert i == 0 || i == 1 || i == 2 || i == 3;
    }
  }

  /** From square, target and promotion kind leave room for one flag only. */
  lemma FlagDetermined(c: Core, a: Move, b: Move)
    requires PseudoLegal(c, a) && PseudoLegal(c, b)
    requires a.from == b.from && a.to == b.to && a.flag.Promotion() == b.flag.Promotion()
    requires Sound(c)
    ensures a == b
  {
    TargetDecides(c, a);
    TargetDecides(c, b);
    ShapeOf(c, a);
    ShapeOf(c, b);
    hide Applicable, Reaches, Sound;
    assert a == Move(a.from, a.to, a.flag) && b == Move(b.from, b.to, b.flag);
  }

  lemma ShapeOf(c: Core, mv: Move)
    requires PseudoLegal(c, mv) && Sound(c)
    ensures mv.flag.IsCastle() ==>
              Holds(c.board, mv.from, c.side, King) && mv.to - mv.from == if mv.flag.KingCastle? then 2 else -2
    ensures mv.flag.DoublePush? || mv.flag.EnPassant? ==> Holds(c.board, mv.from, c.side, Pawn)
    ensures mv.flag.DoublePush? ==> mv.to - mv.from == 2 * Forward(c.side) && File(mv.from) == File(mv.to)
    ensures mv.flag.EnPassant? ==> File(mv.from) != File(mv.to)
    ensures mv.flag.Quiet? && Holds(c.board, mv.from, c.side, Pawn) ==>
              mv.to - mv.from == Forward(c.side) && File(mv.from) == File(mv.to)
    ensures mv.flag.Quiet? && Holds(c.board, mv.from, c.side, King) ==> mv.to - mv.from != 2 && mv.to - mv.from != -2
  {
    hide PseudoLegal, Sound, Holds;
    if mv.flag.IsCastle() { CastleShape(c, mv); }
    if mv.flag.DoublePush? || mv.flag.EnPassant? { PawnShape(c, mv); }
    if mv.flag.Quiet? { QuietShape(c, mv); }
  }

  lemma TargetDecides(c: Core, mv: Move)
    requires PseudoLegal(c, mv) && Sound(c)
    ensures c.board[mv.to].Some? <==> mv.flag.Capture? || mv.flag.IsPromoCapture()
  {
    hide Reaches;
  }

  /** For moves to an empty square without promotion, the displacement decides the flag. */
  lemma CastleShape(c: Core, mv: Move)
    requires PseudoLegal(c, mv) && Sound(c) && mv.flag.IsCastle()
    ensures Holds(c.board, mv.from, c.side, King)
    ensures mv.to - mv.from == if mv.flag.KingCastle? then 2 else -2
  {
    hide Reaches;
  }

  lemma PawnShape(c: Core, mv: Move)
    requires PseudoLegal(c, mv) && (mv.flag.DoublePush? || mv.flag.EnPassant?)
    ensures Holds(c.board, mv.from, c.side, Pawn)
    ensures mv.flag.DoublePush? ==> mv.to - mv.from == 2 * Forward(c.side) && File(mv.from) == File(mv.to)
    ensures mv.flag.EnPassant? ==> File(mv.from) != File(mv.to)
  {}

  lemma QuietShape(c: Core, mv: Move)
    requires PseudoLegal(c, mv) && mv.flag.Quiet?
    ensures Holds(c.board, mv.from, c.side, Pawn) ==> mv.to - mv.from == Forward(c.side) && File(mv.from) == File(mv.to)
    ensures Holds(c.board, mv.from, c.side, King) ==> mv.to - mv.from != 2 && mv.to - mv.from != -2
  {
    hide Slides, KnightJump, PawnHits;
  }

  // ---- The sixteen-bit encoding ----

  function FlagCode(flag: MoveFlag): bv16 {
    match flag
    case Quiet => 0
    case DoublePush => 1
    case KingCastle => 2
    case QueenCastle => 3
    case Capture => 4
    case EnPassant => 5
    case KnightPromo => 8
    case BishopPromo => 9
    case RookPromo => 10
    case QueenPromo => 11
    case KnightPromoCapture => 12
    case BishopPromoCapture => 13
    case RookPromoCapture => 14
    case QueenPromoCapture => 15
  }

  /** `MoveFlag::from_bits`: codes 6 and 7 belong to no flag. */
  function FlagOfCode(code: bv16): Option<MoveFlag> {
    if code == 0 then Some(Quiet)
    else if code == 1 then Some(DoublePush)
    else if code == 2 then Some(KingCastle)
    else if code == 3 then Some(QueenCastle)
    else if code == 4 then Some(Capture)
    else if code == 5 then Some(EnPassant)
    else if code == 8 then Some(KnightPromo)
    else if code == 9 then Some(BishopPromo)
    else if code == 10 then Some(RookPromo)
    else if code == 11 then Some(QueenPromo)
    else if code == 12 then Some(KnightPromoCapture)
    else if code == 13 then Some(BishopPromoCapture)
    else if code == 14 then Some(RookPromoCapture)
    else if code == 15 then Some(QueenPromoCapture)
    else None
  }

  function Pack(from: bv16, to: bv16, code: bv16): bv16 {
    (code << 12) | (to << 6) | from
  }

  /** `Move::new`. */
  function Encode(mv: Move): bv16 {
    Pack(mv.from as bv16, mv.to as bv16, FlagCode(mv.flag))
  }

  function FromBits(bits: bv16): bv16 {
    bits & 0x3F
  }

  function ToBits(bits: bv16): bv16 {
    (bits >> 6) & 0x3F
  }

  function CodeBits(bits: bv16): bv16 {
    (bits >> 12) & 0xF
  }

  predicate CaptureBit(bits: bv16) {
    bits & 0x4000 != 0
  }

  predicate PromotionBit(bits: bv16) {
    bits & 0x8000 != 0
  }

  function SquareOfBits(b: bv16): (s: Square)
    requires b < 64
  {
    SixBits(b);
    b as int
  }

  lemma SixBits(b: bv16)
    ensures b < 64 <==> b as int < 64
  {}

  lemma FieldsFit(bits: bv16)
    ensures FromBits(bits) < 64 && ToBits(bits) < 64
  {}

  /** Reads a move back from its bits; the two codes without a flag read as nothing. */
  function Decode(bits: bv16): Option<Move> {
    FieldsFit(bits);
    var flag := FlagOfCode(CodeBits(bits));
    if flag.None? then None else Some(Move(SquareOfBits(FromBits(bits)), SquareOfBits(ToBits(bits)), flag.value))
  }

  lemma Unpack(from: bv16, to: bv16, code: bv16)
    requires from < 64 && to < 64 && code < 16
    ensures FromBits(Pack(from, to, code)) == from
    ensures ToBits(Pack(from, to, code)) == to
    ensures CodeBits(Pack(from, to, code)) == code
    ensures CaptureBit(Pack(from, to, code)) == (code & 4 != 0)
    ensures PromotionBit(Pack(from, to, code)) == (code & 8 != 0)
  {}

  lemma Repack(bits: bv16)
    ensures Pack(FromBits(bits), ToBits(bits), CodeBits(bits)) == bits
  {}

  lemma SquareBits(s: Square)
    ensures (s as bv16) < 64 && (s as bv16) as int == s
  {}

  lemma BitsOfInt(b: bv16, s: Square)
    requires b as int == s
    ensures s as bv16 == b
  {}

  lemma FlagCodes(code: bv16, flag: MoveFlag)
    ensures FlagOfCode(code) == Some(flag) <==> code == FlagCode(flag)
    ensures FlagCode(flag) < 16
    ensures FlagCode(flag) & 4 != 0 <==> flag.IsCapture()
    ensures FlagCode(flag) & 8 != 0 <==> flag.Promotion().Some?
  {}

  lemma DecodeEncoded(mv: Move)
    ensures Decode(Encode(mv)) == Some(mv)
  {
    SquareBits(mv.from);
    SquareBits(mv.to);
    FlagCodes(FlagCode(mv.flag), mv.flag);
    hide Pack, FromBits, ToBits, CodeBits, FlagCode, FlagOfCode;
    Unpack(mv.from as bv16, mv.to as bv16, FlagCode(mv.flag));
  }

  lemma EncodeDecoded(bits: bv16, mv: Move)
    requires Decode(bits) == Some(mv)
    ensures bits == Encode(mv)
  {
    FlagCodes(CodeBits(bits), mv.flag);
    hide Pack, FromBits, ToBits, CodeBits, FlagCode, FlagOfCode;
    Repack(bits);
    FieldsFit(bits);
    BitsOfInt(FromBits(bits), mv.from);
    BitsOfInt(ToBits(bits), mv.to);
  }

  /** The encoding loses nothing, and its two flag bits answer the two questions asked of them. */
  lemma EncodingExact(bits: bv16, mv: Move)
    ensures Decode(bits) == Some(mv) <==> bits == Encode(mv)
    ensures CaptureBit(Encode(mv)) <==> mv.flag.IsCapture()
    ensures PromotionBit(Encode(mv)) <==> mv.flag.Promotion().Some?
  {
    hide Decode, Pack, FlagCode, CaptureBit, PromotionBit;
    DecodeEncoded(mv);
    if Decode(bits) == Some(mv) { EncodeDecoded(bits, mv); }
    SquareBits(mv.from);
    SquareBits(mv.to);
    FlagCodes(0, mv.flag);
    Unpack(mv.from as bv16, mv.to as bv16, FlagCode(mv.flag));
  }

  // ---- UCI text ----

  datatype UciError = Malformed | IllegalPromotionPiece | NullMove | IllegalForPosition

  function ToUci(mv: Move): string {
    SquareName(mv.from) + SquareName(mv.to)
    + if mv.flag.Promotion().Some? then [KindLetter(mv.flag.Promotion().value)] else ""
  }

  function PromotionOf(c: char): Option<PieceKind> {
    if c == 'n' then Some(Knight)
    else if c == 'b' then Some(Bishop)
    else if c == 'r' then Some(Rook)
    else if c == 'q' then Some(Queen)
    else None
  }

  predicate Matches(mv: Move, from: Square, to: Square, promotion: Option<PieceKind>) {
    mv.from == from && mv.to == to && mv.flag.Promotion() == promotion
  }

  function FindMove(moves: seq<Move>, from: Square, to: Square, promotion: Option<PieceKind>): Option<Move> {
    if moves == [] then None
    else if Matches(moves[0], from, to, promotion) then Some(moves[0])
    else FindMove(moves[1..], from, to, promotion)
  }

  predicate IsAscii(s: string) {
    forall i :: 0 <= i < |s| ==> s[i] as int < 128
  }

  /** `Move::from_uci`, given the moves generated for the position. */
  function FromUci(s: string, moves: seq<Move>): Result<Move, UciError> {
    if s == "0000" then Err(NullMove)
    else if !IsAscii(s) then Err(Malformed)
    else if |s| != 4 && |s| != 5 then Err(Malformed)
    else
      var from := ParseSquare(s[0..2]);
      var to := ParseSquare(s[2..4]);
      if from.None? || to.None? then Err(Malformed)
      else if |s| == 5 && PromotionOf(s[4]).None? then Err(IllegalPromotionPiece)
      else
        var found := FindMove(moves, from.value, to.value, if |s| == 5 then PromotionOf(s[4]) else None);
        if found.None? then Err(IllegalForPosition) else Ok(found.value)
  }

  lemma {:induction false} FindsOnly(moves: seq<Move>, mv: Move)
    requires forall m :: m in moves && Matches(m, mv.from, mv.to, mv.flag.Promotion()) ==> m == mv
    ensures FindMove(moves, mv.from, mv.to, mv.flag.Promotion()) == if mv in moves then Some(mv) else None
  {
    if moves != [] {
      assert moves[0] in moves;
      assert forall m :: m in moves[1..] ==> m in moves;
      assert mv in moves <==> moves[0] == mv || mv in moves[1..];
      FindsOnly(moves[1..], mv);
    }
  }

  lemma {:induction false} FoundMatches(moves: seq<Move>, from: Square, to: Square, promotion: Option<PieceKind>)
    ensures var r := FindMove(moves, from, to, promotion);
            r.Some? ==> r.value in moves && Matches(r.value, from, to, promotion)
  {
    if moves != [] { FoundMatches(moves[1..], from, to, promotion); }
  }

  lemma UciShape(mv: Move)
    ensures var s := ToUci(mv);
            && |s| == (if mv.flag.Promotion().Some? then 5 else 4)
            && s[0..2] == SquareName(mv.from) && s[2..4] == SquareName(mv.to)
            && (mv.flag.Promotion().Some? ==> PromotionOf(s[4]) == mv.flag.Promotion())
            && IsAscii(s) && s != "0000"
  {
    var s := ToUci(mv);
    assert s[0..2] == SquareName(mv.from) && s[2..4] == SquareName(mv.to);
    assert s[0] == FileChar(File(mv.from)) && s[0] >= 'a';
  }

  /** A text in UCI shape is the text of whatever move it names. */
  lemma UciOfMatch(s: string, mv: Move)
    requires |s| == 4 || |s| == 5
    requires ParseSquare(s[0..2]) == Some(mv.from) && ParseSquare(s[2..4]) == Some(mv.to)
    requires mv.flag.Promotion() == if |s| == 5 then PromotionOf(s[4]) else None
    requires |s| == 5 ==> PromotionOf(s[4]).Some?
    ensures s == ToUci(mv)
  {
    SquareNames(s[0..2], mv.from);
    SquareNames(s[2..4], mv.to);
    assert s == s[0..2] + s[2..4] + s[4..];
    if |s| == 5 { assert s[4..] == [KindLetter(mv.flag.Promotion().value)]; }
  }

  /**
   Among pseudo-legal moves a text names at most one, and the one it names is the one that prints
   as that text: reading and printing are inverse, flag included.
   */
  lemma UciExact(s: string, c: Core, moves: seq<Move>, mv: Move)
    requires Sound(c) && forall m :: m in moves ==> PseudoLegal(c, m)
    ensures FromUci(s, moves) == Ok(mv) <==> mv in moves && s == ToUci(mv)
  {
    hide PseudoLegal, Sound, ToUci, ParseSquare, SquareName, PromotionOf, IsAscii;
    if mv in moves && s == ToUci(mv) {
      UciShape(mv);
      SquareNames(s[0..2], mv.from);
      SquareNames(s[2..4], mv.to);
      forall m | m in moves && Matches(m, mv.from, mv.to, mv.flag.Promotion())
        ensures m == mv
      {
        FlagDetermined(c, m, mv);
      }
      FindsOnly(moves, mv);
    }
    if FromUci(s, moves) == Ok(mv) {
      var from := ParseSquare(s[0..2]).value;
      var to := ParseSquare(s[2..4]).value;
      FoundMatches(moves, from, to, if |s| == 5 then PromotionOf(s[4]) else None);
      UciOfMatch(s, mv);
    }
  }
}
