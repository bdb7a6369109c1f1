/** The constant attack tables: leapers by table, sliders by magic lookup. */
module Lookups {
  import opened Wrappers
  import opened Chess
  import opened Bitboards
  import opened SlowAttacks
  import opened Magics
  import opened Moves
  import opened Words

  function KnightWord(s: Square): bv64 {
    WordOf((t: Square) => KnightJump(s, t))
  }

  function KingWord(s: Square): bv64 {
    WordOf((t: Square) => KingStep(s, t))
  }

  function PawnWord(color: Color, s: Square): bv64 {
    WordOf((t: Square) => PawnHits(color, s, t))
  }

  // ---- Building the leaper tables ----

  predicate Offset(s: Square, t: Square, d: Direction) {
    File(t) == File(s) + d.file && Rank(t) == Rank(s) + d.rank
  }

  predicate OffsetByAny(s: Square, t: Square, ds: seq<Direction>) {
    exists j :: 0 <= j < |ds| && Offset(s, t, ds[j])
  }

  const KNIGHT_DELTAS: seq<Direction> := [
    Direction(-2, -1), Direction(-2, 1), Direction(-1, -2), Direction(-1, 2),
    Direction(1, -2), Direction(1, 2), Direction(2, -1), Direction(2, 1)]

  const KING_DELTAS: seq<Direction> := [
    Direction(-1, -1), Direction(-1, 0), Direction(-1, 1), Direction(0, -1),
    Direction(0, 1), Direction(1, -1), Direction(1, 0), Direction(1, 1)]

  /** The inner loop: the targets of one square, one offset after the other. */
  method LeaperFrom(i: Square, deltas: seq<Direction>) returns (bb: bv64)
    ensures forall t: Square :: Contains(bb, t) <==> OffsetByAny(i, t, deltas)
  {
    hide Contains, Offset, File, Rank;
    bb := 0;
    EmptyContains();
    for k := 0 to |deltas|
      invariant forall t: Square :: Contains(bb, t) <==> OffsetByAny(i, t, deltas[..k])
    {
      var file := File(i) + deltas[k].file;
      var rank := Rank(i) + deltas[k].rank;
      OffsetAt(i, deltas[k]);
      OffsetByOneMore(i, deltas, k);
      if OnBoard(file, rank) {
        WithContains(bb, At(file, rank));
        bb := With(bb, At(file, rank));
      }
    }
    assert deltas[..|deltas|] == deltas;
  }

  /** The loops of `build_knight_attacks` and `build_king_attacks`. */
  method BuildLeaper(deltas: seq<Direction>) returns (table: array<bv64>)
    ensures fresh(table) && table.Length == 64
    ensures forall s: Square, t: Square :: Contains(table[s], t) <==> OffsetByAny(s, t, deltas)
  {
    hide Contains, OffsetByAny;
    table := new bv64[64](_ => 0);
    for i := 0 to 64
      invariant forall s: Square, t: Square :: s < i ==> (Contains(table[s], t) <==> OffsetByAny(s, t, deltas))
    {
      var bb := LeaperFrom(i, deltas);
      table[i] := bb;
    }
  }

  lemma OffsetAt(s: Square, d: Direction)
    ensures var (file, rank) := (File(s) + d.file, Rank(s) + d.rank);
            forall t: Square :: Offset(s, t, d) <==> OnBoard(file, rank) && t == At(file, rank)
  {}

  lemma OffsetByOneMore(s: Square, ds: seq<Direction>, k: nat)
    requires k < |ds|
    ensures forall t: Square :: OffsetByAny(s, t, ds[..k + 1]) <==> OffsetByAny(s, t, ds[..k]) || Offset(s, t, ds[k])
  {
    hide Offset;
    forall t: Square
      ensures OffsetByAny(s, t, ds[..k + 1]) <==> OffsetByAny(s, t, ds[..k]) || Offset(s, t, ds[k])
    {
      if j :| 0 <= j < k && Offset(s, t, ds[..k][j]) { assert Offset(s, t, ds[..k + 1][j]); }
      if Offset(s, t, ds[k]) { assert Offset(s, t, ds[..k + 1][k]); }
    }
  }

  lemma KnightOffsets(s: Square, t: Square)
    ensures OffsetByAny(s, t, KNIGHT_DELTAS) <==> KnightJump(s, t)
  {
    hide File, Rank;
    if KnightJump(s, t) {
      var d := Direction(File(t) - File(s), Rank(t) - Rank(s));
      assert d in KNIGHT_DELTAS;
      var j :| 0 <= j < |KNIGHT_DELTAS| && KNIGHT_DELTAS[j] == d;
      assert Offset(s, t, KNIGHT_DELTAS[j]);
    }
  }

  lemma KingOffsets(s: Square, t: Square)
    ensures OffsetByAny(s, t, KING_DELTAS) <==> KingStep(s, t)
  {
    hide Rank, File;
    SquareByCoordinates(s, t);
    if KingStep(s, t) {
      var d := Direction(File(t) - File(s), Rank(t) - Rank(s));
      assert d in KING_DELTAS;
      var j :| 0 <= j < |KING_DELTAS| && KING_DELTAS[j] == d;
      assert Offset(s, t, KING_DELTAS[j]);
    }
  }

  lemma SquareByCoordinates(s: Square, t: Square)
    ensures File(s) == File(t) && Rank(s) == Rank(t) ==> s == t
  {}

  method BuildKnights() returns (table: array<bv64>)
    ensures fresh(table) && table.Length == 64
    ensures forall s: Square :: table[s] == KnightWord(s)
  {
    hide Contains, OffsetByAny, KnightJump;
    table := BuildLeaper(KNIGHT_DELTAS);
    forall s: Square
      ensures table[s] == KnightWord(s)
    {
      forall t: Square {
        KnightOffsets(s, t);
      }
      WordIs(table[s], (t: Square) => KnightJump(s, t));
    }
  }

  method BuildKings() returns (table: array<bv64>)
    ensures fresh(table) && table.Length == 64
    ensures forall s: Square :: table[s] == KingWord(s)
  {
    hide Contains, OffsetByAny, KingStep;
    table := BuildLeaper(KING_DELTAS);
    forall s: Square
      ensures table[s] == KingWord(s)
    {
      forall t: Square {
        KingOffsets(s, t);
      }
      WordIs(table[s], (t: Square) => KingStep(s, t));
    }
  }

  /** One square of `build_pawn_attacks`: the two diagonals, unless they leave the board. */
  method PawnTargetsOf(color: Color, i: Square) returns (bb: bv64)
    ensures bb == PawnWord(color, i)
  {
    hide Contains, With;
    EmptyContains();
    bb := 0;
    var file := File(i);
    var rank := Rank(i);
    if color.White? {
      if file > 0 && rank < 7 {
        WithContains(bb, i + 7);
        bb := With(bb, i + 7);
      }
      if file < 7 && rank < 7 {
        WithContains(bb, i + 9);
        bb := With(bb, i + 9);
      }
    } else {
      if file > 0 && rank > 0 {
        WithContains(bb, i - 9);
        bb := With(bb, i - 9);
      }
      if file < 7 && rank > 0 {
        WithContains(bb, i - 7);
        bb := With(bb, i - 7);
      }
    }
    forall t: Square
      ensures Contains(bb, t) <==> PawnHits(color, i, t)
    {
      PawnDiagonals(color, i, t);
    }
    WordIs(bb, (t: Square) => PawnHits(color, i, t));
  }

  lemma PawnDiagonals(color: Color, i: Square, t: Square)
    ensures PawnHits(color, i, t) <==>
            if color.White? then
              (File(i) > 0 && Rank(i) < 7 && t == i + 7) || (File(i) < 7 && Rank(i) < 7 && t == i + 9)
            else
              (File(i) > 0 && Rank(i) > 0 && t == i - 9) || (File(i) < 7 && Rank(i) > 0 && t == i - 7)
  {}

  method BuildPawns(color: Color) returns (table: array<bv64>)
    ensures fresh(table) && table.Length == 64
    ensures forall s: Square :: table[s] == PawnWord(color, s)
  {
    hide PawnWord;
    table := new bv64[64](_ => 0);
    for i := 0 to 64
      invariant forall s: Square :: s < i ==> table[s] == PawnWord(color, s)
    {
      var bb := PawnTargetsOf(color, i);
      table[i] := bb;
    }
  }

  // ---- All tables ----

  datatype AttackTables = AttackTables(
    knights: seq<bv64>,
    kings: seq<bv64>,
    pawns: seq<seq<bv64>>,
    rookMagics: MagicTable,
    rookTable: seq<bv64>,
    bishopMagics: MagicTable,
    bishopTable: seq<bv64>)

  /** Leapers as built above, sliders filled as `BuildTable` fills them, over the masks of the ray walk. */
  ghost predicate Ready(l: AttackTables) {
    && |l.knights| == 64 && |l.kings| == 64 && |l.pawns| == 2 && |l.pawns[0]| == 64 && |l.pawns[1]| == 64
    && (forall s: Square :: l.knights[s] == KnightWord(s))
    && (forall s: Square :: l.kings[s] == KingWord(s))
    && (forall s: Square, color: Color :: l.pawns[color.Index()][s] == PawnWord(color, s))
    && (forall s: Square :: Filled(RookSlider, l.rookMagics, l.rookTable, s))
    && (forall s: Square :: Filled(BishopSlider, l.bishopMagics, l.bishopTable, s))
    && (forall s: Square :: l.rookMagics[s].mask == Mask(RookSlider, s))
    && (forall s: Square :: l.bishopMagics[s].mask == Mask(BishopSlider, s))
  }

  /** The masks in the constants are those of the ray walk. */
  ghost predicate RayMasks(slider: Slider, magics: MagicTable) {
    forall s: Square :: magics[s].mask == Mask(slider, s)
  }

  /** All tables at once: built exactly if neither slider's magics clash, and then ready if the masks are right. */
  method BuildAll(rooks: MagicTable, bishops: MagicTable, rookLength: nat, bishopLength: nat)
    returns (built: Option<AttackTables>)
    ensures built.Some? <==> Harmless(RookSlider, rooks, rookLength) && Harmless(BishopSlider, bishops, bishopLength)
    ensures built.Some? ==> (Ready(built.value) <==> RayMasks(RookSlider, rooks) && RayMasks(BishopSlider, bishops))
  {
    hide Harmless, Filled, KnightWord, KingWord, PawnWord, Mask;
    var knights := BuildKnights();
    var kings := BuildKings();
    var white := BuildPawns(White);
    var black := BuildPawns(Black);
    var rookTable := BuildTable(RookSlider, rooks, rookLength);
    var bishopTable := BuildTable(BishopSlider, bishops, bishopLength);
    if rookTable.None? || bishopTable.None? {
      return None;
    }
    built := Some(AttackTables(knights[..], kings[..], [white[..], black[..]],
                               rooks, rookTable.value[..], bishops, bishopTable.value[..]));
    assert forall s: Square, color: Color :: built.value.pawns[color.Index()][s] == PawnWord(color, s);
  }

  function KnightAttacks(l: AttackTables, s: Square): (b: bv64)
    requires Ready(l)
    ensures forall t: Square :: Contains(b, t) <==> KnightJump(s, t)
  {
    WordContains((t: Square) => KnightJump(s, t));
    l.knights[s]
  }

  function KingAttacks(l: AttackTables, s: Square): (b: bv64)
    requires Ready(l)
    ensures forall t: Square :: Contains(b, t) <==> KingStep(s, t)
  {
    WordContains((t: Square) => KingStep(s, t));
    l.kings[s]
  }

  function PawnAttacks(l: AttackTables, color: Color, s: Square): (b: bv64)
    requires Ready(l)
    ensures forall t: Square :: Contains(b, t) <==> PawnHits(color, s, t)
  {
    WordContains((t: Square) => PawnHits(color, s, t));
    l.pawns[color.Index()][s]
  }

  function RookAttacks(l: AttackTables, s: Square, occ: bv64): (b: bv64)
    requires Ready(l)
    ensures b == Attacks(RookSlider, s, occ)
  {
    Lookup(RookSlider, l.rookMagics, l.rookTable, s, occ)
  }

  function BishopAttacks(l: AttackTables, s: Square, occ: bv64): (b: bv64)
    requires Ready(l)
    ensures b == Attacks(BishopSlider, s, occ)
  {
    Lookup(BishopSlider, l.bishopMagics, l.bishopTable, s, occ)
  }

  function QueenAttacks(l: AttackTables, s: Square, occ: bv64): (b: bv64)
    requires Ready(l)
    ensures forall t: Square :: Contains(b, t) <==>
                                Contains(Attacks(RookSlider, s, occ), t) || Contains(Attacks(BishopSlider, s, occ), t)
  {
    LookupQueen(l.rookMagics, l.bishopMagics, l.rookTable, l.bishopTable, s, occ)
  }

  function SlideFrom(l: AttackTables, slider: Slider, s: Square, occ: bv64): (b: bv64)
    requires Ready(l)
    ensures b == Attacks(slider, s, occ)
  {
    if slider.RookSlider? then RookAttacks(l, s, occ) else BishopAttacks(l, s, occ)
  }
}
