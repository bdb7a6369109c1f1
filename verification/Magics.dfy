/** Magic lookup tables: built by enumerating blocker subsets, read with one multiplication. */
module Magics {
  import opened Wrappers
  import opened Chess
  import opened Bitboards
  import opened Subsets
  import opened SlowAttacks

  datatype Magic = Magic(mask: bv64, magic: bv64, shift: bv6, offset: nat)

  type MagicTable = m: seq<Magic> | |m| == 64 witness seq(64, _ => Magic(0, 0, 0, 0))

  /** The multiplication wraps at 64 bits. */
  function HashIndex(m: Magic, blockers: bv64): nat {
    ((blockers * m.magic) >> m.shift) as nat
  }

  /** The product's upper half is lost, and the shift keeps the top bits of the rest. */
  lemma IndexByValue()
    ensures HashIndex(Magic(0, 5, 60, 7), 0x8000_0000_0000_0003) == 8
    ensures HashIndex(Magic(0, 0x0100_0000_0000_0001, 56, 7), 0x0201) == 1
    ensures HashIndex(Magic(0, 0x0101_0101_0101_0101, 52, 7), 0x00FF) == 0xFFF
  {}

  function Slot(m: Magic, blockers: bv64): nat {
    m.offset + HashIndex(m, blockers)
  }

  /** Every subset of the mask of `s` whose rank is below `n` finds its attack set in the table. */
  ghost predicate FilledTo(slider: Slider, magics: MagicTable, table: seq<bv64>, s: Square, n: nat) {
    forall sub: bv64 :: IsSubset(sub, magics[s].mask) && SubsetRank(magics[s].mask, sub) < n ==>
                          Slot(magics[s], sub) < |table| && table[Slot(magics[s], sub)] == Attacks(slider, s, sub)
  }

  ghost predicate Filled(slider: Slider, magics: MagicTable, table: seq<bv64>, s: Square) {
    FilledTo(slider, magics, table, s, Pow2(Count(magics[s].mask)))
  }

  /** Filling an unfilled slot disturbs no slot that is filled: attack sets are never zero. */
  lemma FillKeeps(slider: Slider, magics: MagicTable, table: seq<bv64>, slot: nat, value: bv64, s: Square, n: nat)
    requires FilledTo(slider, magics, table, s, n)
    requires slot < |table| && table[slot] == 0
    ensures FilledTo(slider, magics, table[slot := value], s, n)
  {
    hide Slot, Attacks, IsSubset, SubsetRank;
    forall sub: bv64 | IsSubset(sub, magics[s].mask) && SubsetRank(magics[s].mask, sub) < n
      ensures Slot(magics[s], sub) != slot
    {
      NeverEmpty(slider, s, sub);
      assert table[Slot(magics[s], sub)] == Attacks(slider, s, sub);
    }
  }

  lemma FillNext(slider: Slider, magics: MagicTable, table: seq<bv64>, s: Square, sub: bv64)
    requires IsSubset(sub, magics[s].mask)
    requires FilledTo(slider, magics, table, s, SubsetRank(magics[s].mask, sub))
    requires Slot(magics[s], sub) < |table| && table[Slot(magics[s], sub)] == Attacks(slider, s, sub)
    ensures FilledTo(slider, magics, table, s, SubsetRank(magics[s].mask, sub) + 1)
  {
    hide Slot, Attacks, IsSubset, SubsetRank;
    var mask := magics[s].mask;
    forall x: bv64 | IsSubset(x, mask) && SubsetRank(mask, x) < SubsetRank(mask, sub) + 1
      ensures Slot(magics[s], x) < |table| && table[Slot(magics[s], x)] == Attacks(slider, s, x)
    {
      if SubsetRank(mask, x) == SubsetRank(mask, sub) { RankInjective(mask, x, sub); }
    }
  }

  // ---- When the build succeeds ----

  ghost predicate Stands(slider: Slider, magics: MagicTable, s: Square, sub: bv64, slot: nat, value: bv64) {
    IsSubset(sub, magics[s].mask) && Slot(magics[s], sub) == slot && Attacks(slider, s, sub) == value
  }

  /** Whatever a slot holds was put there for some square and some subset of its mask. */
  ghost predicate Witnessed(slider: Slider, magics: MagicTable, table: seq<bv64>) {
    forall i: nat :: i < |table| && table[i] != 0 ==>
                       exists s: Square, sub: bv64 :: Stands(slider, magics, s, sub, i, table[i])
  }

  /** Every slot is in the table, and no slot is asked to hold two different attack sets. */
  ghost predicate Harmless(slider: Slider, magics: MagicTable, length: nat) {
    && (forall s: Square, sub: bv64, slot: nat, value: bv64 ::
          Stands(slider, magics, s, sub, slot, value) ==> slot < length)
    && (forall s: Square, sub: bv64, q: Square, other: bv64, slot: nat, value: bv64, value': bv64 ::
          Stands(slider, magics, s, sub, slot, value) && Stands(slider, magics, q, other, slot, value') ==> value == value')
  }

  lemma WitnessKeeps(slider: Slider, magics: MagicTable, table: seq<bv64>, s: Square, sub: bv64, slot: nat, value: bv64)
    requires Witnessed(slider, magics, table)
    requires slot < |table| && Stands(slider, magics, s, sub, slot, value)
    ensures Witnessed(slider, magics, table[slot := value])
  {
    hide Stands;
  }

  lemma Clash(slider: Slider, magics: MagicTable, table: seq<bv64>, s: Square, sub: bv64, slot: nat, value: bv64)
    requires Witnessed(slider, magics, table) && Stands(slider, magics, s, sub, slot, value)
    requires slot < |table| ==> table[slot] != 0 && table[slot] != value
    ensures !Harmless(slider, magics, |table|)
  {
    hide Stands;
  }

  /** A filled table shows that nothing clashed. */
  lemma FilledIsHarmless(slider: Slider, magics: MagicTable, table: seq<bv64>)
    requires forall s: Square :: Filled(slider, magics, table, s)
    ensures Harmless(slider, magics, |table|)
  {
    hide Stands, Filled;
    forall s: Square, sub: bv64, slot: nat, value: bv64 | Stands(slider, magics, s, sub, slot, value)
      ensures slot < |table| && table[slot] == value
    {
      FilledStands(slider, magics, table, s, sub, slot, value);
    }
  }

  lemma FilledStands(slider: Slider, magics: MagicTable, table: seq<bv64>, s: Square, sub: bv64, slot: nat, value: bv64)
    requires Filled(slider, magics, table, s) && Stands(slider, magics, s, sub, slot, value)
    ensures slot < |table| && table[slot] == value
  {
    hide Slot, Attacks, IsSubset, SubsetRank, Pow2, Count;
    RankInRange(magics[s].mask, sub);
  }

  /**
   Fills the part of the table that belongs to square `s`. Stops with `false` where the code panics:
   on a slot out of range, or on a slot already holding a different attack set.
   */
  method FillSquare(slider: Slider, magics: MagicTable, table: array<bv64>, s: Square) returns (ok: bool)
    requires forall q: Square :: q < s ==> Filled(slider, magics, table[..], q)
    requires Witnessed(slider, magics, table[..])
    modifies table
    ensures ok ==> forall q: Square :: q <= s ==> Filled(slider, magics, table[..], q)
    ensures Witnessed(slider, magics, table[..])
    ensures !ok ==> !Harmless(slider, magics, table.Length)
  {
    hide Slot, Attacks, IsSubset, SubsetRank, FilledTo, NextSubset, Count, Pow2, Witnessed, Harmless;
    var m := magics[s];
    var sub: bv64 := 0;
    EmptyRank(m.mask);
    FullRank(m.mask);
    NothingFilled(slider, magics, table[..], s);
    while true
      invariant IsSubset(sub, m.mask)
      invariant forall q: Square :: q < s ==> Filled(slider, magics, table[..], q)
      invariant FilledTo(slider, magics, table[..], s, SubsetRank(m.mask, sub))
      invariant Witnessed(slider, magics, table[..])
      decreases Pow2(Count(m.mask)) - SubsetRank(m.mask, sub)
    {
      var attack := SlowAttack(slider, s, sub);
      var slot := Slot(m, sub);
      if slot >= table.Length {
        Clash(slider, magics, table[..], s, sub, slot, attack);
        return false;
      }
      var existing := table[slot];
      if existing == 0 {
        KeepAll(slider, magics, table[..], slot, table[..][slot := attack], s);
        FillKeeps(slider, magics, table[..], slot, attack, s, SubsetRank(m.mask, sub));
        WitnessKeeps(slider, magics, table[..], s, sub, slot, attack);
        ghost var before := table[..];
        table[slot] := attack;
        assert table[..] == before[slot := attack];
      } else if existing != attack {
        Clash(slider, magics, table[..], s, sub, slot, attack);
        return false;
      }
      FillNext(slider, magics, table[..], s, sub);
      RankInRange(m.mask, sub);
      if sub == m.mask {
        StepWraps(m.mask);
      } else {
        StepRank(m.mask, sub);
      }
      sub := NextSubset(m.mask, sub);
      if sub == 0 {
        break;
      }
    }
    ok := true;
  }

  lemma RankInRange(mask: bv64, sub: bv64)
    ensures SubsetRank(mask, sub) < Pow2(Count(mask))
  {
    RankBound(mask, sub, 64);
  }

  lemma NothingFilled(slider: Slider, magics: MagicTable, table: seq<bv64>, s: Square)
    ensures FilledTo(slider, magics, table, s, 0)
  {
    hide Slot, Attacks, IsSubset, SubsetRank;
  }

  lemma KeepAll(slider: Slider, magics: MagicTable, table: seq<bv64>, slot: nat, result: seq<bv64>, s: Square)
    requires forall q: Square :: q < s ==> Filled(slider, magics, table, q)
    requires slot < |table| && table[slot] == 0 && |result| == |table| && result == table[slot := result[slot]]
    ensures forall q: Square :: q < s ==> Filled(slider, magics, result, q)
  {
    hide FilledTo, Count, Pow2;
    forall q: Square | q < s
      ensures Filled(slider, magics, result, q)
    {
      assert Filled(slider, magics, table, q);
      FillKeeps(slider, magics, table, slot, result[slot], q, Pow2(Count(magics[q].mask)));
    }
  }

  /**
   `build_rook_table` and `build_bishop_table`: the build goes through exactly when no two entries
   clash, whatever the order they come in, and then every subset of every mask finds its attack set.
   */
  method BuildTable(slider: Slider, magics: MagicTable, length: nat) returns (table: Option<array<bv64>>)
    ensures table.Some? <==> Harmless(slider, magics, length)
    ensures table.Some? ==> fresh(table.value) && forall s: Square :: Filled(slider, magics, table.value[..], s)
  {
    hide Filled, Harmless, Stands;
    var slots := new bv64[length](_ => 0);
    for s := 0 to 64
      invariant Witnessed(slider, magics, slots[..])
      invariant forall q: Square :: q < s ==> Filled(slider, magics, slots[..], q)
    {
      var ok := FillSquare(slider, magics, slots, s);
      if !ok {
        return None;
      }
    }
    FilledIsHarmless(slider, magics, slots[..]);
    return Some(slots);
  }

  /** `rook_attacks` and `bishop_attacks`: one lookup for any occupancy of the whole board. */
  function Lookup(slider: Slider, magics: MagicTable, table: seq<bv64>, s: Square, occ: bv64): (attacks: bv64)
    requires Filled(slider, magics, table, s)
    requires magics[s].mask == Mask(slider, s)
    ensures attacks == Attacks(slider, s, occ)
  {
    var blockers := And(occ, magics[s].mask);
    MaskedIsSubset(occ, magics[s].mask);
    RankInRange(magics[s].mask, blockers);
    MaskedBlockersSuffice(slider, s, occ);
    table[Slot(magics[s], blockers)]
  }

  /** `queen_attacks`: two lookups, joined. */
  function LookupQueen(rooks: MagicTable, bishops: MagicTable, rookTable: seq<bv64>, bishopTable: seq<bv64>,
                       s: Square, occ: bv64): (attacks: bv64)
    requires Filled(RookSlider, rooks, rookTable, s) && Filled(BishopSlider, bishops, bishopTable, s)
    requires rooks[s].mask == Mask(RookSlider, s) && bishops[s].mask == Mask(BishopSlider, s)
    ensures forall t: Square ::
              Contains(attacks, t) <==>
              Contains(Attacks(RookSlider, s, occ), t) || Contains(Attacks(BishopSlider, s, occ), t)
  {
    hide Contains, Or, Attacks, Filled, Mask;
    var straight := Lookup(RookSlider, rooks, rookTable, s, occ);
    var diagonal := Lookup(BishopSlider, bishops, bishopTable, s, occ);
    JoinContains(straight, diagonal);
    Or(straight, diagonal)
  }

  lemma JoinContains(a: bv64, b: bv64)
    ensures forall t: Square :: Contains(Or(a, b), t) <==> Contains(a, t) || Contains(b, t)
  {
    forall t: Square
      ensures Contains(Or(a, b), t) <==> Contains(a, t) || Contains(b, t)
    {
      hide Contains, Or;
      OrContains(a, b, t);
    }
  }

  lemma MaskedIsSubset(occ: bv64, mask: bv64)
    ensures IsSubset(And(occ, mask), mask)
  {}
}
