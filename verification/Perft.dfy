/** Counting the move tree by making and unmaking moves on one board. */
module Perft {
  import opened Chess
  import opened Rules
  import opened Soundness
  import opened Positions
  import opened Transition
  import opened Moves
  import opened Legality
  import opened Generation
  import opened Lookups
  import opened Movegen

  /** An order in which the moves of every position are emitted; `Gen` is the code's. */
  type Generator = Core -> seq<Move>

  /** The position after a move; a move the position does not have changes nothing. */
  ghost function Child(c: Core, mv: Move): Core {
    if Sound(c) && Applicable(c, mv) then Next(c, mv) else c
  }

  // ---- The number of leaves ----

  ghost function Leaves(gen: Generator, c: Core, depth: nat): nat
    decreases depth, 0, 0
  {
    if depth == 0 then 1 else LeavesBelow(gen, c, gen(c), depth)
  }

  ghost function LeavesBelow(gen: Generator, c: Core, moves: seq<Move>, depth: nat): nat
    requires depth > 0
    decreases depth - 1, 1, |moves|
  {
    if moves == [] then 0
    else
      var last := |moves| - 1;
      LeavesBelow(gen, c, moves[..last], depth) + Leaves(gen, Child(c, moves[last]), depth - 1)
  }

  lemma {:induction false} LeavesAtOne(gen: Generator, c: Core, moves: seq<Move>)
    ensures LeavesBelow(gen, c, moves, 1) == |moves|
  {
    if moves != [] { LeavesAtOne(gen, c, moves[..|moves| - 1]); }
  }

  // ---- Trees in which no move is asked of a position without a king ----

  /** No king is taken before the last of `depth` plies. */
  ghost predicate Tame(c: Core, depth: nat)
    decreases depth, 0
  {
    depth > 0 ==> Sound(c) && TameBelow(c, Gen(c), depth)
  }

  ghost predicate TameBelow(c: Core, moves: seq<Move>, depth: nat)
    requires depth > 0
    decreases depth - 1, 1
  {
    forall i :: 0 <= i < |moves| ==> Tame(Child(c, moves[i]), depth - 1)
  }

  /** From a fair position no king is ever taken. */
  lemma {:induction false} FairIsTame(c: Core, depth: nat)
    requires Fair(c)
    ensures Tame(c, depth)
    decreases depth
  {
    GuardedParts(c);
    GenIsLegal(c);
    hide Sound, Fair, Legal, Gen, Applicable, Next, Child, Distinct;
    if depth > 0 {
      forall i | 0 <= i < |Gen(c)|
        ensures Tame(Child(c, Gen(c)[i]), depth - 1)
      {
        var mv := Gen(c)[i];
        assert mv in Gen(c);
        FairChild(c, mv);
        FairIsTame(Child(c, mv), depth - 1);
      }
    }
  }

  /** Generated moves one after another, the last of which is the first to take a king. */
  ghost predicate TakesKingLast(c: Core, moves: seq<Move>)
    decreases |moves|
  {
    && moves != [] && moves[0] in Gen(c)
    && if |moves| == 1 then TakesKing(c, moves[0])
       else !TakesKing(c, moves[0]) && TakesKingLast(Child(c, moves[0]), moves[1..])
  }

  lemma {:induction false} TameLasts(c: Core, depth: nat, moves: seq<Move>)
    requires Tame(c, depth) && Sound(c) && TakesKingLast(c, moves)
    ensures |moves| >= depth
    decreases depth
  {
    hide Sound, Gen, Child, TakesKing;
    if depth > 1 {
      var i :| 0 <= i < |Gen(c)| && Gen(c)[i] == moves[0];
      assert Tame(Child(c, Gen(c)[i]), depth - 1);
      GeneratedApplies(c, moves[0]);
      if |moves| > 1 { TameLasts(Child(c, moves[0]), depth - 1, moves[1..]); }
    }
  }

  lemma UntamedChild(c: Core, depth: nat) returns (mv: Move)
    requires Sound(c) && !Tame(c, depth)
    ensures depth > 0 && mv in Gen(c) && !Tame(Child(c, mv), depth - 1)
  {
    hide Sound, Gen, Child;
    var i :| 0 <= i < |Gen(c)| && !Tame(Child(c, Gen(c)[i]), depth - 1);
    mv := Gen(c)[i];
  }

  lemma TameAtLeaves(c: Core)
    ensures Tame(c, 0)
  {}

  lemma {:induction false} Untamed(c: Core, depth: nat) returns (moves: seq<Move>)
    requires Sound(c) && !Tame(c, depth)
    ensures TakesKingLast(c, moves) && |moves| < depth
    decreases depth
  {
    hide Sound, Gen, Child, TakesKing;
    var mv := UntamedChild(c, depth);
    hide Tame;
    GeneratedApplies(c, mv);
    TameAtLeaves(Child(c, mv));
    if TakesKing(c, mv) {
      moves := [mv];
    } else {
      var rest := Untamed(Child(c, mv), depth - 1);
      moves := [mv] + rest;
      assert moves[1..] == rest;
    }
  }

  /** The counts are sure of their ground exactly when no line of generated moves takes a king before the last ply. */
  lemma TameExactly(c: Core, depth: nat)
    requires Sound(c)
    ensures Tame(c, depth) <==> forall moves :: TakesKingLast(c, moves) ==> |moves| >= depth
  {
    hide Sound, Tame, TakesKingLast;
    if Tame(c, depth) {
      forall moves | TakesKingLast(c, moves)
        ensures |moves| >= depth
      {
        TameLasts(c, depth, moves);
      }
    } else {
      var moves := Untamed(c, depth);
    }
  }

  lemma FairChild(c: Core, mv: Move)
    requires Fair(c) && Sound(c) && Legal(c, mv)
    ensures Fair(Child(c, mv))
  {
    LegalIsApplicable(c, mv);
    StaysFair(c, mv);
    hide Sound, Fair, Legal, Applicable, Next;
  }

  lemma LegalIsApplicable(c: Core, mv: Move)
    requires Sound(c) && Legal(c, mv)
    ensures Applicable(c, mv)
  {}

  /** A generated move applies, and its successor is sound unless it took a king. */
  lemma GeneratedApplies(c: Core, mv: Move)
    requires Sound(c) && mv in Gen(c)
    ensures PseudoLegal(c, mv) && Applicable(c, mv) && Child(c, mv) == Next(c, mv)
    ensures Sound(Child(c, mv)) <==> !TakesKing(c, mv)
  {
    GenHas(c);
    assert Passes(c, mv);
    hide Gen, Sound, Next, TakesKing;
    NextSoundUnlessKingTaken(c, mv);
  }

  // ---- The order of generation does not matter ----

  ghost predicate Reorders(a: Generator, b: Generator) {
    forall c: Core :: multiset(a(c)) == multiset(b(c))
  }

  lemma {:induction false} WithoutOne(gen: Generator, c: Core, moves: seq<Move>, i: nat, depth: nat)
    requires i < |moves| && depth > 0
    ensures LeavesBelow(gen, c, moves, depth)
         == LeavesBelow(gen, c, moves[..i] + moves[i + 1..], depth) + Leaves(gen, Child(c, moves[i]), depth - 1)
  {
    hide Leaves, Child;
    var last := |moves| - 1;
    var rest := moves[..i] + moves[i + 1..];
    if i < last {
      WithoutOne(gen, c, moves[..last], i, depth);
      assert moves[..last][..i] + moves[..last][i + 1..] == rest[..|rest| - 1];
    } else {
      assert rest == moves[..last];
    }
  }

  lemma {:induction false} SameBelow(a: Generator, b: Generator, c: Core, ms: seq<Move>, ns: seq<Move>, depth: nat)
    requires Reorders(a, b) && depth > 0 && multiset(ms) == multiset(ns)
    ensures LeavesBelow(a, c, ms, depth) == LeavesBelow(b, c, ns, depth)
    decreases depth, 0, |ms|
  {
    hide Child;
    SameLength(ms, ns);
    if ms != [] {
      var last := |ms| - 1;
      var j := TakeOut(ms, ns);
      SameBelow(a, b, c, ms[..last], ns[..j] + ns[j + 1..], depth);
      SameLeaves(a, b, Child(c, ms[last]), depth - 1);
      WithoutOne(b, c, ns, j, depth);
    }
  }

  lemma SameLength(ms: seq<Move>, ns: seq<Move>)
    requires multiset(ms) == multiset(ns)
    ensures |ms| == |ns|
  {
    assert |ms| == |multiset(ms)| && |ns| == |multiset(ns)|;
  }

  /** The last of one list stands somewhere in the other, and what is left of both agrees. */
  lemma TakeOut(ms: seq<Move>, ns: seq<Move>) returns (j: nat)
    requires multiset(ms) == multiset(ns) && ms != []
    ensures j < |ns| && ns[j] == ms[|ms| - 1]
    ensures multiset(ms[..|ms| - 1]) == multiset(ns[..j] + ns[j + 1..])
  {
    var x := ms[|ms| - 1];
    assert x in multiset(ns);
    j :| 0 <= j < |ns| && ns[j] == x;
    assert ms == ms[..|ms| - 1] + [x];
    assert ns == ns[..j] + [x] + ns[j + 1..];
    assert multiset(ms[..|ms| - 1]) == multiset(ms) - multiset{x};
    assert multiset(ns[..j] + ns[j + 1..]) == multiset(ns) - multiset{x};
  }

  /** Two generators that emit the same moves in different orders count the same leaves. */
  lemma {:induction false} SameLeaves(a: Generator, b: Generator, c: Core, depth: nat)
    requires Reorders(a, b)
    ensures Leaves(a, c, depth) == Leaves(b, c, depth)
    decreases depth, 1
  {
    if depth > 0 { SameBelow(a, b, c, a(c), b(c), depth); }
  }

  // ---- perft_inner ----

  const WORD := 0x1_0000_0000_0000_0000

  lemma AddModulo(a: nat, b: nat)
    ensures (a % WORD + b % WORD) % WORD == (a + b) % WORD
  {}

  /** A position in which `depth` plies may be counted; at the leaves the king may be gone. */
  ghost predicate Countable(pos: Position, depth: nat)
    reads pos
  {
    pos.Coherent() && Tame(pos.Recorded(), depth) && (depth > 0 ==> pos.Valid())
  }

  /**
   One recursion for both variants. With `bulk`, the last ply is counted without making its moves.
   Either way the result is the number of leaves, in 64-bit arithmetic, and the board is untouched.
   */
  method PerftInner(pos: Position, l: AttackTables, bulk: bool, depth: nat) returns (total: nat)
    requires Ready(l) && Countable(pos, depth)
    modifies pos
    ensures pos.Fields() == old(pos.Fields())
    ensures total == Leaves(Gen, old(pos.Recorded()), depth) % WORD
    decreases depth, 2
  {
    if depth == 0 {
      return 1;
    }
    ValidIsCoherent(pos.tables, pos.Fields());
    ChildrenTame(pos.Recorded(), depth);
    hide *;
    LeavesAre(pos.Recorded(), depth);
    var moves := GenerateMoves(pos, l);
    if bulk && depth == 1 {
      LeavesAtOne(Gen, pos.Recorded(), moves);
      return |moves| % WORD;
    }
    total := CountAll(pos, l, bulk, depth, moves);
  }

  lemma LeavesAre(c: Core, depth: nat)
    requires depth > 0
    ensures Leaves(Gen, c, depth) == LeavesBelow(Gen, c, Gen(c), depth)
  {}

  /** Moves that may be made and counted below. */
  ghost predicate Playable(c: Core, moves: seq<Move>, depth: nat) {
    && Sound(c) && depth > 0
    && TameBelow(c, moves, depth)
    && forall i :: 0 <= i < |moves| ==> moves[i] in Gen(c)
  }

  lemma ChildrenTame(c: Core, depth: nat)
    requires Tame(c, depth) && depth > 0
    ensures Playable(c, Gen(c), depth)
  {
    hide Gen, Child, Sound;
  }

  /** The loop over the generated moves. */
  method CountAll(pos: Position, l: AttackTables, bulk: bool, depth: nat, moves: seq<Move>) returns (total: nat)
    requires Ready(l) && pos.Valid() && Playable(pos.Recorded(), moves, depth)
    modifies pos
    ensures depth > 0 && pos.Fields() == old(pos.Fields())
    ensures total == LeavesBelow(Gen, old(pos.Recorded()), moves, depth) % WORD
    decreases depth, 1
  {
    hide ValidSnapshot, Sound, Ready, Gen, Child, Leaves, Tame;
    ghost var before := pos.Fields();
    total := 0;
    for i := 0 to |moves|
      invariant pos.Fields() == before
      invariant total == LeavesBelow(Gen, before.core, moves[..i], depth) % WORD
    {
      var below := Visit(pos, l, bulk, depth, moves[i]);
      OneMore(before.core, moves, i, depth);
      total := (total + below) % WORD;
    }
    assert moves[..|moves|] == moves;
  }

  lemma OneMore(c: Core, moves: seq<Move>, i: nat, depth: nat)
    requires depth > 0 && i < |moves|
    ensures (LeavesBelow(Gen, c, moves[..i], depth) % WORD + Leaves(Gen, Child(c, moves[i]), depth - 1) % WORD) % WORD
         == LeavesBelow(Gen, c, moves[..i + 1], depth) % WORD
  {
    hide Leaves, Child;
    assert moves[..i + 1][..i] == moves[..i];
    AddModulo(LeavesBelow(Gen, c, moves[..i], depth), Leaves(Gen, Child(c, moves[i]), depth - 1));
  }

  /** Makes a move, counts below it, and takes it back. */
  method Visit(pos: Position, l: AttackTables, bulk: bool, depth: nat, mv: Move) returns (below: nat)
    requires Ready(l) && pos.Valid() && depth > 0
    requires Sound(pos.Recorded()) && mv in Gen(pos.Recorded()) && Tame(Child(pos.Recorded(), mv), depth - 1)
    modifies pos
    ensures pos.Fields() == old(pos.Fields())
    ensures below == Leaves(Gen, Child(old(pos.Recorded()), mv), depth - 1) % WORD
    decreases depth, 0
  {
    ghost var before := pos.Fields();
    GeneratedApplies(before.core, mv);
    TameIsSound(Child(before.core, mv), depth - 1);
    MoverIsOurs(before.core, mv);
    hide ValidSnapshot, CoherentSnapshot, Sound, Ready, Gen, Child, Leaves, Tame, Next, TokenFor, Applicable, PseudoLegal, TakesKing,
      KingsAfterMove;
    var undo := MakeMove(pos, mv);
    below := PerftInner(pos, l, bulk, depth - 1);
    UnmakeMove(pos, mv, undo, before);
  }

  lemma TameIsSound(c: Core, depth: nat)
    requires Tame(c, depth)
    ensures depth > 0 ==> Sound(c)
  {
    hide Gen, Child, Sound;
  }

  lemma MakeCountable(pos: Position, depth: nat)
    requires pos.Valid() && Tame(pos.Recorded(), depth)
    ensures Countable(pos, depth)
  {
    hide Tame;
    PositionParts(pos);
    hide ValidSnapshot, CoherentSnapshot;
  }

  /** `perft`, or `perft_bulk`: the count is taken on a working copy. */
  method CountLeaves(pos: Position, l: AttackTables, bulk: bool, depth: nat) returns (total: nat)
    requires Ready(l) && pos.Valid() && Tame(pos.Recorded(), depth)
    ensures total == Leaves(Gen, pos.Recorded(), depth) % WORD
  {
    hide *;
    var working := new Position.Copy(pos);
    PositionParts(pos);
    PositionParts(working);
    MakeCountable(working, depth);
    total := PerftInner(working, l, bulk, depth);
  }

  /** Counting in bulk changes no count. */
  method PerftBoth(pos: Position, l: AttackTables, depth: nat) returns (plain: nat, bulk: nat)
    requires Ready(l) && pos.Valid() && Tame(pos.Recorded(), depth)
    ensures plain == bulk
  {
    hide ValidSnapshot, Ready, Sound, Leaves, Tame;
    plain := CountLeaves(pos, l, false, depth);
    bulk := CountLeaves(pos, l, true, depth);
  }
}
