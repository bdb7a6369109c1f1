/** Leaf counts move by move, in UCI order. */
module Divide {
  import opened Chess
  import opened Rules
  import opened Text
  import opened Positions
  import opened Transition
  import opened Moves
  import opened Legality
  import opened Generation
  import opened Lookups
  import opened Movegen
  import opened Perft

  // ---- Text order ----

  predicate Before(a: string, b: string) {
    b != "" && (a == "" || a[0] < b[0] || (a[0] == b[0] && Before(a[1..], b[1..])))
  }

  lemma {:induction false} BeforeTotal(a: string, b: string)
    ensures a == b || Before(a, b) || Before(b, a)
  {
    if a != "" && b != "" && a[0] == b[0] {
      BeforeTotal(a[1..], b[1..]);
      assert a == [a[0]] + a[1..] && b == [b[0]] + b[1..];
    }
  }

  lemma {:induction false} BeforeTransitive(a: string, b: string, c: string)
    requires Before(a, b) && Before(b, c)
    ensures Before(a, c)
  {
    if a != "" && a[0] == b[0] == c[0] { BeforeTransitive(a[1..], b[1..], c[1..]); }
  }

  lemma Heads(a: string, b: string)
    ensures forall n: nat :: 0 < n <= |a| && n <= |b| && a[..n] == b[..n] ==> a[0] == b[0]
  {
    forall n: nat | 0 < n <= |a| && n <= |b|
      ensures a[..n] == b[..n] ==> a[0] == b[0]
    {
      assert a[..n][0] == a[0] && b[..n][0] == b[0];
    }
  }

  /** The lesser text is a beginning of the other, or has the smaller character where they first differ. */
  lemma {:induction false} BeforeLaw(a: string, b: string)
    ensures Before(a, b) <==>
            exists n: nat :: n < |b| && n <= |a| && a[..n] == b[..n] && (n < |a| ==> a[n] < b[n])
  {
    if a != "" && b != "" && a[0] == b[0] {
      BeforeLaw(a[1..], b[1..]);
      forall n: nat | n < |a| && n < |b|
        ensures a[..n + 1] == b[..n + 1] <==> a[1..][..n] == b[1..][..n]
      {
        assert a[..n + 1] == [a[0]] + a[1..][..n] && b[..n + 1] == [b[0]] + b[1..][..n];
      }
      if Before(a, b) {
        var n: nat :| n < |b[1..]| && n <= |a[1..]| && a[1..][..n] == b[1..][..n] && (n < |a[1..]| ==> a[1..][n] < b[1..][n]);
        assert a[..n + 1] == b[..n + 1];
      }
      if n: nat :| n < |b| && n <= |a| && a[..n] == b[..n] && (n < |a| ==> a[n] < b[n]) {
        assert n > 0;
        assert a[..(n - 1) + 1] == b[..(n - 1) + 1];
        assert a[1..][..n - 1] == b[1..][..n - 1];
      }
    } else if Before(a, b) {
      assert a[..0] == b[..0];
    } else {
      Heads(a, b);
    }
  }

  // ---- The sort ----

  datatype Entry = Entry(mv: Move, count: nat)

  predicate KeyedBefore(a: Entry, b: Entry) {
    Before(ToUci(a.mv), ToUci(b.mv))
  }

  predicate InOrder(es: seq<Entry>) {
    forall i, j :: 0 <= i < j < |es| ==> !KeyedBefore(es[j], es[i])
  }

  function Insert(e: Entry, es: seq<Entry>): seq<Entry> {
    if es == [] || !KeyedBefore(es[0], e) then [e] + es else [es[0]] + Insert(e, es[1..])
  }

  /** The standard library's stable sort, by UCI text. */
  function Sort(es: seq<Entry>): seq<Entry> {
    if es == [] then [] else Insert(es[0], Sort(es[1..]))
  }

  lemma {:induction false} InsertMembers(e: Entry, es: seq<Entry>)
    ensures multiset(Insert(e, es)) == multiset(es) + multiset{e}
  {
    hide KeyedBefore;
    if !(es == [] || !KeyedBefore(es[0], e)) {
      InsertMembers(e, es[1..]);
      assert es == [es[0]] + es[1..];
    }
  }

  lemma {:induction false} SortMembers(es: seq<Entry>)
    ensures multiset(Sort(es)) == multiset(es)
  {
    if es != [] {
      SortMembers(es[1..]);
      InsertMembers(es[0], Sort(es[1..]));
      assert es == [es[0]] + es[1..];
    }
  }

  lemma NotBeforeTransitive(a: Entry, b: Entry, c: Entry)
    requires !KeyedBefore(b, a) && !KeyedBefore(c, b)
    ensures !KeyedBefore(c, a)
  {
    hide ToUci;
    if KeyedBefore(c, a) {
      BeforeTotal(ToUci(a.mv), ToUci(b.mv));
      if Before(ToUci(a.mv), ToUci(b.mv)) { BeforeTransitive(ToUci(c.mv), ToUci(a.mv), ToUci(b.mv)); }
    }
  }

  lemma BeforeAsymmetric(a: Entry, b: Entry)
    requires KeyedBefore(a, b)
    ensures !KeyedBefore(b, a)
  {
    hide ToUci;
    if KeyedBefore(b, a) {
      BeforeTransitive(ToUci(a.mv), ToUci(b.mv), ToUci(a.mv));
      BeforeIrreflexive(ToUci(a.mv));
    }
  }

  lemma {:induction false} BeforeIrreflexive(a: string)
    ensures !Before(a, a)
  {
    if a != "" { BeforeIrreflexive(a[1..]); }
  }

  lemma {:induction false} InsertInOrder(e: Entry, es: seq<Entry>)
    requires InOrder(es)
    ensures InOrder(Insert(e, es))
  {
    hide KeyedBefore;
    if es == [] {
    } else if !KeyedBefore(es[0], e) {
      forall j | 0 <= j < |es|
        ensures !KeyedBefore(es[j], e)
      {
        if j > 0 { NotBeforeTransitive(e, es[0], es[j]); }
      }
    } else {
      InsertInOrder(e, es[1..]);
      InsertMembers(e, es[1..]);
      var rest := Insert(e, es[1..]);
      BeforeAsymmetric(es[0], e);
      forall x | x in rest
        ensures !KeyedBefore(x, es[0])
      {
        assert x in multiset(rest);
        if x != e {
          assert x in multiset(es[1..]);
          var j :| 0 <= j < |es[1..]| && es[1..][j] == x;
          assert es[j + 1] == x;
        }
      }
    }
  }

  lemma {:induction false} SortInOrder(es: seq<Entry>)
    ensures InOrder(Sort(es))
  {
    if es != [] {
      SortInOrder(es[1..]);
      InsertInOrder(es[0], Sort(es[1..]));
    }
  }

  // ---- The order does not depend on the generator ----

  ghost predicate TextsDiffer(es: seq<Entry>) {
    forall x, y :: x in es && y in es && ToUci(x.mv) == ToUci(y.mv) ==> x == y
  }

  lemma LeastIsFirst(a: seq<Entry>, b: seq<Entry>)
    requires a != [] && b != [] && InOrder(a) && InOrder(b) && multiset(a) == multiset(b) && TextsDiffer(a)
    ensures a[0] == b[0]
  {
    hide KeyedBefore;
    assert b[0] in multiset(a) && a[0] in multiset(b);
    var i :| 0 <= i < |a| && a[i] == b[0];
    var j :| 0 <= j < |b| && b[j] == a[0];
    if i > 0 && j > 0 {
      assert !KeyedBefore(a[i], a[0]) && !KeyedBefore(b[j], b[0]);
      NeitherBefore(a[0], b[0]);
    }
  }

  lemma NeitherBefore(a: Entry, b: Entry)
    requires !KeyedBefore(a, b) && !KeyedBefore(b, a)
    ensures ToUci(a.mv) == ToUci(b.mv)
  {
    hide ToUci;
    BeforeTotal(ToUci(a.mv), ToUci(b.mv));
  }

  /** Two orderings of the same entries are the same sequence. */
  lemma {:induction false} OrderDetermined(a: seq<Entry>, b: seq<Entry>)
    requires InOrder(a) && InOrder(b) && multiset(a) == multiset(b) && TextsDiffer(a)
    ensures a == b
  {
    hide KeyedBefore, ToUci;
    assert |a| == |multiset(a)| && |b| == |multiset(b)|;
    if a != [] {
      LeastIsFirst(a, b);
      assert a == [a[0]] + a[1..] && b == [b[0]] + b[1..];
      assert multiset(a[1..]) == multiset(a) - multiset{a[0]};
      assert multiset(b[1..]) == multiset(b) - multiset{b[0]};
      OrderDetermined(a[1..], b[1..]);
    }
  }

  // ---- Sums ----

  function TotalCount(es: seq<Entry>): nat {
    if es == [] then 0 else es[0].count + TotalCount(es[1..])
  }

  lemma {:induction false} InsertTotal(e: Entry, es: seq<Entry>)
    ensures TotalCount(Insert(e, es)) == e.count + TotalCount(es)
  {
    hide KeyedBefore;
    if es == [] || !KeyedBefore(es[0], e) {
      assert ([e] + es)[1..] == es;
    } else {
      InsertTotal(e, es[1..]);
      assert ([es[0]] + Insert(e, es[1..]))[1..] == Insert(e, es[1..]);
    }
  }

  lemma {:induction false} SortTotal(es: seq<Entry>)
    ensures TotalCount(Sort(es)) == TotalCount(es)
  {
    if es != [] {
      SortTotal(es[1..]);
      InsertTotal(es[0], Sort(es[1..]));
    }
  }

  lemma {:induction false} TotalSnoc(es: seq<Entry>, e: Entry)
    ensures TotalCount(es + [e]) == TotalCount(es) + e.count
  {
    if es == [] {
      assert es + [e] == [e];
    } else {
      TotalSnoc(es[1..], e);
      assert (es + [e])[1..] == es[1..] + [e];
    }
  }

  // ---- divide ----

  /** One entry for each move, in generation order. */
  ghost function Tallied(gen: Generator, c: Core, moves: seq<Move>, depth: nat): seq<Entry>
    requires depth > 0
  {
    seq(|moves|, i requires 0 <= i < |moves| => Entry(moves[i], Leaves(gen, Child(c, moves[i]), depth - 1) % WORD))
  }

  lemma {:induction false} TalliedTotal(gen: Generator, c: Core, moves: seq<Move>, depth: nat)
    requires depth > 0
    ensures TotalCount(Tallied(gen, c, moves, depth)) % WORD == LeavesBelow(gen, c, moves, depth) % WORD
  {
    hide Leaves, Child;
    if moves != [] {
      var last := |moves| - 1;
      TalliedTotal(gen, c, moves[..last], depth);
      var entry := Entry(moves[last], Leaves(gen, Child(c, moves[last]), depth - 1) % WORD);
      assert Tallied(gen, c, moves, depth) == Tallied(gen, c, moves[..last], depth) + [entry];
      TotalSnoc(Tallied(gen, c, moves[..last], depth), entry);
      ModuloSum(TotalCount(Tallied(gen, c, moves[..last], depth)), LeavesBelow(gen, c, moves[..last], depth),
                Leaves(gen, Child(c, moves[last]), depth - 1));
    }
  }

  lemma ModuloSum(a: nat, b: nat, n: nat)
    requires a % WORD == b % WORD
    ensures (a + n % WORD) % WORD == (b + n) % WORD
  {}

  /** Different pseudo-legal moves have different texts. */
  lemma DistinctTexts(c: Core, a: Move, b: Move)
    requires Sound(c) && PseudoLegal(c, a) && PseudoLegal(c, b) && ToUci(a) == ToUci(b)
    ensures a == b
  {
    UciShape(a);
    UciShape(b);
    SquareNames(SquareName(a.from), a.from);
    SquareNames(SquareName(b.from), b.from);
    SquareNames(SquareName(a.to), a.to);
    SquareNames(SquareName(b.to), b.to);
    hide ToUci, SquareName, ParseSquare, Sound, PseudoLegal;
    FlagDetermined(c, a, b);
  }

  /** Entries for distinct pseudo-legal moves have distinct texts. */
  lemma TalliedTextsDiffer(gen: Generator, c: Core, moves: seq<Move>, depth: nat)
    requires Sound(c) && depth > 0 && forall mv :: mv in moves ==> PseudoLegal(c, mv)
    ensures TextsDiffer(Tallied(gen, c, moves, depth))
  {
    hide Sound, PseudoLegal, ToUci, Leaves, Child;
    var es := Tallied(gen, c, moves, depth);
    forall x, y | x in es && y in es && ToUci(x.mv) == ToUci(y.mv)
      ensures x == y
    {
      var i :| 0 <= i < |es| && es[i] == x;
      var j :| 0 <= j < |es| && es[j] == y;
      DistinctTexts(c, moves[i], moves[j]);
    }
  }

  ghost predicate Ascends(es: seq<Entry>) {
    forall i, j :: 0 <= i < j < |es| ==> KeyedBefore(es[i], es[j])
  }

  /** Sorting moves that are generated once each leaves no two equal keys: the order is strict. */
  lemma SortedAscends(es: seq<Entry>)
    requires TextsDiffer(es) && forall e :: multiset(es)[e] <= 1
    ensures Ascends(Sort(es))
  {
    var sorted := Sort(es);
    SortInOrder(es);
    SortMembers(es);
    hide KeyedBefore, ToUci, Sort;
    forall i, j | 0 <= i < j < |sorted|
      ensures KeyedBefore(sorted[i], sorted[j])
    {
      assert sorted[i] in multiset(sorted) && sorted[j] in multiset(sorted);
      OnceApart(sorted, i, j);
      if !KeyedBefore(sorted[i], sorted[j]) { NeitherBefore(sorted[i], sorted[j]); }
    }
  }

  lemma OnceApart(es: seq<Entry>, i: nat, j: nat)
    requires i < j < |es| && multiset(es)[es[i]] <= 1
    ensures es[i] != es[j]
  {
    assert es == es[..j] + [es[j]] + es[j + 1..];
    assert es[..j] == es[..i] + [es[i]] + es[i + 1..j];
  }

  lemma {:induction false} DistinctOnce(moves: seq<Move>)
    requires Distinct(moves)
    ensures forall mv :: multiset(moves)[mv] <= 1
  {
    if moves != [] {
      var last := |moves| - 1;
      DistinctOnce(moves[..last]);
      assert moves == moves[..last] + [moves[last]];
      assert moves[last] !in multiset(moves[..last]);
    }
  }

  lemma {:induction false} TalliedOnce(gen: Generator, c: Core, moves: seq<Move>, depth: nat)
    requires depth > 0
    ensures forall e :: multiset(Tallied(gen, c, moves, depth))[e] <= multiset(moves)[e.mv]
  {
    hide Leaves, Child;
    if moves != [] {
      var last := |moves| - 1;
      assert moves == moves[..last] + [moves[last]];
      TalliedOnce(gen, c, moves[..last], depth);
      var entry := Entry(moves[last], Leaves(gen, Child(c, moves[last]), depth - 1) % WORD);
      assert Tallied(gen, c, moves, depth) == Tallied(gen, c, moves[..last], depth) + [entry];
    }
  }

  lemma {:induction false} TalliedSame(a: Generator, b: Generator, c: Core, ms: seq<Move>, ns: seq<Move>, depth: nat)
    requires Reorders(a, b) && depth > 0 && multiset(ms) == multiset(ns)
    ensures multiset(Tallied(a, c, ms, depth)) == multiset(Tallied(b, c, ns, depth))
    decreases |ms|
  {
    hide Leaves, Child;
    SameLength(ms, ns);
    if ms != [] {
      var last := |ms| - 1;
      var j := TakeOut(ms, ns);
      var rest := ns[..j] + ns[j + 1..];
      TalliedSame(a, b, c, ms[..last], rest, depth);
      SameLeaves(a, b, Child(c, ms[last]), depth - 1);
      var entry := Entry(ms[last], Leaves(a, Child(c, ms[last]), depth - 1) % WORD);
      assert Tallied(a, c, ms, depth) == Tallied(a, c, ms[..last], depth) + [entry];
      var es := Tallied(b, c, ns, depth);
      assert es == es[..j] + [entry] + es[j + 1..];
      assert Tallied(b, c, rest, depth) == es[..j] + es[j + 1..];
    }
  }

  /** Whatever order the same moves are emitted in, at every ply, the sorted entries are the same. */
  lemma DivideAnyOrder(a: Generator, b: Generator, c: Core, depth: nat)
    requires Reorders(a, b) && depth > 0 && Sound(c)
    requires forall mv :: mv in a(c) ==> PseudoLegal(c, mv)
    ensures Sort(Tallied(a, c, a(c), depth)) == Sort(Tallied(b, c, b(c), depth))
  {
    var x, y := Tallied(a, c, a(c), depth), Tallied(b, c, b(c), depth);
    TalliedTextsDiffer(a, c, a(c), depth);
    TalliedSame(a, b, c, a(c), b(c), depth);
    hide Sound, PseudoLegal, Tallied, InOrder, ToUci;
    SortInOrder(x);
    SortInOrder(y);
    SortMembers(x);
    SortMembers(y);
    forall e
      ensures e in Sort(x) <==> e in x
    {
      assert e in Sort(x) <==> e in multiset(Sort(x));
      assert e in x <==> e in multiset(x);
    }
    OrderDetermined(Sort(x), Sort(y));
  }

  /** One count for each move. */
  method TallyAll(pos: Position, l: AttackTables, depth: nat, moves: seq<Move>) returns (entries: seq<Entry>)
    requires Ready(l) && pos.Valid() && Playable(pos.Recorded(), moves, depth)
    modifies pos
    ensures depth > 0 && pos.Fields() == old(pos.Fields())
    ensures entries == Tallied(Gen, old(pos.Recorded()), moves, depth)
  {
    hide ValidSnapshot, Sound, Ready, Gen, Child, Leaves, Tame;
    ghost var before := pos.Fields();
    entries := [];
    for i := 0 to |moves|
      invariant pos.Fields() == before
      invariant entries == Tallied(Gen, before.core, moves[..i], depth)
    {
      var count := Visit(pos, l, false, depth, moves[i]);
      entries := entries + [Entry(moves[i], count)];
    }
    assert moves[..|moves|] == moves;
  }

  lemma DivisionSorted(c: Core, depth: nat)
    requires Sound(c) && depth > 0
    ensures var es := Tallied(Gen, c, Gen(c), depth);
            && Ascends(Sort(es)) && multiset(Sort(es)) == multiset(es)
            && TotalCount(Sort(es)) % WORD == Leaves(Gen, c, depth) % WORD
  {
    var es := Tallied(Gen, c, Gen(c), depth);
    GenHas(c);
    forall mv | mv in Gen(c)
      ensures PseudoLegal(c, mv)
    {
      assert Passes(c, mv);
    }
    hide Sound, PseudoLegal, Passes, Gen, Tallied, Sort, TextsDiffer, Ascends, Distinct;
    TalliedTextsDiffer(Gen, c, Gen(c), depth);
    DistinctOnce(Gen(c));
    TalliedOnce(Gen, c, Gen(c), depth);
    SortedAscends(es);
    SortMembers(es);
    SortTotal(es);
    TalliedTotal(Gen, c, Gen(c), depth);
    LeavesAre(c, depth);
  }

  /** The body of `divide`, on its working copy. */
  method DivideWorking(working: Position, l: AttackTables, depth: nat) returns (entries: seq<Entry>)
    requires Ready(l) && working.Valid() && depth >= 1 && Tame(working.Recorded(), depth)
    modifies working
    ensures entries == Sort(Tallied(Gen, old(working.Recorded()), Gen(old(working.Recorded())), depth))
  {
    hide *;
    ChildrenTame(working.Recorded(), depth);
    var moves := GenerateMoves(working, l);
    entries := TallyAll(working, l, depth, moves);
    entries := Sort(entries);
  }

  /** `divide`: every generated move once with its leaf count, strictly ascending by text; the board is only read. */
  method DivideAt(pos: Position, l: AttackTables, depth: nat) returns (entries: seq<Entry>)
    requires Ready(l) && pos.Valid() && depth >= 1 && Tame(pos.Recorded(), depth)
    ensures Ascends(entries)
    ensures multiset(entries) == multiset(Tallied(Gen, pos.Recorded(), Gen(pos.Recorded()), depth))
    ensures TotalCount(entries) % WORD == Leaves(Gen, pos.Recorded(), depth) % WORD
  {
    hide *;
    ValidIsSound(pos);
    DivisionSorted(pos.Recorded(), depth);
    var working := new Position.Copy(pos);
    PositionParts(pos);
    PositionParts(working);
    entries := DivideWorking(working, l, depth);
  }

  lemma ValidIsSound(pos: Position)
    requires pos.Valid()
    ensures Sound(pos.Recorded())
  {
    hide Sound;
  }
}
