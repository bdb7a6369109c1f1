/** Sliding attacks by walking each ray square by square, and the masks of squares that matter. */
module SlowAttacks {
  import opened Chess
  import opened Bitboards

  datatype Direction = Direction(file: int, rank: int)

  /** One of the eight compass directions. */
  type Compass = d: Direction | -1 <= d.file <= 1 && -1 <= d.rank <= 1 && d != Direction(0, 0)
    witness Direction(0, 1)

  predicate OnBoard(file: int, rank: int) {
    0 <= file < 8 && 0 <= rank < 8
  }

  predicate HasNext(s: Square, d: Compass) {
    OnBoard(File(s) + d.file, Rank(s) + d.rank)
  }

  function Neighbour(s: Square, d: Compass): Square
    requires HasNext(s, d)
  {
    At(File(s) + d.file, Rank(s) + d.rank)
  }

  /** Steps left to the edge along one axis, at most. */
  function AxisRoom(c: Coordinate, delta: int): nat
    requires -1 <= delta <= 1
  {
    if delta > 0 then 7 - c else if delta < 0 then c else 0
  }

  function Room(s: Square, d: Compass): nat {
    AxisRoom(File(s), d.file) + AxisRoom(Rank(s), d.rank)
  }

  lemma RoomShrinks(s: Square, d: Compass)
    requires HasNext(s, d)
    ensures File(Neighbour(s, d)) == File(s) + d.file && Rank(Neighbour(s, d)) == Rank(s) + d.rank
    ensures Room(Neighbour(s, d), d) < Room(s, d)
  {}

  /** `ray_attack`: up to and including the first occupied square. */
  function RayAttack(s: Square, d: Compass, occ: bv64): bv64
    decreases Room(s, d)
  {
    if !HasNext(s, d) then 0
    else
      RoomShrinks(s, d);
      var next := Neighbour(s, d);
      if Contains(occ, next) then With(0, next) else With(RayAttack(next, d, occ), next)
  }

  /** `ray_mask`: the ray without its last square. */
  function RayMask(s: Square, d: Compass): bv64
    decreases Room(s, d)
  {
    if !HasNext(s, d) then 0
    else
      RoomShrinks(s, d);
      var next := Neighbour(s, d);
      if !HasNext(next, d) then 0 else With(RayMask(next, d), next)
  }

  datatype Slider = RookSlider | BishopSlider

  /** The four directions of a slider, in the order the code joins them. */
  function Ray(slider: Slider, i: nat): Compass
    requires i < 4
  {
    match slider
    case RookSlider =>
      [Direction(0, 1), Direction(0, -1), Direction(1, 0), Direction(-1, 0)][i]
    case BishopSlider =>
      [Direction(1, 1), Direction(1, -1), Direction(-1, 1), Direction(-1, -1)][i]
  }

  function Attacks(slider: Slider, s: Square, occ: bv64): bv64 {
    Or(Or(Or(RayAttack(s, Ray(slider, 0), occ), RayAttack(s, Ray(slider, 1), occ)),
          RayAttack(s, Ray(slider, 2), occ)), RayAttack(s, Ray(slider, 3), occ))
  }

  function Mask(slider: Slider, s: Square): bv64 {
    Or(Or(Or(RayMask(s, Ray(slider, 0)), RayMask(s, Ray(slider, 1))), RayMask(s, Ray(slider, 2))),
       RayMask(s, Ray(slider, 3)))
  }

  lemma Or4Contains(a: bv64, b: bv64, c: bv64, d: bv64, t: Square)
    ensures Contains(Or(Or(Or(a, b), c), d), t) <==> Contains(a, t) || Contains(b, t) || Contains(c, t) || Contains(d, t)
  {
    hide Contains, Or;
    OrContains(a, b, t);
    OrContains(Or(a, b), c, t);
    OrContains(Or(Or(a, b), c), d, t);
  }

  // ---- What a ray attack is ----

  /** `t` is the `k`-th square from `s` in direction `d`. */
  predicate IsStep(s: Square, d: Compass, k: int, t: Square) {
    && File(t) == File(s) + (if d.file > 0 then k else if d.file < 0 then -k else 0)
    && Rank(t) == Rank(s) + (if d.rank > 0 then k else if d.rank < 0 then -k else 0)
  }

  ghost predicate SeesAt(s: Square, d: Compass, occ: bv64, t: Square, k: int) {
    && k >= 1
    && IsStep(s, d, k, t)
    && forall j: int, u: Square :: 1 <= j < k && IsStep(s, d, j, u) ==> !Contains(occ, u)
  }

  /** `t` lies on the ray and everything strictly between is empty. */
  ghost predicate Sees(s: Square, d: Compass, occ: bv64, t: Square) {
    exists k: int :: SeesAt(s, d, occ, t, k)
  }

  lemma StepOfNeighbour(s: Square, d: Compass, k: int, t: Square)
    requires HasNext(s, d)
    ensures IsStep(s, d, k, t) <==> IsStep(Neighbour(s, d), d, k - 1, t)
  {
    RoomShrinks(s, d);
  }

  lemma FirstStep(s: Square, d: Compass, t: Square)
    ensures IsStep(s, d, 1, t) <==> HasNext(s, d) && t == Neighbour(s, d)
  {}

  lemma NoStep(s: Square, d: Compass, k: int, t: Square)
    requires !HasNext(s, d) && k >= 1
    ensures !IsStep(s, d, k, t)
  {}

  lemma SeesAtNeighbour(s: Square, d: Compass, occ: bv64, t: Square, k: int)
    requires HasNext(s, d) && k >= 2
    ensures SeesAt(s, d, occ, t, k) <==> !Contains(occ, Neighbour(s, d)) && SeesAt(Neighbour(s, d), d, occ, t, k - 1)
  {
    hide Contains, HasNext, Neighbour, IsStep;
    var next := Neighbour(s, d);
    forall j: int, u: Square
      ensures IsStep(s, d, j, u) <==> IsStep(next, d, j - 1, u)
    {
      StepOfNeighbour(s, d, j, u);
    }
    FirstStep(s, d, next);
    if SeesAt(s, d, occ, t, k) {
      assert IsStep(s, d, 1, next);
      forall j: int, u: Square | 1 <= j < k - 1 && IsStep(next, d, j, u)
        ensures !Contains(occ, u)
      {
        assert IsStep(s, d, j + 1, u) <==> IsStep(next, d, j + 1 - 1, u);
      }
    }
    if !Contains(occ, next) && SeesAt(next, d, occ, t, k - 1) {
      forall j: int, u: Square | 1 <= j < k && IsStep(s, d, j, u)
        ensures !Contains(occ, u)
      {
        FirstStep(s, d, u);
        assert IsStep(next, d, j - 1, u);
      }
    }
  }

  lemma SeesFirst(s: Square, d: Compass, occ: bv64, t: Square)
    ensures SeesAt(s, d, occ, t, 1) <==> HasNext(s, d) && t == Neighbour(s, d)
  {
    FirstStep(s, d, t);
  }

  /** The walk attacks exactly the squares it can see, first blocker included. */
  lemma {:induction false} RayAttackSees(s: Square, d: Compass, occ: bv64, t: Square)
    ensures Contains(RayAttack(s, d, occ), t) <==> Sees(s, d, occ, t)
    decreases Room(s, d)
  {
    hide Contains, HasNext, Neighbour, With, SeesAt, Room;
    EmptyContains();
    if !HasNext(s, d) {
      forall k: int
        ensures !SeesAt(s, d, occ, t, k)
      {
        if k >= 1 { NoStep(s, d, k, t); }
        NoSee(s, d, occ, t, k);
      }
    } else {
      var next := Neighbour(s, d);
      RoomShrinks(s, d);
      RayAttackSees(next, d, occ, t);
      WithContains(0, next);
      WithContains(RayAttack(next, d, occ), next);
      SeesFirst(s, d, occ, t);
      if Sees(s, d, occ, t) {
        var k: int :| SeesAt(s, d, occ, t, k);
        NoSee(s, d, occ, t, k);
        if k >= 2 { SeesAtNeighbour(s, d, occ, t, k); }
      }
      if t == next {
        assert SeesAt(s, d, occ, t, 1);
      } else if !Contains(occ, next) && Sees(next, d, occ, t) {
        var k: int :| SeesAt(next, d, occ, t, k);
        NoSee(next, d, occ, t, k);
        SeesAtNeighbour(s, d, occ, t, k + 1);
        assert SeesAt(s, d, occ, t, k + 1);
      }
    }
  }

  lemma NoSee(s: Square, d: Compass, occ: bv64, t: Square, k: int)
    ensures SeesAt(s, d, occ, t, k) ==> k >= 1 && IsStep(s, d, k, t)
  {}

  /** A slider attacks what it sees along one of its four rays. */
  lemma AttacksSee(slider: Slider, s: Square, occ: bv64, t: Square)
    ensures Contains(Attacks(slider, s, occ), t) <==> exists i: nat :: i < 4 && Sees(s, Ray(slider, i), occ, t)
  {
    hide Contains, Or, RayAttack, Ray, Sees;
    Or4Contains(RayAttack(s, Ray(slider, 0), occ), RayAttack(s, Ray(slider, 1), occ),
                RayAttack(s, Ray(slider, 2), occ), RayAttack(s, Ray(slider, 3), occ), t);
    forall i: nat | i < 4
      ensures Contains(RayAttack(s, Ray(slider, i), occ), t) <==> Sees(s, Ray(slider, i), occ, t)
    {
      RayAttackSees(s, Ray(slider, i), occ, t);
    }
  }

  // ---- The walks ----

  /** The square `k` steps from `s` along `d`. */
  lemma StepOn(s: Square, d: Compass, cur: Square, k: nat)
    requires File(cur) == File(s) + k * d.file && Rank(cur) == Rank(s) + k * d.rank
    ensures HasNext(cur, d) <==> OnBoard(File(s) + (k + 1) * d.file, Rank(s) + (k + 1) * d.rank)
    ensures HasNext(cur, d) ==>
              && Neighbour(cur, d) == At(File(s) + (k + 1) * d.file, Rank(s) + (k + 1) * d.rank)
              && File(Neighbour(cur, d)) == File(s) + (k + 1) * d.file
              && Rank(Neighbour(cur, d)) == Rank(s) + (k + 1) * d.rank
  {
    assert (k + 1) * d.file == k * d.file + d.file && (k + 1) * d.rank == k * d.rank + d.rank;
    if HasNext(cur, d) { RoomShrinks(cur, d); }
  }

  /** `c` has exactly the members of `a` and `b`. */
  ghost predicate Joins(c: bv64, a: bv64, b: bv64) {
    forall t: Square :: Contains(c, t) <==> Contains(a, t) || Contains(b, t)
  }

  lemma JoinsMoved(c: bv64, a: bv64, rest: bv64, next: Square)
    requires Joins(c, a, With(rest, next))
    ensures Joins(c, With(a, next), rest)
  {
    hide Contains, With;
    WithContains(rest, next);
    WithContains(a, next);
  }

  lemma JoinsNothing(c: bv64, a: bv64)
    requires Joins(c, a, 0)
    ensures c == a
  {
    hide Contains;
    EmptyContains();
    Extensional(c, a);
  }

  lemma JoinsFromNothing(c: bv64)
    ensures Joins(c, 0, c)
  {
    hide Contains;
    EmptyContains();
  }

  /** The loop of `ray_attack`. */
  method WalkAttack(s: Square, d: Compass, occ: bv64) returns (acc: bv64)
    ensures acc == RayAttack(s, d, occ)
  {
    hide Contains, With, Joins, HasNext, Neighbour, Room;
    acc := 0;
    var k := 1;
    ghost var cur := s;
    JoinsFromNothing(RayAttack(s, d, occ));
    while true
      invariant k >= 1
      invariant File(cur) == File(s) + (k - 1) * d.file && Rank(cur) == Rank(s) + (k - 1) * d.rank
      invariant Joins(RayAttack(s, d, occ), acc, RayAttack(cur, d, occ))
      decreases Room(cur, d)
    {
      var file := File(s) + k * d.file;
      var rank := Rank(s) + k * d.rank;
      StepOn(s, d, cur, k - 1);
      if !OnBoard(file, rank) {
        JoinsNothing(RayAttack(s, d, occ), acc);
        return;
      }
      var next := At(file, rank);
      if Contains(occ, next) {
        JoinsMoved(RayAttack(s, d, occ), acc, 0, next);
        JoinsNothing(RayAttack(s, d, occ), With(acc, next));
        return With(acc, next);
      }
      JoinsMoved(RayAttack(s, d, occ), acc, RayAttack(next, d, occ), next);
      RoomShrinks(cur, d);
      acc := With(acc, next);
      cur := next;
      k := k + 1;
    }
  }

  /** The loop of `ray_mask`. */
  method WalkMask(s: Square, d: Compass) returns (acc: bv64)
    ensures acc == RayMask(s, d)
  {
    hide Contains, With, Joins, HasNext, Neighbour, Room;
    acc := 0;
    var k := 1;
    ghost var cur := s;
    JoinsFromNothing(RayMask(s, d));
    while true
      invariant k >= 1
      invariant File(cur) == File(s) + (k - 1) * d.file && Rank(cur) == Rank(s) + (k - 1) * d.rank
      invariant Joins(RayMask(s, d), acc, RayMask(cur, d))
      decreases Room(cur, d)
    {
      var file := File(s) + k * d.file;
      var rank := Rank(s) + k * d.rank;
      StepOn(s, d, cur, k - 1);
      if !OnBoard(file, rank) {
        JoinsNothing(RayMask(s, d), acc);
        return;
      }
      var next := At(file, rank);
      StepOn(s, d, next, k);
      StepBeyond(s, d, k);
      if !OnBoard(file + d.file, rank + d.rank) {
        JoinsNothing(RayMask(s, d), acc);
        return;
      }
      JoinsMoved(RayMask(s, d), acc, RayMask(next, d), next);
      RoomShrinks(cur, d);
      acc := With(acc, next);
      cur := next;
      k := k + 1;
    }
  }

  lemma StepBeyond(s: Square, d: Compass, k: nat)
    ensures File(s) + (k + 1) * d.file == File(s) + k * d.file + d.file
    ensures Rank(s) + (k + 1) * d.rank == Rank(s) + k * d.rank + d.rank
  {}

  /** The ray walker's `rook_attacks` and `bishop_attacks`. */
  method SlowAttack(slider: Slider, s: Square, occ: bv64) returns (attacks: bv64)
    ensures attacks == Attacks(slider, s, occ)
  {
    hide RayAttack, Ray, Or;
    var a := WalkAttack(s, Ray(slider, 0), occ);
    var b := WalkAttack(s, Ray(slider, 1), occ);
    var c := WalkAttack(s, Ray(slider, 2), occ);
    var d := WalkAttack(s, Ray(slider, 3), occ);
    attacks := Or(Or(Or(a, b), c), d);
  }

  /** `rook_mask` and `bishop_mask`. */
  method SlowMask(slider: Slider, s: Square) returns (mask: bv64)
    ensures mask == Mask(slider, s)
  {
    hide RayMask, Ray, Or;
    var a := WalkMask(s, Ray(slider, 0));
    var b := WalkMask(s, Ray(slider, 1));
    var c := WalkMask(s, Ray(slider, 2));
    var d := WalkMask(s, Ray(slider, 3));
    mask := Or(Or(Or(a, b), c), d);
  }

  // ---- Blockers outside the mask never matter ----

  ghost predicate SameOn(mask: bv64, a: bv64, b: bv64) {
    forall t: Square :: Contains(mask, t) ==> (Contains(a, t) <==> Contains(b, t))
  }

  lemma {:induction false} RayDependsOnMask(s: Square, d: Compass, a: bv64, b: bv64)
    requires SameOn(RayMask(s, d), a, b)
    ensures RayAttack(s, d, a) == RayAttack(s, d, b)
    decreases Room(s, d)
  {
    hide Contains, HasNext, Neighbour, With, Room;
    if HasNext(s, d) {
      RoomShrinks(s, d);
      var next := Neighbour(s, d);
      if HasNext(next, d) {
        WithContains(RayMask(next, d), next);
        RayDependsOnMask(next, d, a, b);
      }
    }
  }

  lemma MaskHasRay(slider: Slider, s: Square, i: nat, t: Square)
    requires i < 4 && Contains(RayMask(s, Ray(slider, i)), t)
    ensures Contains(Mask(slider, s), t)
  {
    hide Contains, Or, RayMask, Ray;
    Or4Contains(RayMask(s, Ray(slider, 0)), RayMask(s, Ray(slider, 1)),
                RayMask(s, Ray(slider, 2)), RayMask(s, Ray(slider, 3)), t);
  }

  lemma RayMasked(slider: Slider, s: Square, i: nat, occ: bv64)
    requires i < 4
    ensures RayAttack(s, Ray(slider, i), And(occ, Mask(slider, s))) == RayAttack(s, Ray(slider, i), occ)
  {
    hide Contains, And, RayAttack, RayMask, Ray, Mask;
    var mask := Mask(slider, s);
    forall t: Square | Contains(RayMask(s, Ray(slider, i)), t)
      ensures Contains(And(occ, mask), t) <==> Contains(occ, t)
    {
      AndContains(occ, mask, t);
      MaskHasRay(slider, s, i, t);
    }
    RayDependsOnMask(s, Ray(slider, i), And(occ, mask), occ);
  }

  lemma MaskedBlockersSuffice(slider: Slider, s: Square, occ: bv64)
    ensures Attacks(slider, s, And(occ, Mask(slider, s))) == Attacks(slider, s, occ)
  {
    hide And, Or, RayAttack, Ray, Mask;
    RayMasked(slider, s, 0, occ);
    RayMasked(slider, s, 1, occ);
    RayMasked(slider, s, 2, occ);
    RayMasked(slider, s, 3, occ);
  }

  // ---- A slider always attacks something ----

  lemma SomeNeighbour(slider: Slider, s: Square) returns (i: nat)
    ensures i < 4 && HasNext(s, Ray(slider, i))
  {
    if slider.RookSlider? {
      i := if Rank(s) < 7 then 0 else 1;
    } else if Rank(s) < 7 {
      i := if File(s) < 7 then 0 else 2;
    } else {
      i := if File(s) < 7 then 1 else 3;
    }
  }

  lemma NeverEmpty(slider: Slider, s: Square, occ: bv64)
    ensures Attacks(slider, s, occ) != 0
  {
    var i := SomeNeighbour(slider, s);
    hide Contains, HasNext, Neighbour, With, Or, Ray, Room;
    var d := Ray(slider, i);
    var next := Neighbour(s, d);
    WithContains(0, next);
    WithContains(RayAttack(next, d, occ), next);
    assert Contains(RayAttack(s, d, occ), next);
    Or4Contains(RayAttack(s, Ray(slider, 0), occ), RayAttack(s, Ray(slider, 1), occ), RayAttack(s, Ray(slider, 2), occ),
                RayAttack(s, Ray(slider, 3), occ), next);
    assert Contains(Attacks(slider, s, occ), next);
    EmptyContains();
  }
}
