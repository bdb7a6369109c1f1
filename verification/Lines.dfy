/** Squares in line with one another, and what a slider sees along a line. */
module Lines {
  import opened Chess
  import opened Bitboards
  import opened SlowAttacks

  predicate Amid(a: int, b: int, u: int) {
    a < u < b || b < u < a
  }

  /** `b` lies on one of the slider's lines through `a`. */
  predicate Lined(slider: Slider, a: Square, b: Square) {
    && a != b
    && match slider
       case RookSlider => File(a) == File(b) || Rank(a) == Rank(b)
       case BishopSlider => Distance(File(a), File(b)) == Distance(Rank(a), Rank(b))
  }

  /** `u` lies on the line through `a` and `b`, which are in line. */
  predicate OnLine(a: Square, b: Square, u: Square) {
    || (File(a) == File(b) == File(u))
    || (Rank(a) == Rank(b) == Rank(u))
    || (File(a) - File(b) == Rank(a) - Rank(b) && File(a) - File(u) == Rank(a) - Rank(u))
    || (File(a) - File(b) == Rank(b) - Rank(a) && File(a) - File(u) == Rank(u) - Rank(a))
  }

  /** `u` lies strictly between `a` and `b` on a common line. */
  predicate Inside(a: Square, b: Square, u: Square) {
    OnLine(a, b, u) && (Amid(File(a), File(b), File(u)) || Amid(Rank(a), Rank(b), Rank(u)))
  }

  lemma LinesSymmetric(a: Square, b: Square, u: Square)
    ensures Inside(a, b, u) == Inside(b, a, u)
    ensures forall slider: Slider :: Lined(slider, a, b) == Lined(slider, b, a)
  {
    hide File, Rank;
  }

  /** Of two squares behind the same square as seen from `k`, the nearer stands before the farther. */
  lemma NearerInside(k: Square, a: Square, b: Square, u: Square)
    requires Inside(k, a, u) && Inside(k, b, u) && a != b
    ensures Inside(k, a, b) || Inside(k, b, a)
  {
    if File(a) == File(b) && Rank(a) == Rank(b) { SameSquare(a, b); }
    hide File, Rank;
  }

  /** Leaving the segment between `k` and `a` along the line means crossing one of its ends. */
  lemma LeavingSegment(k: Square, a: Square, f: Square, t: Square)
    requires Inside(k, a, f) && OnLine(k, a, t) && t != k && t != f
    ensures Inside(k, a, t) || t == a || Inside(f, t, a) || Inside(f, t, k)
  {
    if File(a) == File(t) && Rank(a) == Rank(t) { SameSquare(a, t); }
    if File(k) == File(t) && Rank(k) == Rank(t) { SameSquare(k, t); }
    if File(f) == File(t) && Rank(f) == Rank(t) { SameSquare(f, t); }
    hide File, Rank;
  }

  /** A part of a segment lies inside it. */
  lemma Nested(a: Square, s: Square, k: Square, u: Square)
    requires Inside(a, s, k) && Inside(a, k, u)
    ensures Inside(a, s, u)
  {
    hide File, Rank;
  }

  lemma LinedToMiddle(slider: Slider, a: Square, s: Square, k: Square)
    requires Inside(a, s, k) && Lined(slider, a, s)
    ensures Lined(slider, a, k)
  {
    hide File, Rank;
  }

  lemma NotInsideItself(a: Square, s: Square)
    ensures !Inside(a, s, s) && !Inside(a, s, a)
  {}

  /** A leap of one and two never ends on the line it started from. */
  lemma LeapLeavesLine(k: Square, a: Square, f: Square, t: Square)
    requires Inside(k, a, f) && Distance(File(f), File(t)) + Distance(Rank(f), Rank(t)) == 3
    requires Distance(File(f), File(t)) != 0 && Distance(Rank(f), Rank(t)) != 0
    ensures !OnLine(k, a, t)
  {
    hide File, Rank;
  }

  lemma EndOnLine(k: Square, a: Square, f: Square)
    requires Inside(k, a, f)
    ensures OnLine(k, a, a) && !Inside(k, a, a) && !Inside(k, a, k)
  {
    hide File, Rank;
  }

  // ---- Lines and rays ----

  /** How many king steps apart two squares are. */
  function Steps(a: Square, b: Square): nat {
    if Distance(File(a), File(b)) < Distance(Rank(a), Rank(b)) then Distance(Rank(a), Rank(b))
    else Distance(File(a), File(b))
  }

  lemma SameSquare(a: Square, b: Square)
    requires File(a) == File(b) && Rank(a) == Rank(b)
    ensures a == b
  {}

  /** The squares between are those the ray meets on its way. */
  lemma InsideSteps(a: Square, d: Compass, k: int, b: Square, u: Square)
    requires k >= 1 && IsStep(a, d, k, b)
    ensures Inside(a, b, u) <==> 1 <= Steps(a, u) < k && IsStep(a, d, Steps(a, u), u)
    ensures forall j: int :: j >= 1 && IsStep(a, d, j, u) ==> j == Steps(a, u)
  {
    hide File, Rank;
  }

  lemma RayLined(slider: Slider, i: nat, a: Square, k: int, b: Square)
    requires i < 4 && k >= 1 && IsStep(a, Ray(slider, i), k, b)
    ensures Lined(slider, a, b)
  {
    hide File, Rank;
  }

  lemma RayTowards(slider: Slider, a: Square, b: Square) returns (i: nat)
    requires Lined(slider, a, b)
    ensures i < 4 && Steps(a, b) >= 1 && IsStep(a, Ray(slider, i), Steps(a, b), b)
  {
    if File(a) == File(b) && Rank(a) == Rank(b) { SameSquare(a, b); }
    hide File, Rank;
    match slider
    case RookSlider =>
      i := if File(a) == File(b) then (if Rank(a) < Rank(b) then 0 else 1) else if File(a) < File(b) then 2 else 3;
    case BishopSlider =>
      i := if File(a) < File(b) then (if Rank(a) < Rank(b) then 0 else 1) else if Rank(a) < Rank(b) then 2 else 3;
  }

  /** A slider attacks a square exactly when it is in line with it and nothing stands between. */
  lemma AttacksAlongLines(slider: Slider, a: Square, b: Square, occ: bv64)
    ensures Contains(Attacks(slider, a, occ), b) <==>
            Lined(slider, a, b) && forall u: Square :: Inside(a, b, u) ==> !Contains(occ, u)
  {
    hide Contains, Attacks, Ray, IsStep, Inside, Lined, Steps;
    AttacksSee(slider, a, occ, b);
    if i: nat, k: int :| i < 4 && SeesAt(a, Ray(slider, i), occ, b, k) {
      RayLined(slider, i, a, k, b);
      forall u: Square | Inside(a, b, u)
        ensures !Contains(occ, u)
      {
        InsideSteps(a, Ray(slider, i), k, b, u);
      }
    }
    if Lined(slider, a, b) && forall u: Square :: Inside(a, b, u) ==> !Contains(occ, u) {
      var i := RayTowards(slider, a, b);
      var k := Steps(a, b);
      forall j: int, u: Square | 1 <= j < k && IsStep(a, Ray(slider, i), j, u)
        ensures !Contains(occ, u)
      {
        InsideSteps(a, Ray(slider, i), k, b, u);
      }
      assert SeesAt(a, Ray(slider, i), occ, b, k);
    }
  }

  // ---- What a mask is ----

  /** A square of a ray's mask has another one behind it. */
  lemma {:induction false} MaskStep(s: Square, d: Compass, t: Square) returns (k: int, u: Square)
    requires Contains(RayMask(s, d), t)
    ensures k >= 1 && IsStep(s, d, k, t) && IsStep(s, d, k + 1, u)
    decreases Room(s, d)
  {
    hide Contains, IsStep, With, Room;
    EmptyContains();
    RoomShrinks(s, d);
    var next := Neighbour(s, d);
    FirstStep(s, d, next);
    WithContains(RayMask(next, d), next);
    if t == next {
      k, u := 1, Neighbour(next, d);
      FirstStep(next, d, u);
      StepOfNeighbour(s, d, 2, u);
    } else {
      k, u := MaskStep(next, d, t);
      StepOfNeighbour(s, d, k + 1, t);
      StepOfNeighbour(s, d, k + 2, u);
      k := k + 1;
    }
  }

  lemma MaskRay(slider: Slider, s: Square, t: Square) returns (i: nat)
    requires Contains(Mask(slider, s), t)
    ensures i < 4 && Contains(RayMask(s, Ray(slider, i)), t)
  {
    hide Contains, Or, RayMask, Ray;
    Or4Contains(RayMask(s, Ray(slider, 0)), RayMask(s, Ray(slider, 1)),
                RayMask(s, Ray(slider, 2)), RayMask(s, Ray(slider, 3)), t);
    i := if Contains(RayMask(s, Ray(slider, 0)), t) then 0
    else if Contains(RayMask(s, Ray(slider, 1)), t) then 1
    else if Contains(RayMask(s, Ray(slider, 2)), t) then 2 else 3;
  }

  /** A blocker outside the mask leaves the attacks as they are on an empty board. */
  lemma StrayBlocker(slider: Slider, s: Square, t: Square)
    requires !Contains(Mask(slider, s), t)
    ensures Attacks(slider, s, With(0, t)) == Attacks(slider, s, 0)
  {
    hide Contains, Attacks, Mask, And, With;
    MaskedBlockersSuffice(slider, s, With(0, t));
    WithContains(0, t);
    EmptyContains();
    var rest := And(With(0, t), Mask(slider, s));
    forall u: Square
      ensures Contains(rest, u) == Contains(0, u)
    {
      AndContains(With(0, t), Mask(slider, s), u);
    }
    Extensional(rest, 0);
  }

  /** The mask holds exactly the squares that stand before another one in line: those whose blockers matter. */
  lemma MaskLaw(slider: Slider, s: Square, t: Square)
    ensures Contains(Mask(slider, s), t) <==> exists u: Square :: Lined(slider, s, u) && Inside(s, u, t)
    ensures Contains(Mask(slider, s), t) <==> Attacks(slider, s, With(0, t)) != Attacks(slider, s, 0)
  {
    hide Contains, Attacks, Mask, Ray, RayMask, IsStep, Inside, Lined, Steps, With;
    if Contains(Mask(slider, s), t) {
      var i := MaskRay(slider, s, t);
      var k, u := MaskStep(s, Ray(slider, i), t);
      InsideSteps(s, Ray(slider, i), k + 1, u, t);
      RayLined(slider, i, s, k + 1, u);
      assert Lined(slider, s, u) && Inside(s, u, t);
    } else {
      StrayBlocker(slider, s, t);
    }
    if u: Square :| Lined(slider, s, u) && Inside(s, u, t) {
      EmptyContains();
      WithContains(0, t);
      AttacksAlongLines(slider, s, u, 0);
      AttacksAlongLines(slider, s, u, With(0, t));
    }
  }
}
