/** Single bits of a word, and what a shift does to them. */
module Bits {
  predicate BitAt(b: bv64, i: bv6) {
    (b >> i) & 1 == 1
  }

  function Up(b: bv64, n: bv6): bv64 {
    b << n
  }

  function Down(b: bv64, n: bv6): bv64 {
    b >> n
  }

  function Minus(a: bv6, b: bv6): bv6 {
    a - b
  }

  // ---- In six-bit arithmetic ----

  lemma LeftSets(b: bv64, n: bv6, i: bv6)
    requires i >= n && BitAt(b, i - n)
    ensures BitAt(b << n, i)
  {}

  lemma LeftOnly(b: bv64, n: bv6, i: bv6)
    requires i >= n && BitAt(b << n, i)
    ensures BitAt(b, i - n)
  {}

  lemma LeftAt(b: bv64, n: bv6, i: bv6)
    requires i >= n
    ensures BitAt(Up(b, n), i) == BitAt(b, Minus(i, n))
  {
    hide BitAt;
    if BitAt(b, i - n) { LeftSets(b, n, i); }
    if BitAt(b << n, i) { LeftOnly(b, n, i); }
  }

  lemma RightSets(b: bv64, n: bv6, i: bv6)
    requires i >= n && BitAt(b, i)
    ensures BitAt(b >> n, i - n)
  {}

  lemma RightOnly(b: bv64, n: bv6, i: bv6)
    requires i >= n && BitAt(b >> n, i - n)
    ensures BitAt(b, i)
  {}

  lemma RightAt(b: bv64, n: bv6, i: bv6)
    requires i >= n
    ensures BitAt(Down(b, n), Minus(i, n)) == BitAt(b, i)
  {
    hide BitAt;
    if BitAt(b, i) { RightSets(b, n, i); }
    if BitAt(b >> n, i - n) { RightOnly(b, n, i); }
  }

  lemma LeftEmpties(b: bv64, n: bv6, i: bv6)
    requires i < n
    ensures !BitAt(Up(b, n), i)
  {}

  lemma RightEmpties(b: bv64, n: bv6, i: bv6)
    requires i > 63 - n
    ensures !BitAt(Down(b, n), i)
  {}

  // ---- In numbers ----

  lemma InOrder(a: bv6, b: bv6)
    ensures a < b <==> a as int < b as int
    ensures a > 63 - b <==> a as int + b as int > 63
  {}

  lemma Difference(a: bv6, b: bv6)
    requires a >= b
    ensures Minus(a, b) as int == a as int - b as int
  {}

  lemma SameValue(a: bv6, b: bv6)
    requires a as int == b as int
    ensures a == b
  {}

  lemma InDifference(a: bv6, b: bv6, d: bv6)
    requires d as int + b as int == a as int
    ensures a >= b && Minus(a, b) == d
  {
    hide Minus;
    InOrder(a, b);
    Difference(a, b);
    SameValue(Minus(a, b), d);
  }

  /** Bit `i` moves to `j`, `n` further up. */
  lemma UpBit(b: bv64, n: bv6, i: bv6, j: bv6)
    requires i as int + n as int == j as int
    ensures BitAt(Up(b, n), j) == BitAt(b, i)
  {
    hide BitAt, Up, Minus;
    InDifference(j, n, i);
    LeftAt(b, n, j);
  }

  lemma DownBit(b: bv64, n: bv6, i: bv6, j: bv6)
    requires i as int + n as int == j as int
    ensures BitAt(Down(b, n), i) == BitAt(b, j)
  {
    hide BitAt, Down, Minus;
    InDifference(j, n, i);
    RightAt(b, n, j);
  }

  lemma UpEmpties(b: bv64, n: bv6, i: bv6)
    requires i as int < n as int
    ensures !BitAt(Up(b, n), i)
  {
    hide BitAt, Up;
    InOrder(i, n);
    LeftEmpties(b, n, i);
  }

  lemma DownEmpties(b: bv64, n: bv6, i: bv6)
    requires i as int + n as int > 63
    ensures !BitAt(Down(b, n), i)
  {
    hide BitAt, Down;
    InOrder(i, n);
    RightEmpties(b, n, i);
  }
}
