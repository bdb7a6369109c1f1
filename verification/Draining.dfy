/** Walking the squares of a bitboard, lowest first, by popping them off. */
module Draining {
  import opened Wrappers
  import opened Chess
  import opened Bitboards

  /** The iterator over a bitboard: what is left of the word. */
  class Squares {
    var word: bv64

    constructor (b: bv64)
      ensures word == b
    {
      word := b;
    }

    /** `pop_lsb`: the least member, removed; nothing else changes. */
    method Next() returns (square: Option<Square>)
      modifies this
      ensures square.None? <==> old(word) == 0
      ensures square.None? ==> word == 0 && forall t: Square :: !Contains(old(word), t)
      ensures square.Some? ==>
                && Contains(old(word), square.value)
                && (forall t: Square :: t < square.value ==> !Contains(old(word), t))
                && (forall t: Square :: Contains(word, t) <==> Contains(old(word), t) && t != square.value)
    {
      hide *;
      if word == 0 {
        EmptyContains();
        square := None;
      } else {
        PopContains(word);
        square := Some(LowestFrom(word, 0));
        word := DropLowest(word);
      }
    }
  }

  ghost predicate Ascending(squares: seq<Square>) {
    forall i, j :: 0 <= i < j < |squares| ==> squares[i] < squares[j]
  }

  function Append(squares: seq<Square>, s: Square): (r: seq<Square>)
    ensures forall t: Square :: t in r <==> t in squares || t == s
    ensures Ascending(squares) && (forall t :: t in squares ==> t < s) ==> Ascending(r)
  {
    assert forall i :: 0 <= i < |squares| ==> squares[i] in squares;
    squares + [s]
  }

  lemma CountAscending(squares: seq<Square>, b: bv64)
    requires Ascending(squares)
    requires forall t: Square :: t in squares <==> Contains(b, t)
    ensures |squares| == Count(b)
  {
    hide Contains, Ascending;
    AscendingCount(squares, b, 64);
  }

  /** Iterating a bitboard yields its members, all of them, in ascending order. */
  method Drain(b: bv64) returns (squares: seq<Square>)
    ensures Ascending(squares)
    ensures forall t: Square :: t in squares <==> Contains(b, t)
    ensures |squares| == Count(b)
  {
    hide Contains, Count, Append;
    squares := [];
    assert Ascending(squares);
    hide Ascending;
    var rest := new Squares(b);
    var next := rest.Next();
    while next.Some?
      invariant next.None? ==> rest.word == 0
      invariant Ascending(squares)
      invariant next.Some? ==> 0 <= next.value < 64
      invariant next.Some? ==> forall t :: t in squares ==> t < next.value
      invariant next.Some? ==> forall t: Square :: Contains(rest.word, t) ==> next.value < t
      invariant forall t: Square ::
                  Contains(b, t) <==> t in squares || Contains(rest.word, t) || next == Some(t)
      decreases next.Some?, if next.Some? then 64 - next.value else 0
    {
      squares := Append(squares, next.value);
      next := rest.Next();
    }
    EmptyContains();
    CountAscending(squares, b);
  }

  lemma {:induction false} AscendingCount(squares: seq<Square>, b: bv64, n: nat)
    requires n <= 64
    requires Ascending(squares)
    requires forall t: Square :: t in squares <==> Contains(b, t) && t < n
    ensures |squares| == MembersTo(b, n)
  {
    hide Contains, Ascending;
    assert squares == [] || squares[0] in squares;
    if n > 0 && Contains(b, n - 1) {
      LastIsGreatest(squares, n - 1);
      AscendingCount(squares[..|squares| - 1], b, n - 1);
    } else if n > 0 {
      AscendingCount(squares, b, n - 1);
    }
  }

  lemma LastIsGreatest(squares: seq<Square>, greatest: Square)
    requires Ascending(squares) && greatest in squares
    requires forall t :: t in squares ==> t <= greatest
    ensures |squares| > 0 && Ascending(squares[..|squares| - 1])
    ensures forall t: Square :: t in squares[..|squares| - 1] <==> t in squares && t != greatest
  {
    var last := |squares| - 1;
    assert squares[last] in squares;
    assert squares[last] == greatest;
    assert squares == squares[..last] + [greatest];
  }

  /** The order and the members leave nothing open: two walks of the same word are equal. */
  lemma {:induction false} WalkDetermined(a: seq<Square>, b: seq<Square>)
    requires Ascending(a) && Ascending(b)
    requires forall t: Square :: t in a <==> t in b
    ensures a == b
  {
    assert a == [] || a[0] in a;
    assert b == [] || b[0] in b;
    if a != [] {
      assert a[0] in a && a[0] in b;
      assert b[0] in b && b[0] in a;
      assert a[0] == b[0];
      assert a == [a[0]] + a[1..] && b == [b[0]] + b[1..];
      forall t: Square
        ensures t in a[1..] <==> t in b[1..]
      {
        assert t in a[1..] <==> t in a && t != a[0];
        assert t in b[1..] <==> t in b && t != b[0];
      }
      WalkDetermined(a[1..], b[1..]);
    }
  }
}
