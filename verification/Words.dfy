/** Bitboards given by what they contain. */
module Words {
  import opened Chess
  import opened Bitboards

  function WordTo(p: Square -> bool, n: nat): bv64
    requires n <= 64
  {
    if n == 0 then 0
    else if p(n - 1) then With(WordTo(p, n - 1), n - 1)
    else WordTo(p, n - 1)
  }

  /** The bitboard of the squares that satisfy `p`. */
  function WordOf(p: Square -> bool): bv64 {
    WordTo(p, 64)
  }

  lemma {:induction false} WordToContains(p: Square -> bool, n: nat, s: Square)
    requires n <= 64
    ensures Contains(WordTo(p, n), s) <==> s < n && p(s)
  {
    hide Contains, With;
    EmptyContains();
    if n > 0 {
      WordToContains(p, n - 1, s);
      WithContains(WordTo(p, n - 1), n - 1);
    }
  }

  lemma WordContains(p: Square -> bool)
    ensures forall s: Square :: Contains(WordOf(p), s) <==> p(s)
  {
    forall s: Square
      ensures Contains(WordOf(p), s) <==> p(s)
    {
      hide Contains;
      WordToContains(p, 64, s);
    }
  }

  /** A word is the word of its members. */
  lemma WordIs(b: bv64, p: Square -> bool)
    requires forall s: Square :: Contains(b, s) <==> p(s)
    ensures b == WordOf(p)
  {
    hide Contains;
    WordContains(p);
    Extensional(b, WordOf(p));
  }

  function Occupied(board: Board): bv64 {
    WordOf((s: Square) => board[s].Some?)
  }

  lemma OccupiedContains(board: Board, s: Square)
    ensures Contains(Occupied(board), s) <==> board[s].Some?
  {
    hide Contains;
    WordContains((t: Square) => board[t].Some?);
  }
}
