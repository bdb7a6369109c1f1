/** The engine's game: the current position and the hashes of the positions that led to it. */
module Sessions {
  import opened Wrappers
  import opened Chess
  import opened Rules
  import opened Zobrist
  import opened Evaluation
  import opened Positions
  import opened Transition
  import opened Fen
  import opened FenIo
  import opened Moves
  import opened Legality
  import opened Generation
  import opened Lookups
  import opened Movegen
  import opened Perft

  // ---- What a `position` command means ----

  /**
   What a list of move texts comes to. `Whole`: the positions after each move. `Broken`: a text names no
   generated move. `Kingless`: the positions after each move, the last of which took a king. `Beyond`:
   texts are left when a king has been taken, and of what follows nothing is said.
   */
  datatype Trail = Whole(cores: seq<Core>) | Broken | Kingless(cores: seq<Core>) | Beyond {
    predicate ToItsEnd() {
      Whole? || Kingless?
    }
  }

  ghost function Follow(c: Core, texts: seq<string>): Trail
    decreases |texts|
  {
    if texts == [] then Whole([])
    else
      var read := FromUci(texts[0], Gen(c));
      if read.Err? then Broken
      else
        var next := Child(c, read.value);
        if TakesKing(c, read.value) then if |texts| == 1 then Kingless([next]) else Beyond
        else Prepend(next, Follow(next, texts[1..]))
  }

  function Prepend(c: Core, trail: Trail): Trail {
    match trail
    case Whole(cores) => Whole([c] + cores)
    case Broken => Broken
    case Kingless(cores) => Kingless([c] + cores)
    case Beyond => Beyond
  }

  ghost function Hashes(t: Tables, cores: seq<Core>): seq<bv64> {
    seq(|cores|, i requires 0 <= i < |cores| => HashOf(t.keys, cores[i]))
  }

  /** Moves that can be played one after another, each generated where it is played; only the last may take a king. */
  ghost predicate PlayableLine(c: Core, moves: seq<Move>)
    decreases |moves|
  {
    moves != [] ==>
      && moves[0] in Gen(c)
      && (TakesKing(c, moves[0]) ==> |moves| == 1)
      && PlayableLine(Child(c, moves[0]), moves[1..])
  }

  ghost predicate LosesKing(c: Core, moves: seq<Move>)
    decreases |moves|
  {
    moves != [] && (TakesKing(c, moves[0]) || LosesKing(Child(c, moves[0]), moves[1..]))
  }

  ghost function Visited(c: Core, moves: seq<Move>): seq<Core>
    decreases |moves|
  {
    if moves == [] then [] else [Child(c, moves[0])] + Visited(Child(c, moves[0]), moves[1..])
  }

  function Texts(moves: seq<Move>): seq<string> {
    if moves == [] then [] else [ToUci(moves[0])] + Texts(moves[1..])
  }

  /** A text is read as a move exactly when that move is generated and prints as that text. */
  lemma ReadsExactly(c: Core, text: string, mv: Move)
    requires Sound(c)
    ensures FromUci(text, Gen(c)) == Ok(mv) <==> mv in Gen(c) && text == ToUci(mv)
  {
    GenHas(c);
    forall m | m in Gen(c)
      ensures PseudoLegal(c, m)
    {
      assert Passes(c, m);
    }
    hide PseudoLegal, Sound, Passes, Gen, FromUci, ToUci;
    UciExact(text, c, Gen(c), mv);
  }

  /** Printing a playable line and replaying the texts visits the same positions. */
  lemma {:induction false} TextsReplay(c: Core, moves: seq<Move>)
    requires Sound(c) && PlayableLine(c, moves)
    ensures Follow(c, Texts(moves)) == if LosesKing(c, moves) then Kingless(Visited(c, moves)) else Whole(Visited(c, moves))
    decreases |moves|
  {
    hide Sound, Gen, FromUci, ToUci, Child, TakesKing;
    if moves != [] {
      ReadsExactly(c, ToUci(moves[0]), moves[0]);
      assert Texts(moves)[1..] == Texts(moves[1..]);
      GeneratedApplies(c, moves[0]);
      if TakesKing(c, moves[0]) {
        assert moves[1..] == [];
      } else {
        TextsReplay(Child(c, moves[0]), moves[1..]);
      }
    }
  }

  /** Only the texts of playable lines are followed to their end. */
  lemma {:induction false} OnlyTextsReplay(c: Core, texts: seq<string>) returns (moves: seq<Move>)
    requires Sound(c) && Follow(c, texts).ToItsEnd()
    ensures PlayableLine(c, moves) && texts == Texts(moves)
    decreases |texts|
  {
    hide Sound, Gen, FromUci, ToUci, Child, TakesKing;
    if texts == [] {
      moves := [];
    } else {
      var mv := FromUci(texts[0], Gen(c)).value;
      ReadsExactly(c, texts[0], mv);
      GeneratedApplies(c, mv);
      if TakesKing(c, mv) {
        moves := [mv];
        assert texts == Texts(moves);
      } else {
        var rest := OnlyTextsReplay(Child(c, mv), texts[1..]);
        moves := [mv] + rest;
        assert moves[1..] == rest;
      }
    }
  }

  /** A command's move list is followed to its end exactly when it is the text of a playable line. */
  lemma AcceptedLines(c: Core, texts: seq<string>)
    requires Sound(c)
    ensures Follow(c, texts).ToItsEnd() <==> exists moves :: PlayableLine(c, moves) && texts == Texts(moves)
  {
    hide Sound, Follow, PlayableLine, Texts;
    if Follow(c, texts).ToItsEnd() {
      var moves := OnlyTextsReplay(c, texts);
    }
    forall moves | PlayableLine(c, moves) && texts == Texts(moves)
      ensures Follow(c, texts).ToItsEnd()
    {
      TextsReplay(c, moves);
    }
  }

  /** Texts are left beyond the loss of a king exactly when some of the first ones, but not all, come to that loss. */
  lemma {:induction false} BeyondExactly(c: Core, texts: seq<string>)
    ensures Follow(c, texts).Beyond? <==> exists n :: 0 <= n < |texts| && Follow(c, texts[..n]).Kingless?
    decreases |texts|
  {
    hide Gen, FromUci, Child, TakesKing;
    if texts != [] && FromUci(texts[0], Gen(c)).Ok? {
      var next := Child(c, FromUci(texts[0], Gen(c)).value);
      BeyondExactly(next, texts[1..]);
      forall n | 1 <= n <= |texts|
        ensures texts[..n][0] == texts[0] && texts[..n][1..] == texts[1..][..n - 1]
      {}
      if n :| 0 <= n < |texts| - 1 && Follow(next, texts[1..][..n]).Kingless? {
        assert texts[..n + 1][1..] == texts[1..][..n];
        assert TakesKing(c, FromUci(texts[0], Gen(c)).value) || Follow(c, texts[..n + 1]).Kingless?;
      }
      if TakesKing(c, FromUci(texts[0], Gen(c)).value) && |texts| > 1 {
        assert Follow(c, texts[..1]).Kingless?;
      }
    }
  }

  /** From a fair position no king is lost, whatever the texts. */
  lemma {:induction false} FairKeepsKings(c: Core, texts: seq<string>)
    requires Fair(c)
    ensures !Follow(c, texts).Kingless? && !Follow(c, texts).Beyond?
    decreases |texts|
  {
    hide Fair, Gen, FromUci, Child, TakesKing;
    if texts != [] && FromUci(texts[0], Gen(c)).Ok? {
      FairReads(c, texts[0]);
      FairKeepsKings(Child(c, FromUci(texts[0], Gen(c)).value), texts[1..]);
    }
  }

  lemma WhenKingsStay(c: Core, texts: seq<string>)
    ensures Fair(c) || texts == [] ==> !Follow(c, texts).Kingless? && !Follow(c, texts).Beyond?
  {
    hide Fair, Gen, FromUci, Child, TakesKing;
    if Fair(c) { FairKeepsKings(c, texts); }
  }

  lemma FairReads(c: Core, text: string)
    requires Fair(c) && FromUci(text, Gen(c)).Ok?
    ensures var mv := FromUci(text, Gen(c)).value;
            !TakesKing(c, mv) && Fair(Child(c, mv))
  {
    GuardedParts(c);
    GenIsLegal(c);
    hide *;
    var mv := FromUci(text, Gen(c)).value;
    ReadsExactly(c, text, mv);
    StaysFair(c, mv);
    FairChild(c, mv);
  }

  // ---- The loop ----

  /** With `cores` visited and `texts` still to read, the whole comes out as `whole`. */
  ghost predicate Continues(cores: seq<Core>, texts: seq<string>, whole: Trail)
    requires cores != []
  {
    whole == PrependAll(cores[1..], Follow(cores[|cores| - 1], texts))
  }

  function PrependAll(cores: seq<Core>, trail: Trail): Trail {
    match trail
    case Whole(rest) => Whole(cores + rest)
    case Broken => Broken
    case Kingless(rest) => Kingless(cores + rest)
    case Beyond => Beyond
  }

  lemma ContinuesStep(cores: seq<Core>, texts: seq<string>, whole: Trail)
    requires cores != [] && texts != [] && Continues(cores, texts, whole)
    ensures var c := cores[|cores| - 1];
            var read := FromUci(texts[0], Gen(c));
            if read.Err? then whole == Broken
            else if TakesKing(c, read.value) then
              whole == if |texts| == 1 then Kingless(cores[1..] + [Child(c, read.value)]) else Beyond
            else Continues(cores + [Child(c, read.value)], texts[1..], whole)
  {
    hide Gen, FromUci, Child, TakesKing;
    var c := cores[|cores| - 1];
    var read := FromUci(texts[0], Gen(c));
    if read.Ok? {
      var next := Child(c, read.value);
      assert (cores + [next])[1..] == cores[1..] + [next];
      match Follow(next, texts[1..])
      case Whole(rest) => assert cores[1..] + ([next] + rest) == (cores[1..] + [next]) + rest;
      case Broken =>
      case Kingless(rest) => assert cores[1..] + ([next] + rest) == (cores[1..] + [next]) + rest;
      case Beyond =>
    }
  }

  lemma ContinuesAtStart(c: Core, texts: seq<string>)
    ensures Continues([c], texts, Follow(c, texts))
  {
    hide Follow;
    var trail := Follow(c, texts);
    assert [c][1..] == [];
    assert trail.Whole? || trail.Kingless? ==> [] + trail.cores == trail.cores;
  }

  lemma ContinuesToEnd(cores: seq<Core>, texts: seq<string>, whole: Trail)
    requires cores != [] && texts == [] && Continues(cores, texts, whole)
    ensures whole.Whole? && cores == [cores[0]] + whole.cores
  {}

  lemma HashesAppend(t: Tables, cores: seq<Core>, next: Core)
    ensures Hashes(t, cores + [next]) == Hashes(t, cores) + [HashOf(t.keys, next)]
  {}

  lemma CoherentHash(t: Tables, s: Snapshot)
    requires CoherentSnapshot(t, s)
    ensures s.hash == HashOf(t.keys, s.core)
  {}

  /** How the loop ended: all texts read, a bad one met, or a king taken, by the last text or an earlier one. */
  datatype Ending = Completed | Rejected | LostKing | Abandoned

  /** A position at the end of the visited ones, with all their hashes. */
  ghost predicate AtEnd(pos: Position, cores: seq<Core>, hashes: seq<bv64>)
    reads pos
  {
    && pos.Coherent() && cores != [] && pos.Recorded() == cores[|cores| - 1]
    && hashes == Hashes(pos.tables, cores) && hashes[|hashes| - 1] == pos.hash
  }

  /**
   The loop of `handle_position` over the move texts. The program reads texts that follow the taking of
   a king against the moves of a stale king square; here the loop is abandoned, and nothing is promised.
   */
  method Replay(pos: Position, l: AttackTables, texts: seq<string>) returns (ending: Ending, hashes: seq<bv64>)
    requires Ready(l) && pos.Valid()
    modifies pos
    ensures var trail := Follow(old(pos.Recorded()), texts);
            match ending
            case Completed => trail.Whole? && pos.Valid() && AtEnd(pos, [old(pos.Recorded())] + trail.cores, hashes)
            case Rejected => trail.Broken?
            case LostKing => trail.Kingless? && !pos.Valid() && AtEnd(pos, [old(pos.Recorded())] + trail.cores, hashes)
            case Abandoned => trail.Beyond?
  {
    hide *;
    ghost var start := pos.Recorded();
    ghost var cores := [start];
    ghost var whole := Follow(start, texts);
    hashes := [pos.hash];
    ContinuesAtStart(start, texts);
    StartsAtEnd(pos, hashes);
    for i := 0 to |texts|
      invariant pos.Valid() && cores != [] && cores[0] == start
      invariant AtEnd(pos, cores, hashes) && Continues(cores, texts[i..], whole)
    {
      assert texts[i..][0] == texts[i] && texts[i..][1..] == texts[i + 1..];
      ghost var next: Core;
      ghost var c := cores[|cores| - 1];
      EndIs(pos, cores, hashes);
      ContinuesStep(cores, texts[i..], whole);
      var mv: Result<Move, UciError>, lost: bool;
      mv, lost, hashes, next := PlayText(pos, l, texts[i], cores, hashes);
      if mv.Err? {
        return Rejected, hashes;
      }
      if lost {
        assert cores + [next] == [start] + (cores[1..] + [next]);
        return if i == |texts| - 1 then LostKing else Abandoned, hashes;
      }
      cores := cores + [next];
    }
    ContinuesToEnd(cores, texts[|texts|..], whole);
    ending := Completed;
  }

  lemma StartsAtEnd(pos: Position, hashes: seq<bv64>)
    requires pos.Valid() && hashes == [pos.hash]
    ensures AtEnd(pos, [pos.Recorded()], hashes)
  {
    PositionParts(pos);
    CoherentHash(pos.tables, pos.Fields());
    hide ValidSnapshot, CoherentSnapshot, HashOf;
  }

  lemma EndIs(pos: Position, cores: seq<Core>, hashes: seq<bv64>)
    requires AtEnd(pos, cores, hashes)
    ensures cores != [] && pos.Recorded() == cores[|cores| - 1] && hashes == Hashes(pos.tables, cores)
  {}

  /** One text: read among the generated moves, made, and its hash recorded. */
  method PlayText(pos: Position, l: AttackTables, text: string, ghost cores: seq<Core>, hashes: seq<bv64>)
    returns (mv: Result<Move, UciError>, lost: bool, hashes': seq<bv64>, ghost next: Core)
    requires Ready(l) && pos.Valid() && AtEnd(pos, cores, hashes)
    modifies pos
    ensures mv == FromUci(text, Gen(old(pos.Recorded())))
    ensures mv.Ok? ==>
              && next == Child(old(pos.Recorded()), mv.value)
              && AtEnd(pos, cores + [next], hashes')
              && lost == TakesKing(old(pos.Recorded()), mv.value)
              && (pos.Valid() <==> !lost)
  {
    hide *;
    ghost var c := pos.Recorded();
    PositionParts(pos);
    hashes', lost, next := hashes, false, c;
    EndIs(pos, cores, hashes);
    var moves := GenerateMoves(pos, l);
    mv := FromUci(text, moves);
    if mv.Ok? {
      ReadsExactly(c, text, mv.value);
      GeneratedApplies(c, mv.value);
      next := Child(c, mv.value);
      lost := TakesKing(pos.Recorded(), mv.value);
      var undo := MakeMove(pos, mv.value);
      hashes' := hashes' + [pos.hash];
      EndMoves(pos, cores, hashes, next, hashes');
    }
  }

  lemma EndMoves(pos: Position, cores: seq<Core>, hashes: seq<bv64>, next: Core, hashes': seq<bv64>)
    requires hashes == Hashes(pos.tables, cores) && hashes' == hashes + [pos.hash]
    requires pos.Coherent() && pos.Recorded() == next
    ensures AtEnd(pos, cores + [next], hashes')
  {
    CoherentHash(pos.tables, pos.Fields());
    HashesAppend(pos.tables, cores, next);
    hide CoherentSnapshot, HashOf;
  }

  // ---- The fields of the engine that hold the game ----

  class Session {
    const tables: Tables
    const attacks: AttackTables
    var position: Position
    var history: seq<bv64>

    /** The last hash of the history is the position's own. */
    ghost predicate Valid()
      reads this, position
    {
      && Ready(attacks)
      && position.tables == tables
      && position.Valid()
      && history != []
      && history[|history| - 1] == position.hash
    }

    ghost predicate Shows(cores: seq<Core>)
      reads this, position
    {
      cores != [] && position.Recorded() == cores[|cores| - 1] && history == Hashes(tables, cores)
    }

    /** `reset_for_new_game`, for the fields of the game. */
    constructor (tables: Tables, attacks: AttackTables, start: Position)
      requires start.Valid() && start.tables == tables && Ready(attacks)
      ensures this.tables == tables && this.attacks == attacks && Valid() && Shows([start.Recorded()])
    {
      this.tables, this.attacks := tables, attacks;
      position := start;
      history := [start.hash];
    }

    /**
     `handle_position`. A bad text changes nothing; a bad move leaves the position of the text;
     otherwise the position is the last of the line and the history holds the hash of every one. If the
     last move takes a king, the position is not valid. Nothing is promised of a list that goes on after
     a king was taken. From a fair position none is taken.
     */
    method SetPosition(text: string, moves: seq<string>)
      requires Valid()
      modifies this
      ensures Parse(text).Err? ==> unchanged(this) && Valid()
      ensures Parse(text).Ok? ==>
                var base := Parse(text).value;
                var trail := Follow(base, moves);
                && Sound(base)
                && (!trail.Beyond? ==>
                      && fresh(position)
                      && (Valid() <==> !trail.Kingless?)
                      && Shows(if trail.Broken? then [base] else [base] + trail.cores))
      ensures Parse(text).Ok? && (Fair(Parse(text).value) || moves == []) ==> Valid()
    {
      hide Fair, ValidSnapshot, CoherentSnapshot, Parse, Follow, Ready, Sound, HashOf;
      var read := ReadFen(tables, text);
      if read.Err? {
        return;
      }
      ParsedIsSound(text);
      var pos := read.value;
      var base := new Position.Copy(pos);
      PositionParts(pos);
      PositionParts(base);
      CoherentHash(tables, base.Fields());
      WhenKingsStay(Parse(text).value, moves);
      var ending, hashes := Replay(pos, attacks, moves);
      if ending.Rejected? {
        position := base;
        history := [base.hash];
      } else {
        position := pos;
        history := hashes;
      }
    }
  }
}
