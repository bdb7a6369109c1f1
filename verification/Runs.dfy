/**
 Runs of any length. One position mutated in place, with a stack of undo tokens, behaves like a
 stack of whole positions on which making pushes and unmaking pops.
*/
module Runs {
  import opened Chess
  import opened Rules
  import opened Soundness
  import opened Positions
  import opened Transition
  import opened Evaluation

  datatype Step = Moved(mv: Move) | Passed

  datatype Op = Do(step: Step) | TakeBack

  // ---- The simple machine: positions are copied, never changed ----

  datatype Line = Start(core: Core) | Then(before: Line, step: Step, core: Core) {
    function Depth(): nat {
      if Start? then 0 else 1 + before.Depth()
    }
  }

  ghost predicate CanStep(c: Core, step: Step) {
    Sound(c) && (step.Moved? ==> Applicable(c, step.mv))
  }

  ghost function After(c: Core, step: Step): Core
    requires CanStep(c, step)
  {
    match step
    case Moved(mv) => Next(c, mv)
    case Passed => NextNull(c)
  }

  /** Every step is one the position before it allows; the last may have taken a king, and then none follows. */
  ghost predicate Consistent(line: Line) {
    match line
    case Start(core) => Sound(core)
    case Then(before, step, core) => Consistent(before) && CanStep(before.core, step) && core == After(before.core, step)
  }

  predicate KingTaken(line: Line) {
    line.Then? && line.step.Moved? && TakesKing(line.before.core, line.step.mv)
  }

  ghost predicate Enabled(line: Line, op: Op) {
    match op
    case Do(step) => CanStep(line.core, step)
    case TakeBack => line.Then?
  }

  ghost function Play(line: Line, op: Op): Line
    requires Enabled(line, op)
  {
    match op
    case Do(step) => Then(line, step, After(line.core, step))
    case TakeBack => line.before
  }

  /** A line ends in a sound position unless its last move took a king. */
  lemma SoundUnlessKingTaken(line: Line)
    requires Consistent(line)
    ensures Sound(line.core) <==> !KingTaken(line)
  {
    hide Sound, Applicable, Next, TakesKing;
    match line
    case Start(_) =>
    case Then(before, step, _) =>
      match step
      case Moved(mv) => NextSoundUnlessKingTaken(before.core, mv);
      case Passed => NextNullSound(before.core);
  }

  ghost predicate EnabledAll(line: Line, ops: seq<Op>)
    decreases |ops|
  {
    ops != [] ==> Enabled(line, ops[0]) && EnabledAll(Play(line, ops[0]), ops[1..])
  }

  ghost function PlayAll(line: Line, ops: seq<Op>): Line
    requires EnabledAll(line, ops)
    decreases |ops|
  {
    if ops == [] then line else PlayAll(Play(line, ops[0]), ops[1..])
  }

  lemma {:induction false} PlaysConsistent(line: Line, ops: seq<Op>)
    requires Consistent(line) && EnabledAll(line, ops)
    ensures Consistent(PlayAll(line, ops))
    decreases |ops|
  {
    hide CanStep, After;
    if ops != [] {
      PlayConsistent(line, ops[0]);
      PlaysConsistent(Play(line, ops[0]), ops[1..]);
    }
  }

  lemma PlayConsistent(line: Line, op: Op)
    requires Consistent(line) && Enabled(line, op)
    ensures Consistent(Play(line, op))
  {}

  // ---- The fast machine ----

  datatype Token = MoveToken(mv: Move, undo: Undo) | NullToken(nullUndo: NullUndo)

  /** The token stack records how to get from each position of the line back to the one before it. */
  ghost predicate Tracks(t: Tables, line: Line, tokens: seq<Token>, snaps: seq<Snapshot>)
    requires Consistent(line)
  {
    && |tokens| == |snaps| == line.Depth()
    && (line.Then? ==>
          var last := |tokens| - 1;
          && ValidSnapshot(t, snaps[last])
          && snaps[last].core == line.before.core
          && (match line.step
              case Moved(mv) => tokens[last] == MoveToken(mv, TokenFor(snaps[last], mv))
              case Passed => tokens[last] == NullToken(NullTokenFor(snaps[last])))
          && Tracks(t, line.before, tokens[..last], snaps[..last]))
  }

  /** The fields the object has at the end of a line; the king squares may be stale after a king was taken. */
  ghost predicate AtTip(t: Tables, s: Snapshot, line: Line, snaps: seq<Snapshot>)
    requires Consistent(line) && |snaps| == line.Depth()
  {
    && CoherentSnapshot(t, s)
    && s.core == line.core
    && (Sound(line.core) ==> ValidSnapshot(t, s))
    && (line.Then? && line.step.Moved? ==>
          && |snaps[|snaps| - 1].kings| == 2
          && line.before.core.board[line.step.mv.from].Some?
          && s.kings == KingsAfterMove(snaps[|snaps| - 1].kings, line.before.core.board[line.step.mv.from].value, line.step.mv.to))
  }

  lemma TipOfValid(t: Tables, s: Snapshot, line: Line, tokens: seq<Token>, snaps: seq<Snapshot>)
    requires Consistent(line) && Tracks(t, line, tokens, snaps)
    requires ValidSnapshot(t, s) && s.core == line.core
    ensures AtTip(t, s, line, snaps)
  {
    ValidParts(t, s);
    if line.Then? && line.step.Moved? {
      var before := snaps[|snaps| - 1];
      ValidParts(t, before);
      SoundUnlessKingTaken(line);
      NextBoardIs(line.before.core, line.step.mv);
      hide Sound, Applicable, NextBoard, TakesKing, KingAt;
      KingsFollowed(line.before.core, line.step.mv, before.kings, s.kings);
    }
  }

  /** One operation in place: a token is pushed or popped, the position is always the line's last. */
  method Execute(pos: Position, op: Op, tokens: seq<Token>, ghost line: Line, ghost snaps: seq<Snapshot>)
    returns (tokens': seq<Token>, ghost snaps': seq<Snapshot>)
    requires Consistent(line) && Enabled(line, op)
    requires Tracks(pos.tables, line, tokens, snaps) && AtTip(pos.tables, pos.Fields(), line, snaps)
    modifies pos
    ensures Consistent(Play(line, op))
    ensures Tracks(pos.tables, Play(line, op), tokens', snaps')
    ensures AtTip(pos.tables, pos.Fields(), Play(line, op), snaps')
    ensures op.TakeBack? ==> pos.Fields() == snaps[|snaps| - 1]
  {
    hide ValidSnapshot, CoherentSnapshot, Sound, Applicable, Next, NextNull, TokenFor, NullTokenFor, KingsAfterMove;
    PlayConsistent(line, op);
    SoundUnlessKingTaken(Play(line, op));
    ghost var fields := pos.Fields();
    ghost var last := |snaps| - 1;
    match op {
      case Do(Moved(mv)) =>
        MoverIsOurs(line.core, mv);
        ValidParts(pos.tables, fields);
        var undo := MakeMove(pos, mv);
        tokens', snaps' := tokens + [MoveToken(mv, undo)], snaps + [fields];
        assert tokens'[..|tokens|] == tokens && snaps'[..|snaps|] == snaps;
      case Do(Passed) =>
        var undo := MakeNullMove(pos);
        ValidIsCoherent(pos.tables, pos.Fields());
        tokens', snaps' := tokens + [NullToken(undo)], snaps + [fields];
        assert tokens'[..|tokens|] == tokens && snaps'[..|snaps|] == snaps;
      case TakeBack =>
        tokens', snaps' := Retreat(pos, tokens, line, snaps);
    }
  }

  /** Pops the last token and undoes its step. */
  method Retreat(pos: Position, tokens: seq<Token>, ghost line: Line, ghost snaps: seq<Snapshot>)
    returns (tokens': seq<Token>, ghost snaps': seq<Snapshot>)
    requires Consistent(line) && line.Then?
    requires Tracks(pos.tables, line, tokens, snaps) && AtTip(pos.tables, pos.Fields(), line, snaps)
    modifies pos
    ensures Tracks(pos.tables, line.before, tokens', snaps')
    ensures AtTip(pos.tables, pos.Fields(), line.before, snaps')
    ensures pos.Fields() == snaps[|snaps| - 1]
  {
    SoundUnlessKingTaken(line);
    hide ValidSnapshot, CoherentSnapshot, Sound, Applicable, Next, NextNull, TokenFor, NullTokenFor, KingsAfterMove;
    ghost var last := |snaps| - 1;
    tokens', snaps' := tokens[..|tokens| - 1], snaps[..last];
    match tokens[|tokens| - 1] {
      case MoveToken(mv, undo) => UnmakeMove(pos, mv, undo, snaps[last]);
      case NullToken(undo) => UnmakeNullMove(pos, undo, snaps[last]);
    }
    TipOfValid(pos.tables, pos.Fields(), line.before, tokens', snaps');
  }

  /**
   Any run of makes, unmakes, passes and unpasses, the taking of a king included. The caches equal
   their recomputation throughout, and the position is the one the copying machine would hold.
   */
  method Run(pos: Position, ops: seq<Op>)
    requires pos.Valid() && EnabledAll(Start(pos.Recorded()), ops)
    modifies pos
    ensures pos.Coherent()
    ensures pos.Recorded() == PlayAll(Start(old(pos.Recorded())), ops).core
    ensures pos.Valid() <==> Sound(pos.Recorded())
    ensures PlayAll(Start(old(pos.Recorded())), ops).core == old(pos.Recorded()) ==> pos.Fields() == old(pos.Fields())
  {
    ValidParts(pos.tables, pos.Fields());
    ghost var start := Start(pos.Recorded());
    ghost var fields := pos.Fields();
    assert Consistent(start);
    hide CoherentSnapshot, Sound, Play, Enabled, Consistent, KingsAfterMove, KingAt;
    ghost var line, snaps := start, [];
    var tokens: seq<Token> := [];
    var i := 0;
    while i < |ops|
      invariant 0 <= i <= |ops|
      invariant Consistent(line) && EnabledAll(line, ops[i..])
      invariant PlayAll(line, ops[i..]) == PlayAll(start, ops)
      invariant Tracks(pos.tables, line, tokens, snaps) && AtTip(pos.tables, pos.Fields(), line, snaps)
    {
      assert ops[i..][0] == ops[i] && ops[i..][1..] == ops[i + 1..];
      tokens, snaps := Execute(pos, ops[i], tokens, line, snaps);
      line := Play(line, ops[i]);
      i := i + 1;
    }
    assert ops[i..] == [];
    if pos.Recorded() == start.core {
      ValidDetermined(pos.tables, pos.Fields(), fields);
    }
  }

  // ---- Popping everything that was pushed ----

  /** A line of steps followed by as many take-backs. */
  function ThereAndBack(steps: seq<Step>): seq<Op> {
    if steps == [] then [] else [Do(steps[0])] + ThereAndBack(steps[1..]) + [TakeBack]
  }

  ghost predicate CanWalk(c: Core, steps: seq<Step>)
    decreases |steps|
  {
    steps != [] ==> CanStep(c, steps[0]) && CanWalk(After(c, steps[0]), steps[1..])
  }

  lemma {:induction false} PlayAppend(line: Line, a: seq<Op>, b: seq<Op>)
    requires EnabledAll(line, a) && EnabledAll(PlayAll(line, a), b)
    ensures EnabledAll(line, a + b) && PlayAll(line, a + b) == PlayAll(PlayAll(line, a), b)
    decreases |a|
  {
    hide Enabled, Play;
    if a == [] {
      assert a + b == b;
    } else {
      PlayAppend(Play(line, a[0]), a[1..], b);
      assert (a + b)[0] == a[0] && (a + b)[1..] == a[1..] + b;
    }
  }

  /** Taking back every step of a line, last step first, leads back to where it began. */
  lemma {:induction false} ReturnsToStart(line: Line, steps: seq<Step>)
    requires CanWalk(line.core, steps)
    ensures EnabledAll(line, ThereAndBack(steps)) && PlayAll(line, ThereAndBack(steps)) == line
    decreases |steps|
  {
    hide CanStep, After;
    if steps != [] {
      var op := Do(steps[0]);
      var next := Play(line, op);
      ReturnsToStart(next, steps[1..]);
      var middle := ThereAndBack(steps[1..]);
      assert [TakeBack][1..] == [];
      assert EnabledAll(next, [TakeBack]) && PlayAll(next, [TakeBack]) == line;
      PlayAppend(next, middle, [TakeBack]);
      var ops := [op] + middle + [TakeBack];
      assert ops[0] == op && ops[1..] == middle + [TakeBack];
    }
  }

  /** Any line of moves and null moves, undone in reverse, restores every field. */
  method WalkAndReturn(pos: Position, steps: seq<Step>)
    requires pos.Valid() && CanWalk(pos.Recorded(), steps)
    modifies pos
    ensures pos.Fields() == old(pos.Fields())
  {
    ReturnsToStart(Start(pos.Recorded()), steps);
    Run(pos, ThereAndBack(steps));
  }
}
