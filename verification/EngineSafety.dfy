/** Safety of every interleaving of reader, orchestrator and workers. */
module EngineSafety {
  import opened Engine

  // ---- A static discipline that every handler obeys ----

  datatype Flag = Down | Up | Either

  /**
   `quiet`: no worker is in flight. `flag`: what is known of the stop flag. `held`: the orchestrator
   holds the search mutex. A handler obeys the discipline if it touches shared state, takes the
   mutex, lowers the flag or spawns only when quiet, searches only with the flag down, and waits for
   a worker only with the flag up.
   */
  predicate Disciplined(program: seq<Instr>, quiet: bool, flag: Flag, held: bool)
    decreases |program|, 0
  {
    if program == [] then !held else Obeys(program[0], program[1..], quiet, flag, held)
  }

  predicate Obeys(instr: Instr, rest: seq<Instr>, quiet: bool, flag: Flag, held: bool)
    decreases |rest|, 1
  {
    match instr
    case SetStop => Disciplined(rest, quiet, Up, held)
    case ClearStop => quiet && Disciplined(rest, quiet, Down, held)
    case JoinInFlight => !held && Disciplined(rest, true, Either, held)
    case JoinHandle => !held && flag.Up? && Disciplined(rest, true, flag, held)
    case AwaitJoin => !held && flag.Up? && Disciplined(rest, true, flag, held)
    case TouchTable => quiet && Disciplined(rest, quiet, flag, held)
    case LockSearch => quiet && !held && Disciplined(rest, quiet, flag, true)
    case TouchSearch => held && Disciplined(rest, quiet, flag, held)
    case SyncSearch => held && flag.Down? && Disciplined(rest, quiet, flag, held)
    case UnlockSearch => held && Disciplined(rest, quiet, flag, false)
    case Spawn => quiet && !held && flag.Down? && Disciplined(rest, false, flag, held)
    case Say => Disciplined(rest, quiet, flag, held)
    case SetDebug(_) => Disciplined(rest, quiet, flag, held)
    case Return => quiet && !held && rest == []
  }

  /** More knowledge never hurts. */
  lemma {:induction false} KnowingMore(program: seq<Instr>, quiet: bool, quiet': bool, flag: Flag, flag': Flag, held: bool)
    requires Disciplined(program, quiet, flag, held)
    requires (quiet ==> quiet') && (flag.Either? || flag == flag')
    ensures Disciplined(program, quiet', flag', held)
  {
    if program != [] {
      var rest := program[1..];
      match program[0]
      case SetStop => KnowingMore(rest, quiet, quiet', Up, Up, held);
      case ClearStop => KnowingMore(rest, quiet, quiet', Down, Down, held);
      case JoinInFlight => KnowingMore(rest, true, true, Either, Either, held);
      case JoinHandle => KnowingMore(rest, true, true, flag, flag', held);
      case AwaitJoin => KnowingMore(rest, true, true, flag, flag', held);
      case TouchTable => KnowingMore(rest, quiet, quiet', flag, flag', held);
      case LockSearch => KnowingMore(rest, quiet, quiet', flag, flag', true);
      case TouchSearch => KnowingMore(rest, quiet, quiet', flag, flag', held);
      case SyncSearch => KnowingMore(rest, quiet, quiet', flag, flag', held);
      case UnlockSearch => KnowingMore(rest, quiet, quiet', flag, flag', false);
      case Spawn => KnowingMore(rest, false, false, flag, flag', held);
      case Say => KnowingMore(rest, quiet, quiet', flag, flag', held);
      case SetDebug(_) => KnowingMore(rest, quiet, quiet', flag, flag', held);
      case Return =>
    }
  }

  lemma {:induction false} LinesDisciplined(n: nat, quiet: bool, flag: Flag)
    ensures Disciplined(Lines(n), quiet, flag, false)
  {
    if n > 0 {
      LinesDisciplined(n - 1, quiet, flag);
      assert Lines(n)[1..] == Lines(n - 1);
    }
  }

  lemma Prefixed(instr: Instr, rest: seq<Instr>, quiet: bool, flag: Flag, held: bool)
    requires Obeys(instr, rest, quiet, flag, held)
    ensures Disciplined([instr] + rest, quiet, flag, held)
  {
    assert ([instr] + rest)[1..] == rest;
  }

  /** The critical section around one operation under the search mutex. */
  lemma LockedDisciplined(instr: Instr, rest: seq<Instr>, flag: Flag)
    requires instr.TouchSearch? || (instr.SyncSearch? && flag.Down?)
    requires Disciplined(rest, true, flag, false)
    ensures Disciplined([LockSearch, instr, UnlockSearch] + rest, true, flag, false)
  {
    Prefixed(UnlockSearch, rest, true, flag, true);
    Prefixed(instr, [UnlockSearch] + rest, true, flag, true);
    var section := [instr] + ([UnlockSearch] + rest);
    Prefixed(LockSearch, section, true, flag, false);
    assert [LockSearch, instr, UnlockSearch] + rest == [LockSearch] + section;
  }

  lemma ResetDisciplined(rest: seq<Instr>, quiet: bool, flag: Flag)
    requires Disciplined(rest, true, Down, false)
    ensures Disciplined(RESET + rest, quiet, flag, false)
  {
    Prefixed(ClearStop, rest, true, Either, false);
    LockedDisciplined(TouchSearch, [ClearStop] + rest, Either);
    var locked := [LockSearch, TouchSearch, UnlockSearch] + ([ClearStop] + rest);
    Prefixed(TouchTable, locked, true, Either, false);
    Prefixed(JoinInFlight, [TouchTable] + locked, quiet, flag, false);
    assert RESET + rest == [JoinInFlight] + ([TouchTable] + locked);
  }

  lemma {:induction false} BenchDisciplined(positions: nat)
    ensures Disciplined(BenchAll(positions), true, Down, false)
  {
    if positions == 0 {
      LinesDisciplined(2, true, Down);
    } else {
      BenchDisciplined(positions - 1);
      var rest := BenchAll(positions - 1);
      Prefixed(Say, rest, true, Down, false);
      LockedDisciplined(SyncSearch, [Say] + rest, Down);
      var search := [LockSearch, SyncSearch, UnlockSearch] + ([Say] + rest);
      ResetDisciplined(search, true, Down);
      assert BenchAll(positions) == RESET + search;
    }
  }

  lemma SearchOptionDisciplined()
    ensures Disciplined([JoinInFlight, LockSearch, TouchSearch, UnlockSearch], false, Either, false)
  {
    var section := [LockSearch, TouchSearch, UnlockSearch];
    LockedDisciplined(TouchSearch, [], Either);
    assert section + [] == section;
    Prefixed(JoinInFlight, section, false, Either, false);
    assert [JoinInFlight] + section == [JoinInFlight, LockSearch, TouchSearch, UnlockSearch];
  }

  /** `AwaitJoin` is never written in a handler; only joining introduces it. */
  predicate NoAwait(program: seq<Instr>) {
    forall i :: 0 <= i < |program| ==> !program[i].AwaitJoin?
  }

  lemma {:induction false} BenchNoAwait(positions: nat)
    ensures NoAwait(BenchAll(positions))
  {
    if positions > 0 { BenchNoAwait(positions - 1); }
  }

  lemma HashDisciplined()
    ensures Disciplined([JoinInFlight, TouchTable, ClearStop], false, Either, false)
  {
    Prefixed(ClearStop, [], true, Either, false);
    Prefixed(TouchTable, [ClearStop], true, Either, false);
    Prefixed(JoinInFlight, [TouchTable, ClearStop], false, Either, false);
  }

  lemma GoDisciplined()
    ensures Disciplined([JoinInFlight, ClearStop, Spawn], false, Either, false)
  {
    Prefixed(Spawn, [], true, Down, false);
    Prefixed(ClearStop, [Spawn], true, Either, false);
    Prefixed(JoinInFlight, [ClearStop, Spawn], false, Either, false);
  }

  lemma StopDisciplined()
    ensures Disciplined([SetStop, JoinHandle], false, Either, false)
    ensures Disciplined([SetStop, JoinHandle, Return], false, Either, false)
  {
    Prefixed(JoinHandle, [], false, Up, false);
    Prefixed(SetStop, [JoinHandle], false, Either, false);
    Prefixed(Return, [], true, Up, false);
    Prefixed(JoinHandle, [Return], false, Up, false);
    Prefixed(SetStop, [JoinHandle, Return], false, Either, false);
  }

  lemma BenchCommandDisciplined(positions: nat)
    ensures Disciplined([JoinInFlight, ClearStop] + BenchAll(positions), false, Either, false)
  {
    var rest := BenchAll(positions);
    BenchDisciplined(positions);
    hide BenchAll;
    Prefixed(ClearStop, rest, true, Either, false);
    Prefixed(JoinInFlight, [ClearStop] + rest, false, Either, false);
    assert [JoinInFlight, ClearStop] + rest == [JoinInFlight] + ([ClearStop] + rest);
  }

  lemma TalkDisciplined(debug: bool, on: bool)
    ensures Disciplined([], false, Either, false)
    ensures Disciplined([Say], false, Either, false)
    ensures Disciplined([SetDebug(on)], false, Either, false)
    ensures Disciplined(DebugLine(debug), false, Either, false)
  {
    Prefixed(Say, [], false, Either, false);
    Prefixed(SetDebug(on), [], false, Either, false);
  }

  /** Every handler obeys the discipline whatever state it starts in. */
  lemma HandlersDisciplined(cmd: Command, debug: bool)
    ensures Disciplined(Program(cmd, debug), false, Either, false)
  {
    hide Disciplined, DebugLine, BenchAll;
    TalkDisciplined(debug, cmd.Debug? && cmd.on);
    match cmd
    case Uci => LinesDisciplined(13, false, Either);
    case UciNewGame => NewGameDisciplined();
    case Bench(positions) => BenchCommandDisciplined(positions);
    case SetOption(_, _) => SearchOptionDisciplined(); HashDisciplined();
    case Go => GoDisciplined();
    case Quit => StopDisciplined();
    case Stop => StopDisciplined();
    case _ =>
  }

  lemma NewGameDisciplined()
    ensures Disciplined(RESET, false, Either, false)
  {
    ResetDisciplined([], false, Either);
    assert RESET + [] == RESET;
  }

  lemma HandlersNoAwait(cmd: Command, debug: bool)
    ensures NoAwait(Program(cmd, debug))
  {
    if cmd.Bench? { BenchNoAwait(cmd.positions); }
    hide BenchAll;
  }

  // ---- The invariant ----

  function Last(s: State): int {
    |s.workers| - 1
  }

  predicate AllDone(s: State) {
    forall i :: 0 <= i < |s.workers| ==> s.workers[i].phase.Done?
  }

  predicate Quiet(s: State) {
    s.handle.None? && s.joining.None? && AllDone(s)
  }

  function FlagOf(s: State): Flag {
    if s.stop then Up else Down
  }

  /** The only worker in flight is the last one spawned, and the orchestrator still has its handle. */
  predicate Owned(s: State) {
    && !(s.handle.Some? && s.joining.Some?)
    && (s.handle.Some? ==> s.handle.value == Last(s) >= 0)
    && (s.joining.Some? ==> s.joining.value == Last(s) >= 0)
    && (forall i :: 0 <= i < |s.workers| && !s.workers[i].phase.Done? ==>
                      i == Last(s) && (s.handle.Some? || s.joining.Some?))
  }

  /** Waiting is under way exactly while the handle is being joined, and then stop is or will be set. */
  predicate Waiting(s: State) {
    if s.joining.None? then NoAwait(s.program)
    else
      || (s.program != [] && s.program[0].AwaitJoin? && s.stop && NoAwait(s.program[1..]))
      || (|s.program| >= 2 && s.program[0].SetStop? && s.program[1].AwaitJoin? && NoAwait(s.program[2..]))
  }

  /** The search mutex belongs to whoever is searching. */
  predicate Locked(s: State) {
    && (forall i :: 0 <= i < |s.workers| ==> (s.workers[i].phase.Searching? <==> s.searchLock == ByWorker(i)))
    && (s.searchLock.ByWorker? ==> s.searchLock.id < |s.workers|)
    && (s.searchLock.Orchestrator? ==> Quiet(s))
  }

  predicate FromSearch(line: Line, id: nat) {
    line == Info(id) || line == BestMove(id)
  }

  function SearchOf(line: Line): int {
    match line
    case Reply => -1
    case Info(id) => id
    case BestMove(id) => id
  }

  /** Lines come search by search, and nothing of a search follows its best move. */
  predicate Orderly(output: seq<Line>) {
    forall p, q :: 0 <= p < q < |output| && !output[p].Reply? && !output[q].Reply? ==>
                     && SearchOf(output[p]) <= SearchOf(output[q])
                     && (output[p].BestMove? ==> SearchOf(output[p]) < SearchOf(output[q]))
  }

  /** A worker has printed its best move exactly if it is done. */
  predicate Reported(s: State) {
    && (forall p :: 0 <= p < |s.output| ==> SearchOf(s.output[p]) < |s.workers|)
    && (forall i :: 0 <= i < |s.workers| ==> (s.workers[i].phase.Done? <==> BestMove(i) in s.output))
  }

  function Goes(cmds: seq<Command>): nat {
    if cmds == [] then 0 else (if cmds[0].Go? then 1 else 0) + Goes(cmds[1..])
  }

  function Spawns(program: seq<Instr>): nat {
    if program == [] then 0 else (if program[0].Spawn? then 1 else 0) + Spawns(program[1..])
  }

  /** Commands not yet received end in their only quit, or the quit has been received. */
  predicate Fed(s: State) {
    var left := s.inbox + s.pending;
    if s.halted || (s.program != [] && s.program[|s.program| - 1].Return?) then left == []
    else left != [] && left[|left| - 1].Quit? && forall i :: 0 <= i < |left| - 1 ==> !left[i].Quit?
  }

  predicate Inv(s: State, searches: nat) {
    && Owned(s)
    && Waiting(s)
    && Locked(s)
    && Disciplined(s.program, Quiet(s), FlagOf(s), s.searchLock.Orchestrator?)
    && Orderly(s.output)
    && Reported(s)
    && |s.workers| + Spawns(s.program) + Goes(s.inbox + s.pending) == searches
    && Fed(s)
    && (s.halted ==> s.program == [] && Quiet(s))
  }

  lemma FedAtFirst(commands: seq<Command>)
    requires commands == Sent(commands)
    ensures Init(commands).inbox + Init(commands).pending == commands && Fed(Init(commands))
  {
    assert [] + commands == commands;
  }

  lemma NothingToDo()
    ensures Disciplined([], true, Down, false) && Orderly([]) && Spawns([]) == 0 && NoAwait([])
  {}

  lemma NobodyThere(s: State)
    requires s.workers == [] && s.program == [] && s.output == [] && s.handle.None? && s.joining.None? && s.searchLock.Free?
    requires !s.stop
    ensures Owned(s) && Waiting(s) && Locked(s) && Reported(s) && Quiet(s) && FlagOf(s) == Down
  {
    NothingToDo();
    hide NoAwait;
  }

  lemma InitInv(commands: seq<Command>)
    requires commands == Sent(commands)
    ensures Inv(Init(commands), Goes(commands))
  {
    FedAtFirst(commands);
    NothingToDo();
    NobodyThere(Init(commands));
    hide Goes, Fed, Sent, Disciplined, Orderly, Spawns, NoAwait, Owned, Waiting, Locked, Reported, Quiet, FlagOf;
  }

  // ---- Worker steps ----

  lemma WorkerIsLast(s: State, id: nat)
    requires Owned(s) && id < |s.workers| && !s.workers[id].phase.Done?
    ensures id == Last(s) && !Quiet(s)
    ensures forall i :: 0 <= i < |s.workers| && i != id ==> s.workers[i].phase.Done?
  {}

  lemma AcquireInv(s: State, id: nat, searches: nat)
    requires Inv(s, searches) && Enabled(s, Acquire(id))
    ensures Inv(Apply(s, Acquire(id)), searches)
  {
    WorkerIsLast(s, id);
    hide Disciplined, Orderly, Spawns, Goes, Fed, Waiting, NoAwait;
    var t := Apply(s, Acquire(id));
    assert t.workers[id].phase.Searching?;
    SameProgram(s, t);
  }

  lemma SameProgram(s: State, t: State)
    requires s.program == t.program && s.joining == t.joining && s.stop == t.stop
    requires Waiting(s)
    ensures Waiting(t)
  {}

  lemma FinishInv(s: State, id: nat, searches: nat)
    requires Inv(s, searches) && Enabled(s, Finish(id))
    ensures Inv(Apply(s, Finish(id)), searches)
  {
    WorkerIsLast(s, id);
    var t := Apply(s, Finish(id));
    assert t.workers[id].phase.Finished?;
    hide Disciplined, Orderly, Spawns, Goes, Fed, Waiting, NoAwait;
    SameProgram(s, t);
  }

  lemma AppendLine(s: State, line: Line, id: nat)
    requires Orderly(s.output) && Reported(s) && FromSearch(line, id) && id == Last(s)
    requires !s.workers[id].phase.Done?
    ensures Orderly(s.output + [line])
  {
    var output := s.output + [line];
    forall p | 0 <= p < |s.output| && !s.output[p].Reply?
      ensures SearchOf(s.output[p]) <= id && (s.output[p].BestMove? ==> SearchOf(s.output[p]) < id)
    {
      assert s.output[p].BestMove? ==> BestMove(SearchOf(s.output[p])) in s.output;
    }
  }

  lemma ThinkInv(s: State, id: nat, searches: nat)
    requires Inv(s, searches) && Enabled(s, Think(id))
    ensures Inv(Apply(s, Think(id)), searches)
  {
    WorkerIsLast(s, id);
    var t := Apply(s, Think(id));
    assert forall i :: 0 <= i < |s.workers| ==> t.workers[i].phase == s.workers[i].phase;
    hide Disciplined, Orderly, Spawns, Goes, Fed, Waiting, NoAwait, Spend;
    SameProgram(s, t);
  }

  lemma PrintInv(s: State, id: nat, searches: nat)
    requires Inv(s, searches) && Enabled(s, Print(id))
    ensures Inv(Apply(s, Print(id)), searches)
  {
    WorkerIsLast(s, id);
    var t := Apply(s, Print(id));
    assert forall i :: 0 <= i < |s.workers| ==> t.workers[i].phase == s.workers[i].phase;
    AppendLine(s, Info(id), id);
    hide Disciplined, Orderly, Spawns, Goes, Fed, Waiting, NoAwait, Spend;
    SameProgram(s, t);
    forall i | 0 <= i < |s.workers|
      ensures BestMove(i) in t.output <==> BestMove(i) in s.output
    {
    }
  }

  lemma ReportInv(s: State, id: nat, searches: nat)
    requires Inv(s, searches) && Enabled(s, Report(id))
    ensures Inv(Apply(s, Report(id)), searches)
  {
    WorkerIsLast(s, id);
    var t := Apply(s, Report(id));
    AppendLine(s, BestMove(id), id);
    KnowingMore(s.program, Quiet(s), Quiet(t), FlagOf(s), FlagOf(t), s.searchLock.Orchestrator?);
    hide Disciplined, Orderly, Spawns, Goes, Fed, Waiting, NoAwait;
    SameProgram(s, t);
    forall i | 0 <= i < |s.workers|
      ensures BestMove(i) in t.output <==> i == id || BestMove(i) in s.output
    {
      assert t.output[|s.output|] == BestMove(id);
    }
  }

  lemma ReadInv(s: State, searches: nat)
    requires Inv(s, searches) && Enabled(s, Read)
    ensures Inv(Apply(s, Read), searches)
  {
    var t := Apply(s, Read);
    assert t.inbox + t.pending == s.inbox + s.pending;
    hide Disciplined, Orderly, Spawns, Goes, Waiting, NoAwait;
    SameProgram(s, t);
  }

  // ---- Orchestrator steps ----

  lemma ReceiveInv(s: State, patience: nat, searches: nat)
    requires Inv(s, searches) && Enabled(s, Orchestrate(patience)) && s.program == []
    ensures Inv(Apply(s, Orchestrate(patience)), searches)
  {
    var t := Apply(s, Orchestrate(patience));
    var cmd := s.inbox[0];
    var left := s.inbox + s.pending;
    assert left == [cmd] + (t.inbox + t.pending) && left[0] == cmd && left[1..] == t.inbox + t.pending;
    HandlersDisciplined(cmd, s.debug);
    HandlersNoAwait(cmd, s.debug);
    KnowingMore(t.program, false, Quiet(t), Either, FlagOf(t), false);
    HandlerSpawns(cmd, s.debug);
    HandlerReturns(cmd, s.debug);
    hide Disciplined, Orderly, Program, Spawns, NoAwait;
  }

  lemma {:induction false} BenchSpawns(positions: nat)
    ensures Spawns(BenchAll(positions)) == 0
    ensures BenchAll(positions) != [] && !BenchAll(positions)[|BenchAll(positions)| - 1].Return?
  {
    if positions > 0 {
      BenchSpawns(positions - 1);
      SpawnsAppend(BENCH_ONE, BenchAll(positions - 1));
    }
    NoSpawns(BENCH_ONE);
    NoSpawns(Lines(2));
  }

  lemma {:induction false} NoSpawns(program: seq<Instr>)
    requires forall i :: 0 <= i < |program| ==> !program[i].Spawn?
    ensures Spawns(program) == 0
  {
    if program != [] { NoSpawns(program[1..]); }
  }

  lemma {:induction false} SpawnsAppend(a: seq<Instr>, b: seq<Instr>)
    ensures Spawns(a + b) == Spawns(a) + Spawns(b)
  {
    if a == [] {
      assert a + b == b;
    } else {
      SpawnsAppend(a[1..], b);
      assert (a + b)[1..] == a[1..] + b;
    }
  }

  /** Only `go` spawns, and it spawns once. */
  lemma HandlerSpawns(cmd: Command, debug: bool)
    ensures Spawns(Program(cmd, debug)) == if cmd.Go? then 1 else 0
  {
    if cmd.Go? {
      assert [JoinInFlight, ClearStop, Spawn][1..] == [ClearStop, Spawn];
      assert [ClearStop, Spawn][1..] == [Spawn];
    } else if cmd.Bench? {
      BenchSpawns(cmd.positions);
      NoSpawns([JoinInFlight, ClearStop]);
      SpawnsAppend([JoinInFlight, ClearStop], BenchAll(cmd.positions));
    } else {
      NoSpawns(Program(cmd, debug));
    }
  }

  /** Only `quit` returns. */
  lemma HandlerReturns(cmd: Command, debug: bool)
    ensures var program := Program(cmd, debug);
            (program != [] && program[|program| - 1].Return?) <==> cmd.Quit?
  {
    if cmd.Bench? { BenchSpawns(cmd.positions); }
    hide BenchAll;
  }

  /** Replacing a program by its tail keeps what `Fed` looks at. */
  lemma TailFed(s: State, t: State)
    requires Fed(s) && !s.halted && !t.halted && s.program != [] && !s.program[0].Return?
    requires t.inbox == s.inbox && t.pending == s.pending
    requires || t.program == s.program[1..]
             || (|t.program| > 0 && s.program[1..] != [] && t.program[|t.program| - 1] == s.program[|s.program| - 1])
             || (|t.program| > 0 && s.program[1..] == [] && !t.program[|t.program| - 1].Return?)
    ensures Fed(t)
  {}

  /** What the discipline says of the next instruction. */
  lemma NextObeys(s: State)
    requires s.program != [] && Disciplined(s.program, Quiet(s), FlagOf(s), s.searchLock.Orchestrator?)
    ensures Obeys(s.program[0], s.program[1..], Quiet(s), FlagOf(s), s.searchLock.Orchestrator?)
  {}

  /** Instructions that change neither workers, handle nor mutex. */
  lemma PlainInv(s: State, patience: nat, searches: nat)
    requires Inv(s, searches) && Enabled(s, Orchestrate(patience)) && s.program != []
    requires var i := s.program[0];
             i.SetStop? || i.ClearStop? || i.TouchTable? || i.TouchSearch? || i.SyncSearch? || i.SetDebug?
    ensures Inv(Apply(s, Orchestrate(patience)), searches)
  {
    NextObeys(s);
    var t := Apply(s, Orchestrate(patience));
    TailFed(s, t);
    assert Disciplined(t.program, Quiet(t), FlagOf(t), t.searchLock.Orchestrator?);
    hide Disciplined, Orderly, Goes, Fed;
  }

  lemma SayInv(s: State, patience: nat, searches: nat)
    requires Inv(s, searches) && Enabled(s, Orchestrate(patience)) && s.program != [] && s.program[0].Say?
    ensures Inv(Apply(s, Orchestrate(patience)), searches)
  {
    NextObeys(s);
    var t := Apply(s, Orchestrate(patience));
    TailFed(s, t);
    assert Disciplined(t.program, Quiet(t), FlagOf(t), t.searchLock.Orchestrator?);
    assert forall i :: BestMove(i) in t.output <==> BestMove(i) in s.output;
    hide Disciplined, Goes, Fed;
  }

  lemma LockInv(s: State, patience: nat, searches: nat)
    requires Inv(s, searches) && Enabled(s, Orchestrate(patience)) && s.program != []
    requires s.program[0].LockSearch? || s.program[0].UnlockSearch?
    ensures Inv(Apply(s, Orchestrate(patience)), searches)
  {
    NextObeys(s);
    var t := Apply(s, Orchestrate(patience));
    TailFed(s, t);
    assert Disciplined(t.program, Quiet(t), FlagOf(t), t.searchLock.Orchestrator?);
    hide Disciplined, Orderly, Goes, Fed;
  }

  lemma JoinNothingInv(s: State, patience: nat, searches: nat)
    requires Inv(s, searches) && Enabled(s, Orchestrate(patience)) && s.program != [] && s.handle.None?
    requires s.program[0].JoinInFlight? || s.program[0].JoinHandle?
    ensures Inv(Apply(s, Orchestrate(patience)), searches)
  {
    NextObeys(s);
    var t := Apply(s, Orchestrate(patience));
    TailFed(s, t);
    KnowingMore(s.program[1..], true, true, if s.program[0].JoinInFlight? then Either else Up, FlagOf(s), false);
    assert Disciplined(t.program, Quiet(t), FlagOf(t), t.searchLock.Orchestrator?);
    hide Disciplined, Orderly, Goes, Fed;
  }

  lemma AwaitPrefix(rest: seq<Instr>)
    requires Disciplined(rest, true, Up, false)
    ensures Disciplined([AwaitJoin] + rest, false, Up, false)
    ensures Disciplined([SetStop, AwaitJoin] + rest, false, Either, false)
    ensures Spawns([AwaitJoin] + rest) == Spawns(rest) && Spawns([SetStop, AwaitJoin] + rest) == Spawns(rest)
  {
    Prefixed(AwaitJoin, rest, false, Up, false);
    Prefixed(SetStop, [AwaitJoin] + rest, false, Either, false);
    assert [SetStop, AwaitJoin] + rest == [SetStop] + ([AwaitJoin] + rest);
    SpawnsAppend([SetStop, AwaitJoin], rest);
    SpawnsAppend([AwaitJoin], rest);
    NoSpawns([SetStop, AwaitJoin]);
    NoSpawns([AwaitJoin]);
  }

  lemma JoinWorkerInv(s: State, patience: nat, searches: nat)
    requires Inv(s, searches) && Enabled(s, Orchestrate(patience)) && s.program != [] && s.handle.Some?
    requires s.program[0].JoinInFlight? || s.program[0].JoinHandle?
    ensures Inv(Apply(s, Orchestrate(patience)), searches)
  {
    NextObeys(s);
    var t := Apply(s, Orchestrate(patience));
    var rest := s.program[1..];
    TailFed(s, t);
    KnowingMore(rest, true, true, if s.program[0].JoinInFlight? then Either else Up, Up, false);
    AwaitPrefix(rest);
    if s.program[0].JoinInFlight? {
      KnowingMore(t.program, false, false, Either, FlagOf(s), false);
    }
    assert Disciplined(t.program, Quiet(t), FlagOf(t), t.searchLock.Orchestrator?);
    assert Spawns(t.program) == Spawns(s.program);
    hide Disciplined, Orderly, Goes, Fed, Spawns;
  }

  lemma JoinInv(s: State, patience: nat, searches: nat)
    requires Inv(s, searches) && Enabled(s, Orchestrate(patience)) && s.program != []
    requires s.program[0].JoinInFlight? || s.program[0].JoinHandle?
    ensures Inv(Apply(s, Orchestrate(patience)), searches)
  {
    hide Inv, Apply, Enabled;
    if s.handle.None? { JoinNothingInv(s, patience, searches); } else { JoinWorkerInv(s, patience, searches); }
  }

  lemma AwaitInv(s: State, patience: nat, searches: nat)
    requires Inv(s, searches) && Enabled(s, Orchestrate(patience)) && s.program != [] && s.program[0].AwaitJoin?
    ensures Inv(Apply(s, Orchestrate(patience)), searches)
  {
    NextObeys(s);
    var t := Apply(s, Orchestrate(patience));
    TailFed(s, t);
    assert Quiet(t);
    assert Disciplined(t.program, Quiet(t), FlagOf(t), t.searchLock.Orchestrator?);
    hide Disciplined, Orderly, Goes, Fed;
  }

  lemma SpawnInv(s: State, patience: nat, searches: nat)
    requires Inv(s, searches) && Enabled(s, Orchestrate(patience)) && s.program != [] && s.program[0].Spawn?
    ensures Inv(Apply(s, Orchestrate(patience)), searches)
  {
    NextObeys(s);
    var t := Apply(s, Orchestrate(patience));
    TailFed(s, t);
    assert t.workers[|s.workers|].phase.Starting?;
    assert !Quiet(t);
    assert Disciplined(t.program, Quiet(t), FlagOf(t), t.searchLock.Orchestrator?);
    assert BestMove(|s.workers|) !in s.output;
    hide Disciplined, Orderly, Goes, Fed;
  }

  lemma ReturnInv(s: State, patience: nat, searches: nat)
    requires Inv(s, searches) && Enabled(s, Orchestrate(patience)) && s.program != [] && s.program[0].Return?
    ensures Inv(Apply(s, Orchestrate(patience)), searches)
  {
    NextObeys(s);
    assert s.program == [Return] && Spawns([Return]) == 0;
    assert Quiet(s) && !s.searchLock.Orchestrator?;
    hide Orderly, Goes, Obeys;
  }

  /** Every step of every thread keeps the invariant. */
  lemma StepInv(s: State, step: Step, searches: nat)
    requires Inv(s, searches) && Enabled(s, step)
    ensures Inv(Apply(s, step), searches)
  {
    hide Inv, Apply, Enabled;
    match step
    case Read => ReadInv(s, searches);
    case Acquire(id) => AcquireInv(s, id, searches);
    case Think(id) => ThinkInv(s, id, searches);
    case Print(id) => PrintInv(s, id, searches);
    case Finish(id) => FinishInv(s, id, searches);
    case Report(id) => ReportInv(s, id, searches);
    case Orchestrate(patience) =>
      if s.program == [] {
        ReceiveInv(s, patience, searches);
      } else {
        match s.program[0]
        case Say => SayInv(s, patience, searches);
        case LockSearch => LockInv(s, patience, searches);
        case UnlockSearch => LockInv(s, patience, searches);
        case JoinInFlight => JoinInv(s, patience, searches);
        case JoinHandle => JoinInv(s, patience, searches);
        case AwaitJoin => AwaitInv(s, patience, searches);
        case Spawn => SpawnInv(s, patience, searches);
        case Return => ReturnInv(s, patience, searches);
        case _ => PlainInv(s, patience, searches);
      }
  }
}
