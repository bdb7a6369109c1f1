/**
 The UCI engine as interleaved steps of three threads: the reader sends commands, the orchestrator
 executes each command's handler instruction by instruction, and the search workers it spawns print
 lines and a best move. They share a stop flag, the search mutex, the transposition table and stdout.
*/
module Engine {
  import opened Wrappers

  // ---- Commands and the instructions of their handlers ----

  datatype OptionName = RandomSeed | MoveOverhead | Hash | VirtualClock | Aspiration | OtherOption

  datatype Command =
    | Uci
    | Debug(on: bool)
    | IsReady
    | SetOption(name: OptionName, accepted: bool)
    | Register
    | UciNewGame
    | SetPosition(accepted: bool)
    | Go
    | Bench(positions: nat)
    | Stop
    | PonderHit
    | Quit
    | Unknown

  datatype Instr =
    | SetStop
    | ClearStop
    | JoinInFlight
    | JoinHandle
    | AwaitJoin
    | TouchTable
    | LockSearch
    | TouchSearch
    | SyncSearch
    | UnlockSearch
    | Spawn
    | Say
    | SetDebug(on: bool)
    | Return

  function Lines(n: nat): seq<Instr> {
    seq(n, _ => Say)
  }

  function DebugLine(debug: bool): seq<Instr> {
    if debug then [Say] else []
  }

  /** `reset_for_new_game`. */
  const RESET: seq<Instr> := [JoinInFlight, TouchTable, LockSearch, TouchSearch, UnlockSearch, ClearStop]

  /** One bench position: reset, search on the orchestrator's own thread, one summary line. */
  const BENCH_ONE: seq<Instr> := RESET + [LockSearch, SyncSearch, UnlockSearch, Say]

  function BenchAll(positions: nat): seq<Instr> {
    if positions == 0 then Lines(2) else BENCH_ONE + BenchAll(positions - 1)
  }

  function Program(cmd: Command, debug: bool): seq<Instr> {
    match cmd
    case Uci => Lines(13)
    case Debug(on) => [SetDebug(on)]
    case IsReady => [Say]
    case SetOption(RandomSeed, true) => [JoinInFlight, LockSearch, TouchSearch, UnlockSearch]
    case SetOption(Aspiration, true) => [JoinInFlight, LockSearch, TouchSearch, UnlockSearch]
    case SetOption(Hash, true) => [JoinInFlight, TouchTable, ClearStop]
    case SetOption(MoveOverhead, true) => []
    case SetOption(VirtualClock, accepted) => if accepted then [] else [Say]
    case SetOption(_, _) => DebugLine(debug)
    case Register => DebugLine(debug)
    case UciNewGame => RESET
    case SetPosition(accepted) => if accepted then [] else [Say]
    case Go => [JoinInFlight, ClearStop, Spawn]
    case Bench(positions) => [JoinInFlight, ClearStop] + BenchAll(positions)
    case Stop => [SetStop, JoinHandle]
    case PonderHit => DebugLine(debug)
    case Quit => [SetStop, JoinHandle, Return]
    case Unknown => DebugLine(debug)
  }

  // ---- The reader ----

  /** What reaches the channel: everything up to the first quit, and a quit of its own at end of input. */
  function Sent(input: seq<Command>): (sent: seq<Command>)
    ensures sent != [] && sent[|sent| - 1] == Quit
    ensures forall i :: 0 <= i < |sent| - 1 ==> sent[i] != Quit
  {
    if input == [] then [Quit]
    else if input[0].Quit? then [Quit]
    else [input[0]] + Sent(input[1..])
  }

  /** Nothing is dropped or reordered before the quit that ends the stream. */
  lemma {:induction false} SentInOrder(input: seq<Command>)
    ensures var sent := Sent(input);
            && sent[..|sent| - 1] <= input
            && (|sent| <= |input| ==> input[|sent| - 1].Quit?)
  {
    if input != [] && !input[0].Quit? {
      SentInOrder(input[1..]);
      var rest := Sent(input[1..]);
      assert Sent(input)[..|rest|] == [input[0]] + rest[..|rest| - 1];
    }
  }

  /** The commands read before the first read error, written `None`. */
  function Received(lines: seq<Option<Command>>): seq<Command> {
    if lines == [] || lines[0].None? then [] else [lines[0].value] + Received(lines[1..])
  }

  /** `reader_loop`. */
  method ReaderLoop(lines: seq<Option<Command>>) returns (sent: seq<Command>)
    ensures sent == Sent(Received(lines))
  {
    hide Sent, Received;
    sent := [];
    for i := 0 to |lines|
      invariant Sent(Received(lines)) == sent + Sent(Received(lines[i..]))
    {
      SentStep(lines[i..]);
      assert lines[i..][1..] == lines[i + 1..];
      if lines[i].None? {
        break;
      }
      sent := sent + [lines[i].value];
      if lines[i].value.Quit? {
        return;
      }
    }
    SentStep([]);
    sent := sent + [Quit];
  }

  lemma SentStep(lines: seq<Option<Command>>)
    ensures Sent(Received(lines)) ==
            if lines == [] || lines[0].None? then [Quit]
            else if lines[0].value.Quit? then [Quit]
            else [lines[0].value] + Sent(Received(lines[1..]))
  {
    if lines != [] && lines[0].Some? {
      assert Received(lines)[1..] == Received(lines[1..]);
    }
  }

  // ---- The state ----

  datatype Phase = Starting | Searching | Finished | Done

  /** `patience` bounds the steps a search takes after the stop flag is raised. */
  datatype Worker = Worker(phase: Phase, patience: nat)

  datatype Line = Reply | Info(search: nat) | BestMove(search: nat)

  datatype Holder = Free | Orchestrator | ByWorker(id: nat)

  /** `touched` lists what the orchestrator has done to the table and the search, in order. */
  datatype State = State(
    pending: seq<Command>,
    inbox: seq<Command>,
    program: seq<Instr>,
    halted: bool,
    debug: bool,
    stop: bool,
    handle: Option<nat>,
    joining: Option<nat>,
    searchLock: Holder,
    workers: seq<Worker>,
    output: seq<Line>,
    touched: seq<Instr>)

  function Init(commands: seq<Command>): State {
    State(commands, [], [], false, false, false, None, None, Free, [], [], [])
  }

  datatype Step =
    | Read
    | Orchestrate(patience: nat)
    | Acquire(id: nat)
    | Think(id: nat)
    | Print(id: nat)
    | Finish(id: nat)
    | Report(id: nat)

  predicate InPhase(s: State, id: nat, phase: Phase) {
    id < |s.workers| && s.workers[id].phase == phase
  }

  /** A blocking join waits for the worker, a lock for its release, a receive for a command. */
  predicate OrchestratorReady(s: State) {
    && !s.halted
    && (if s.program == [] then s.inbox != []
        else if s.program[0].AwaitJoin? then s.joining.Some? && InPhase(s, s.joining.value, Done)
        else if s.program[0].LockSearch? then s.searchLock.Free?
        else true)
  }

  predicate Enabled(s: State, step: Step) {
    match step
    case Read => s.pending != []
    case Orchestrate(_) => OrchestratorReady(s)
    case Acquire(id) => InPhase(s, id, Starting) && s.searchLock.Free?
    case Think(id) => InPhase(s, id, Searching) && (s.stop ==> s.workers[id].patience > 0)
    case Print(id) => InPhase(s, id, Searching) && (s.stop ==> s.workers[id].patience > 0)
    case Finish(id) => InPhase(s, id, Searching)
    case Report(id) => InPhase(s, id, Finished)
  }

  function SetPhase(s: State, id: nat, phase: Phase): seq<Worker>
    requires id < |s.workers|
  {
    s.workers[id := s.workers[id].(phase := phase)]
  }

  /** A search step spends patience once stop is raised. */
  function Spend(s: State, id: nat): seq<Worker>
    requires id < |s.workers| && (s.stop ==> s.workers[id].patience > 0)
  {
    if s.stop then s.workers[id := s.workers[id].(patience := s.workers[id].patience - 1)] else s.workers
  }

  function Execute(s: State, instr: Instr, rest: seq<Instr>, patience: nat): State {
    var t := s.(program := rest);
    match instr
    case SetStop => t.(stop := true)
    case ClearStop => t.(stop := false)
    case JoinInFlight =>
      if s.handle.None? then t
      else t.(handle := None, joining := s.handle, program := [SetStop, AwaitJoin] + rest)
    case JoinHandle =>
      if s.handle.None? then t
      else t.(handle := None, joining := s.handle, program := [AwaitJoin] + rest)
    case AwaitJoin => t.(joining := None)
    case LockSearch => t.(searchLock := Orchestrator)
    case UnlockSearch => t.(searchLock := Free)
    case Spawn => t.(handle := Some(|s.workers|), workers := s.workers + [Worker(Starting, patience)])
    case Say => t.(output := s.output + [Reply])
    case SetDebug(on) => t.(debug := on)
    case Return => t.(halted := true)
    case TouchTable => t.(touched := s.touched + [instr])
    case TouchSearch => t.(touched := s.touched + [instr])
    case SyncSearch => t.(touched := s.touched + [instr])
  }

  function Apply(s: State, step: Step): State
    requires Enabled(s, step)
  {
    match step
    case Read => s.(pending := s.pending[1..], inbox := s.inbox + [s.pending[0]])
    case Orchestrate(patience) =>
      if s.program == [] then s.(inbox := s.inbox[1..], program := Program(s.inbox[0], s.debug))
      else Execute(s, s.program[0], s.program[1..], patience)
    case Acquire(id) => s.(workers := SetPhase(s, id, Searching), searchLock := ByWorker(id))
    case Think(id) => s.(workers := Spend(s, id))
    case Print(id) => s.(workers := Spend(s, id), output := s.output + [Info(id)])
    case Finish(id) => s.(workers := SetPhase(s, id, Finished), searchLock := Free)
    case Report(id) => s.(workers := SetPhase(s, id, Done), output := s.output + [BestMove(id)])
  }
}
