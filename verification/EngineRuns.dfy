/** What every run of the engine guarantees: outputs, mutual exclusion, progress and bounded waiting. */
module EngineRuns {
  import opened Engine
  import opened EngineSafety

  // ---- Runs ----

  ghost predicate CanRun(s: State, steps: seq<Step>)
    decreases |steps|
  {
    steps != [] ==> Enabled(s, steps[0]) && CanRun(Apply(s, steps[0]), steps[1..])
  }

  function RunFrom(s: State, steps: seq<Step>): State
    requires CanRun(s, steps)
    decreases |steps|
  {
    if steps == [] then s else RunFrom(Apply(s, steps[0]), steps[1..])
  }

  lemma {:induction false} RunInv(s: State, steps: seq<Step>, searches: nat)
    requires Inv(s, searches) && CanRun(s, steps)
    ensures Inv(RunFrom(s, steps), searches)
    decreases |steps|
  {
    hide Inv, Apply, Enabled;
    if steps != [] {
      StepInv(s, steps[0], searches);
      RunInv(Apply(s, steps[0]), steps[1..], searches);
    }
  }

  lemma {:induction false} SentTwice(input: seq<Command>)
    ensures Sent(Sent(input)) == Sent(input)
  {
    if input != [] && !input[0].Quit? {
      SentTwice(input[1..]);
      assert Sent(input)[1..] == Sent(input[1..]);
    }
  }

  /** A state some interleaving reaches on some input. */
  ghost predicate Reached(s: State, input: seq<Command>, steps: seq<Step>) {
    CanRun(Init(Sent(input)), steps) && s == RunFrom(Init(Sent(input)), steps)
  }

  lemma ReachedInv(s: State, input: seq<Command>, steps: seq<Step>)
    requires Reached(s, input, steps)
    ensures Inv(s, Goes(Sent(input)))
  {
    SentTwice(input);
    InitInv(Sent(input));
    RunInv(Init(Sent(input)), steps, Goes(Sent(input)));
  }

  // ---- Safety ----

  /** At most one worker is ever in flight. */
  lemma OneWorkerInFlight(s: State, input: seq<Command>, steps: seq<Step>, i: nat, j: nat)
    requires Reached(s, input, steps)
    requires i < |s.workers| && j < |s.workers| && !s.workers[i].phase.Done? && !s.workers[j].phase.Done?
    ensures i == j
  {
    ReachedInv(s, input, steps);
  }

  /** Lines of search k precede lines of search k+1, and a best move is the last line of its search. */
  lemma OutputOrderly(s: State, input: seq<Command>, steps: seq<Step>, p: nat, q: nat)
    requires Reached(s, input, steps)
    requires p < q < |s.output| && !s.output[p].Reply? && !s.output[q].Reply?
    ensures SearchOf(s.output[p]) <= SearchOf(s.output[q])
    ensures s.output[p].BestMove? ==> SearchOf(s.output[p]) < SearchOf(s.output[q])
  {
    ReachedInv(s, input, steps);
  }

  function BestMoves(output: seq<Line>, k: nat): nat {
    if output == [] then 0
    else BestMoves(output[..|output| - 1], k) + if output[|output| - 1] == BestMove(k) then 1 else 0
  }

  lemma {:induction false} BestMovesOnce(output: seq<Line>, k: nat)
    requires Orderly(output)
    ensures BestMoves(output, k) == if BestMove(k) in output then 1 else 0
  {
    if output != [] {
      var last := |output| - 1;
      BestMovesOnce(output[..last], k);
      assert output == output[..last] + [output[last]];
      assert forall p :: 0 <= p < last && output[last] == BestMove(k) ==> output[p] != BestMove(k);
    }
  }

  /** When `run` returns, every `go` received has produced exactly one best move, and no worker is left. */
  lemma EveryGoAnswered(s: State, input: seq<Command>, steps: seq<Step>)
    requires Reached(s, input, steps) && s.halted
    ensures |s.workers| == Goes(Sent(input))
    ensures AllDone(s)
    ensures forall k: nat :: BestMoves(s.output, k) == if k < Goes(Sent(input)) then 1 else 0
  {
    ReachedInv(s, input, steps);
    assert s.inbox + s.pending == [];
    forall k: nat
      ensures BestMoves(s.output, k) == if k < |s.workers| then 1 else 0
    {
      BestMovesOnce(s.output, k);
      if BestMove(k) in s.output {
        var p :| 0 <= p < |s.output| && s.output[p] == BestMove(k);
        assert SearchOf(s.output[p]) == k;
      }
    }
  }

  /**
   The orchestrator touches the table and takes the search mutex only while no worker is in flight
   (so taking it never blocks), searches and spawns only with the stop flag down, and waits for a
   worker only with the flag up.
   */
  lemma SharedStateGuarded(s: State, input: seq<Command>, steps: seq<Step>)
    requires Reached(s, input, steps) && s.program != []
    ensures var next := s.program[0];
            && (next.TouchTable? || next.LockSearch? || next.TouchSearch? || next.SyncSearch? || next.Spawn? ==> AllDone(s))
            && (next.LockSearch? ==> s.searchLock.Free?)
            && (next.TouchSearch? || next.SyncSearch? ==> s.searchLock.Orchestrator?)
            && (next.Spawn? || next.SyncSearch? ==> !s.stop)
            && (next.AwaitJoin? ==> s.stop)
  {
    ReachedInv(s, input, steps);
    NextObeys(s);
    hide Disciplined, Orderly, Goes, Fed;
  }

  /** A worker holds the search mutex exactly while it searches. */
  lemma MutexExclusive(s: State, input: seq<Command>, steps: seq<Step>, i: nat)
    requires Reached(s, input, steps) && i < |s.workers|
    ensures s.workers[i].phase.Searching? <==> s.searchLock == ByWorker(i)
  {
    ReachedInv(s, input, steps);
  }

  // ---- Progress ----

  /** The engine is never stuck before it has returned, even if no search does more than it must. */
  lemma NeverStuck(s: State, input: seq<Command>, steps: seq<Step>) returns (step: Step)
    requires Reached(s, input, steps) && !s.halted
    ensures Enabled(s, step) && !step.Think? && !step.Print? && (step.Orchestrate? ==> step.patience == 0)
  {
    ReachedInv(s, input, steps);
    hide Disciplined, Orderly, Goes;
    if s.program == [] {
      step := if s.inbox != [] then Orchestrate(0) else Read;
    } else if s.program[0].AwaitJoin? {
      var id := Last(s);
      match s.workers[id].phase {
        case Done => step := Orchestrate(0);
        case Starting => step := Acquire(id);
        case Searching => step := Finish(id);
        case Finished => step := Report(id);
      }
    } else {
      step := Orchestrate(0);
      if s.program[0].LockSearch? { SharedStateGuarded(s, input, steps); }
    }
  }

  predicate IsWorkerStep(step: Step) {
    !step.Read? && !step.Orchestrate?
  }

  function WorkOf(w: Worker): nat {
    match w.phase
    case Starting => w.patience + 3
    case Searching => w.patience + 2
    case Finished => 1
    case Done => 0
  }

  /** Steps the worker in flight can still take once stop is up. */
  function WorkLeft(s: State): nat {
    if s.workers == [] then 0 else WorkOf(s.workers[|s.workers| - 1])
  }

  lemma WorkShrinks(s: State, step: Step, searches: nat)
    requires Inv(s, searches) && Enabled(s, step) && IsWorkerStep(step) && s.stop
    ensures WorkLeft(Apply(s, step)) < WorkLeft(s)
    ensures Apply(s, step).stop && Apply(s, step).program == s.program
  {
    hide Disciplined, Orderly, Goes, Fed, Waiting, Reported;
  }

  /** With the stop flag up, workers take no more than `WorkLeft` steps among themselves: joins end. */
  lemma {:induction false} WorkersEnd(s: State, steps: seq<Step>, searches: nat)
    requires Inv(s, searches) && s.stop && CanRun(s, steps)
    requires forall i :: 0 <= i < |steps| ==> IsWorkerStep(steps[i])
    ensures |steps| <= WorkLeft(s)
    decreases |steps|
  {
    hide Inv, Apply, Enabled, WorkLeft;
    if steps != [] {
      WorkShrinks(s, steps[0], searches);
      StepInv(s, steps[0], searches);
      WorkersEnd(Apply(s, steps[0]), steps[1..], searches);
    }
  }

  // ---- The orchestrator's own work is finite ----

  function InstrWork(instr: Instr): nat {
    match instr
    case JoinInFlight => 3
    case JoinHandle => 2
    case _ => 1
  }

  function ProgramWork(program: seq<Instr>): nat {
    if program == [] then 0 else InstrWork(program[0]) + ProgramWork(program[1..])
  }

  function CommandWork(cmd: Command): nat {
    1 + ProgramWork(Program(cmd, false)) + ProgramWork(Program(cmd, true))
  }

  function CommandsWork(cmds: seq<Command>): nat {
    if cmds == [] then 0 else CommandWork(cmds[0]) + CommandsWork(cmds[1..])
  }

  /** Steps reader and orchestrator can still take. */
  function OwnWork(s: State): nat {
    2 * |s.pending| + |s.inbox| + CommandsWork(s.inbox + s.pending) + ProgramWork(s.program)
  }

  lemma ReceiveShrinks(s: State, patience: nat)
    requires Enabled(s, Orchestrate(patience)) && s.program == []
    ensures OwnWork(Apply(s, Orchestrate(patience))) < OwnWork(s)
  {
    var t := Apply(s, Orchestrate(patience));
    var left := s.inbox + s.pending;
    assert left[0] == s.inbox[0] && left[1..] == t.inbox + t.pending;
    hide Program;
  }

  lemma AwaitWork(rest: seq<Instr>)
    ensures ProgramWork([AwaitJoin] + rest) == 1 + ProgramWork(rest)
    ensures ProgramWork([SetStop, AwaitJoin] + rest) == 2 + ProgramWork(rest)
  {
    assert ([SetStop, AwaitJoin] + rest)[1..] == [AwaitJoin] + rest && ([AwaitJoin] + rest)[1..] == rest;
  }

  /** An instruction leaves the commands alone, and its program is the rest, perhaps with a join unfolded. */
  lemma ExecuteLeaves(s: State, instr: Instr, rest: seq<Instr>, patience: nat)
    ensures var t := Execute(s, instr, rest, patience);
            && t.inbox == s.inbox && t.pending == s.pending
            && (|| t.program == rest
                || (instr.JoinInFlight? && t.program == [SetStop, AwaitJoin] + rest)
                || (instr.JoinHandle? && t.program == [AwaitJoin] + rest))
  {}

  lemma ExecuteShrinks(s: State, patience: nat)
    requires Enabled(s, Orchestrate(patience)) && s.program != []
    ensures OwnWork(Apply(s, Orchestrate(patience))) < OwnWork(s)
  {
    hide CommandsWork, Execute, Program, ProgramWork;
    AwaitWork(s.program[1..]);
    ExecuteLeaves(s, s.program[0], s.program[1..], patience);
    ProgramWorkHead(s.program);
  }

  lemma ProgramWorkHead(program: seq<Instr>)
    requires program != []
    ensures ProgramWork(program) == InstrWork(program[0]) + ProgramWork(program[1..])
  {}

  lemma OwnWorkShrinks(s: State, step: Step)
    requires Enabled(s, step) && !IsWorkerStep(step)
    ensures OwnWork(Apply(s, step)) < OwnWork(s)
  {
    if step.Read? {
      assert Apply(s, step).inbox + Apply(s, step).pending == s.inbox + s.pending;
      hide CommandsWork, ProgramWork;
    } else {
      hide Enabled, Apply, OwnWork;
      if s.program == [] { ReceiveShrinks(s, step.patience); } else { ExecuteShrinks(s, step.patience); }
    }
  }

  lemma OwnWorkKept(s: State, step: Step)
    requires Enabled(s, step) && IsWorkerStep(step)
    ensures OwnWork(Apply(s, step)) == OwnWork(s)
  {}

  function OwnSteps(steps: seq<Step>): nat {
    if steps == [] then 0 else (if IsWorkerStep(steps[0]) then 0 else 1) + OwnSteps(steps[1..])
  }

  /** In every run, whatever the workers do, reader and orchestrator take a bounded number of steps. */
  lemma {:induction false} OwnStepsBounded(s: State, steps: seq<Step>)
    requires CanRun(s, steps)
    ensures OwnSteps(steps) + OwnWork(RunFrom(s, steps)) <= OwnWork(s)
    decreases |steps|
  {
    hide Apply, Enabled, OwnWork;
    if steps != [] {
      if IsWorkerStep(steps[0]) { OwnWorkKept(s, steps[0]); } else { OwnWorkShrinks(s, steps[0]); }
      OwnStepsBounded(Apply(s, steps[0]), steps[1..]);
    }
  }

  // ---- Joins end ----

  /** While a join is awaited, a run that does not reach it is no longer than the worker's work and the reads left. */
  lemma {:induction false} JoinEnds(s: State, steps: seq<Step>, searches: nat)
    requires Inv(s, searches) && s.program != [] && s.program[0].AwaitJoin? && CanRun(s, steps)
    requires forall i :: 0 <= i < |steps| ==> !steps[i].Orchestrate?
    ensures s.stop && |steps| <= WorkLeft(s) + |s.pending|
    decreases |steps|
  {
    AwaitingIsStopped(s, searches);
    hide Inv, Apply, Enabled, WorkLeft;
    if steps != [] {
      StepInv(s, steps[0], searches);
      WaitingStep(s, steps[0], searches);
      JoinEnds(Apply(s, steps[0]), steps[1..], searches);
    }
  }

  lemma AwaitingIsStopped(s: State, searches: nat)
    requires Inv(s, searches) && s.program != [] && s.program[0].AwaitJoin?
    ensures s.stop
  {
    hide Disciplined, Orderly, Goes, Fed, Reported;
  }

  lemma WaitingStep(s: State, step: Step, searches: nat)
    requires Inv(s, searches) && Enabled(s, step) && s.stop && !step.Orchestrate?
    ensures var t := Apply(s, step); t.program == s.program && WorkLeft(t) + |t.pending| < WorkLeft(s) + |s.pending|
  {
    if !step.Read? { WorkShrinks(s, step, searches); }
    hide Inv;
  }

  // ---- Every run ends ----

  /** A search step taken before the stop flag is up. */
  predicate IsEarly(s: State, step: Step) {
    (step.Think? || step.Print?) && !s.stop
  }

  predicate IsSpawn(s: State, step: Step) {
    step.Orchestrate? && s.program != [] && s.program[0].Spawn?
  }

  function Allowance(s: State, step: Step, budget: nat, limit: nat): nat {
    if IsSpawn(s, step) then limit
    else if IsEarly(s, step) && budget > 0 then budget - 1
    else budget
  }

  /**
   No search takes more than `limit` steps before the stop flag is up, nor more than `limit` after;
   `budget` is what the search in flight has left of the former.
   */
  ghost predicate Paced(s: State, steps: seq<Step>, budget: nat, limit: nat)
    requires CanRun(s, steps)
    decreases |steps|
  {
    steps != [] ==>
      && (IsEarly(s, steps[0]) ==> budget > 0)
      && (IsSpawn(s, steps[0]) ==> steps[0].patience <= limit)
      && Paced(Apply(s, steps[0]), steps[1..], Allowance(s, steps[0], budget, limit), limit)
  }

  /** What is left of one search to come. */
  function PerSearch(limit: nat): nat {
    2 * limit + 3
  }

  function ToCome(searches: int, limit: nat): int {
    searches * PerSearch(limit)
  }

  lemma WorkerSpends(s: State, step: Step, searches: nat)
    requires Inv(s, searches) && Enabled(s, step) && IsWorkerStep(step)
    ensures var t := Apply(s, step);
            && |t.workers| == |s.workers|
            && if IsEarly(s, step) then WorkLeft(t) == WorkLeft(s) else WorkLeft(t) < WorkLeft(s)
  {
    hide Disciplined, Orderly, Goes, Fed, Waiting, Reported;
  }

  /** A spawn finds no worker in flight, and one search fewer is to come. */
  lemma SpawnSpends(s: State, patience: nat, searches: nat)
    requires Inv(s, searches) && Enabled(s, Orchestrate(patience)) && IsSpawn(s, Orchestrate(patience))
    ensures var t := Apply(s, Orchestrate(patience));
            WorkLeft(s) == 0 && WorkLeft(t) == patience + 3 && |t.workers| == |s.workers| + 1
  {
    NextObeys(s);
    hide Disciplined, Orderly, Goes, Fed, Waiting, Reported;
  }

  lemma OthersKeep(s: State, step: Step)
    requires Enabled(s, step) && !IsWorkerStep(step) && !IsSpawn(s, step)
    ensures Apply(s, step).workers == s.workers
  {}

  lemma SearchesToCome(s: State, searches: nat)
    requires Inv(s, searches)
    ensures |s.workers| <= searches
  {}

  /** Every step of a paced run costs at least one of what is left. */
  lemma StepSpends(s: State, step: Step, budget: nat, limit: nat, searches: nat)
    requires Inv(s, searches) && Enabled(s, step)
    requires IsEarly(s, step) ==> budget > 0
    requires IsSpawn(s, step) ==> step.patience <= limit
    ensures Left(Apply(s, step), Allowance(s, step, budget, limit), limit, searches) < Left(s, budget, limit, searches)
  {
    hide Inv, Apply, Enabled, WorkLeft, OwnWork, ToCome, PerSearch;
    if IsSpawn(s, step) {
      SpawnSpends(s, step.patience, searches);
      OwnWorkShrinks(s, step);
      OneSearchFewer(searches - |s.workers|, limit);
      PerSearchIs(limit);
    } else {
      OrdinarySpends(s, step, searches);
    }
  }

  lemma PerSearchIs(limit: nat)
    ensures PerSearch(limit) == 2 * limit + 3
  {}

  lemma OrdinarySpends(s: State, step: Step, searches: nat)
    requires Inv(s, searches) && Enabled(s, step) && !IsSpawn(s, step)
    ensures var t := Apply(s, step);
            && |t.workers| == |s.workers|
            && OwnWork(t) + WorkLeft(t) <= OwnWork(s) + WorkLeft(s) - if IsEarly(s, step) then 0 else 1
  {
    hide Inv, Apply, Enabled, WorkLeft, OwnWork;
    if IsWorkerStep(step) {
      OwnWorkKept(s, step);
      WorkerSpends(s, step, searches);
    } else {
      OwnWorkShrinks(s, step);
      OthersKeep(s, step);
      SameWork(s, Apply(s, step));
    }
  }

  lemma SameWork(s: State, t: State)
    requires s.workers == t.workers
    ensures WorkLeft(s) == WorkLeft(t)
  {}

  lemma OneSearchFewer(n: int, limit: nat)
    ensures ToCome(n - 1, limit) + PerSearch(limit) == ToCome(n, limit)
  {}

  lemma ToComeNatural(n: nat, limit: nat)
    ensures ToCome(n, limit) >= 0
  {}

  /** Steps of any thread that can still be taken in a paced run. */
  function Left(s: State, budget: nat, limit: nat, searches: nat): int {
    OwnWork(s) + WorkLeft(s) + budget + ToCome(searches - |s.workers|, limit)
  }

  lemma LeftNatural(s: State, budget: nat, limit: nat, searches: nat)
    requires Inv(s, searches)
    ensures Left(s, budget, limit, searches) >= 0
  {
    hide Inv, OwnWork, WorkLeft, ToCome;
    SearchesToCome(s, searches);
    ToComeNatural(searches - |s.workers|, limit);
  }

  lemma {:induction false} PacedBounded(s: State, steps: seq<Step>, budget: nat, limit: nat, searches: nat)
    requires Inv(s, searches) && CanRun(s, steps) && Paced(s, steps, budget, limit)
    ensures |steps| <= Left(s, budget, limit, searches)
    decreases |steps|
  {
    hide Inv, Apply, Enabled, Left, Allowance;
    if steps == [] {
      LeftNatural(s, budget, limit, searches);
    } else {
      StepSpends(s, steps[0], budget, limit, searches);
      StepInv(s, steps[0], searches);
      PacedBounded(Apply(s, steps[0]), steps[1..], Allowance(s, steps[0], budget, limit), limit, searches);
    }
  }

  /**
   If no search takes more than `limit` steps before stop is set, nor after, then every run has at most
   this many steps, whatever the interleaving: the work of the commands and that of one search for each `go`.
   */
  lemma RunsAreBounded(input: seq<Command>, steps: seq<Step>, limit: nat)
    requires CanRun(Init(Sent(input)), steps) && Paced(Init(Sent(input)), steps, 0, limit)
    ensures |steps| <= OwnWork(Init(Sent(input))) + Goes(Sent(input)) * PerSearch(limit)
  {
    SentTwice(input);
    InitInv(Sent(input));
    hide OwnWork, Goes, Inv, Sent, Paced, CanRun, PerSearch;
    PacedBounded(Init(Sent(input)), steps, 0, limit, Goes(Sent(input)));
  }

  /** When `run` has returned no thread has a step left. */
  lemma HaltedIsFinal(s: State, input: seq<Command>, steps: seq<Step>, step: Step)
    requires Reached(s, input, steps) && s.halted
    ensures !Enabled(s, step)
  {
    ReachedInv(s, input, steps);
    hide Disciplined, Orderly, Goes, Reached;
  }

  lemma {:induction false} RunAppend(s: State, steps: seq<Step>, step: Step, budget: nat, limit: nat)
    requires CanRun(s, steps) && Paced(s, steps, budget, limit) && Enabled(RunFrom(s, steps), step)
    requires !step.Think? && !step.Print? && (step.Orchestrate? ==> step.patience == 0)
    ensures CanRun(s, steps + [step]) && Paced(s, steps + [step], budget, limit)
    ensures RunFrom(s, steps + [step]) == Apply(RunFrom(s, steps), step)
    decreases |steps|
  {
    hide Apply, Enabled, Allowance;
    if steps == [] {
      assert steps + [step] == [step] && [step][1..] == [];
    } else {
      assert (steps + [step])[1..] == steps[1..] + [step];
      RunAppend(Apply(s, steps[0]), steps[1..], step, Allowance(s, steps[0], budget, limit), limit);
    }
  }

  /** A paced run that has not returned can go on, and pacing never hinders it: the maximal ones have all returned. */
  lemma PacedGoesOn(s: State, input: seq<Command>, steps: seq<Step>, limit: nat) returns (step: Step)
    requires Reached(s, input, steps) && Paced(Init(Sent(input)), steps, 0, limit) && !s.halted
    ensures CanRun(Init(Sent(input)), steps + [step]) && Paced(Init(Sent(input)), steps + [step], 0, limit)
  {
    step := NeverStuck(s, input, steps);
    hide Enabled, Paced, CanRun, RunFrom, Sent;
    RunAppend(Init(Sent(input)), steps, step, 0, limit);
  }

  /** Every paced run can be carried on until `run` returns. */
  lemma {:induction false} RunReturns(s: State, input: seq<Command>, steps: seq<Step>, limit: nat)
    returns (all: seq<Step>, end: State)
    requires Reached(s, input, steps) && Paced(Init(Sent(input)), steps, 0, limit)
    ensures steps <= all && Reached(end, input, all) && Paced(Init(Sent(input)), all, 0, limit) && end.halted
    decreases OwnWork(Init(Sent(input))) + Goes(Sent(input)) * PerSearch(limit) - |steps|
  {
    hide Paced, CanRun, RunFrom, Sent, OwnWork, Goes;
    RunsAreBounded(input, steps, limit);
    if s.halted {
      all, end := steps, s;
    } else {
      var step := PacedGoesOn(s, input, steps, limit);
      RunsAreBounded(input, steps + [step], limit);
      all, end := RunReturns(RunFrom(Init(Sent(input)), steps + [step]), input, steps + [step], limit);
    }
  }
}
