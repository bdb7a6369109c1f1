/** What each command has achieved once its handler has run out, whatever reader and workers do meanwhile. */
module EngineHandlers {
  import opened Engine
  import opened EngineSafety
  import opened EngineRuns

  // ---- What a program will have done ----

  function Replies(output: seq<Line>): nat {
    if output == [] then 0 else Replies(output[..|output| - 1]) + if output[|output| - 1].Reply? then 1 else 0
  }

  predicate IsTouch(instr: Instr) {
    instr.TouchTable? || instr.TouchSearch? || instr.SyncSearch?
  }

  function Says(program: seq<Instr>): nat {
    if program == [] then 0 else (if program[0].Say? then 1 else 0) + Says(program[1..])
  }

  function Touches(program: seq<Instr>): seq<Instr> {
    if program == [] then [] else (if IsTouch(program[0]) then [program[0]] else []) + Touches(program[1..])
  }

  function DebugAfter(program: seq<Instr>, debug: bool): bool {
    if program == [] then debug
    else DebugAfter(program[1..], if program[0].SetDebug? then program[0].on else debug)
  }

  function Returns(program: seq<Instr>): bool {
    program != [] && (program[0].Return? || Returns(program[1..]))
  }

  /** What a state comes to by the end of its program, the workers apart. */
  datatype Outlook = Outlook(replies: nat, touched: seq<Instr>, workers: nat, debug: bool, halted: bool)

  function OutlookOf(s: State): Outlook {
    Outlook(Replies(s.output) + Says(s.program), s.touched + Touches(s.program), |s.workers| + Spawns(s.program),
            DebugAfter(s.program, s.debug), s.halted || Returns(s.program))
  }

  predicate IsReceipt(s: State, step: Step) {
    step.Orchestrate? && s.program == []
  }

  lemma RepliesAppend(output: seq<Line>, line: Line)
    ensures Replies(output + [line]) == Replies(output) + if line.Reply? then 1 else 0
  {
    assert (output + [line])[..|output|] == output;
  }

  lemma ProgramHead(program: seq<Instr>, debug: bool)
    requires program != []
    ensures var (instr, rest) := (program[0], program[1..]);
            && Says(program) == (if instr.Say? then 1 else 0) + Says(rest)
            && Touches(program) == (if IsTouch(instr) then [instr] else []) + Touches(rest)
            && Spawns(program) == (if instr.Spawn? then 1 else 0) + Spawns(rest)
            && DebugAfter(program, debug) == DebugAfter(rest, if instr.SetDebug? then instr.on else debug)
            && Returns(program) == (instr.Return? || Returns(rest))
  {}

  /** Joins unfolded leave the outlook alone. */
  lemma UnfoldedHead(rest: seq<Instr>, debug: bool)
    ensures forall head :: head == [AwaitJoin] || head == [SetStop, AwaitJoin] ==>
                             && Says(head + rest) == Says(rest) && Touches(head + rest) == Touches(rest)
                             && Spawns(head + rest) == Spawns(rest)
                             && DebugAfter(head + rest, debug) == DebugAfter(rest, debug) && Returns(head + rest) == Returns(rest)
  {
    var (one, two) := ([AwaitJoin] + rest, [SetStop, AwaitJoin] + rest);
    assert one[1..] == rest && two[1..] == one;
    ProgramHead(one, debug);
    ProgramHead(two, debug);
  }

  /** No step but the receipt of a command changes what the orchestrator will have done. */
  lemma OutlookKept(s: State, step: Step)
    requires Enabled(s, step) && !IsReceipt(s, step)
    ensures OutlookOf(Apply(s, step)) == OutlookOf(s)
  {
    hide Says, Touches, Spawns, DebugAfter, Returns, Replies;
    if step.Orchestrate? {
      InstrKeepsOutlook(s, step.patience);
    } else {
      OthersWrite(s, step);
      hide Enabled, Apply;
    }
  }

  /** Reader and workers write nothing the outlook looks at, but for lines of their own. */
  lemma OthersWrite(s: State, step: Step)
    requires Enabled(s, step) && !step.Orchestrate?
    ensures var t := Apply(s, step);
            && t.program == s.program && t.touched == s.touched && |t.workers| == |s.workers|
            && t.debug == s.debug && t.halted == s.halted && Replies(t.output) == Replies(s.output)
  {
    match step
    case Print(id) => RepliesAppend(s.output, Info(id));
    case Report(id) => RepliesAppend(s.output, BestMove(id));
    case _ =>
  }

  lemma InstrKeepsOutlook(s: State, patience: nat)
    requires Enabled(s, Orchestrate(patience)) && s.program != []
    ensures OutlookOf(Apply(s, Orchestrate(patience))) == OutlookOf(s)
  {
    if s.program[0].JoinInFlight? || s.program[0].JoinHandle? {
      JoinKeepsOutlook(s, patience);
    } else if s.program[0].Say? {
      RepliesAppend(s.output, Reply);
      PlainKeepsOutlook(s, patience);
    } else {
      PlainKeepsOutlook(s, patience);
    }
  }

  /** What one instruction writes of the fields the outlook looks at. */
  lemma Written(s: State, instr: Instr, rest: seq<Instr>, patience: nat)
    ensures var t := Execute(s, instr, rest, patience);
            && t.output == (if instr.Say? then s.output + [Reply] else s.output)
            && t.touched == (if IsTouch(instr) then s.touched + [instr] else s.touched)
            && |t.workers| == (if instr.Spawn? then |s.workers| + 1 else |s.workers|)
            && t.debug == (if instr.SetDebug? then instr.on else s.debug)
            && t.halted == (s.halted || instr.Return?)
  {}

  lemma JoinKeepsOutlook(s: State, patience: nat)
    requires Enabled(s, Orchestrate(patience)) && s.program != []
    requires s.program[0].JoinInFlight? || s.program[0].JoinHandle?
    ensures OutlookOf(Apply(s, Orchestrate(patience))) == OutlookOf(s)
  {
    var (instr, rest) := (s.program[0], s.program[1..]);
    var t := Apply(s, Orchestrate(patience));
    ProgramHead(s.program, s.debug);
    UnfoldedHead(rest, s.debug);
    Written(s, instr, rest, patience);
    ExecuteLeaves(s, instr, rest, patience);
    assert [] + Touches(rest) == Touches(rest);
    hide Says, Touches, Spawns, DebugAfter, Returns, Replies, Enabled, Execute;
  }

  lemma Appended(a: seq<Instr>, instr: Instr, b: seq<Instr>)
    ensures a + ([instr] + b) == a + [instr] + b && a + ([] + b) == a + b
  {}

  lemma PlainKeepsOutlook(s: State, patience: nat)
    requires Enabled(s, Orchestrate(patience)) && s.program != []
    requires !s.program[0].JoinInFlight? && !s.program[0].JoinHandle?
    ensures OutlookOf(Apply(s, Orchestrate(patience))) == OutlookOf(s)
  {
    var (instr, rest) := (s.program[0], s.program[1..]);
    hide Says, Touches, Spawns, DebugAfter, Returns, Replies, Enabled, Execute;
    ProgramHead(s.program, s.debug);
    RepliesAppend(s.output, Reply);
    Written(s, instr, rest, patience);
    ExecuteLeaves(s, instr, rest, patience);
    Appended(s.touched, instr, Touches(rest));
  }

  // ---- How a program leaves the workers and the stop flag ----

  function EndsQuiet(program: seq<Instr>, quiet: bool): bool {
    if program == [] then quiet
    else
      match program[0]
      case JoinInFlight => EndsQuiet(program[1..], true)
      case JoinHandle => EndsQuiet(program[1..], true)
      case AwaitJoin => EndsQuiet(program[1..], true)
      case Spawn => EndsQuiet(program[1..], false)
      case _ => EndsQuiet(program[1..], quiet)
  }

  function EndsFlag(program: seq<Instr>, flag: Flag): Flag {
    if program == [] then flag
    else
      match program[0]
      case SetStop => EndsFlag(program[1..], Up)
      case ClearStop => EndsFlag(program[1..], Down)
      case JoinInFlight => EndsFlag(program[1..], Either)
      case _ => EndsFlag(program[1..], flag)
  }

  lemma {:induction false} QuietGrows(program: seq<Instr>, quiet: bool)
    ensures EndsQuiet(program, false) ==> EndsQuiet(program, quiet)
  {
    if program != [] { QuietGrows(program[1..], quiet); }
  }

  lemma {:induction false} FlagGrows(program: seq<Instr>, flag: Flag)
    ensures !EndsFlag(program, Either).Either? ==> EndsFlag(program, flag) == EndsFlag(program, Either)
  {
    if program != [] { FlagGrows(program[1..], flag); }
  }

  lemma UnfoldedEnds(rest: seq<Instr>, quiet: bool, flag: Flag)
    ensures EndsQuiet([AwaitJoin] + rest, quiet) == EndsQuiet(rest, true)
    ensures EndsQuiet([SetStop, AwaitJoin] + rest, quiet) == EndsQuiet(rest, true)
    ensures EndsFlag([AwaitJoin] + rest, flag) == EndsFlag(rest, flag)
    ensures EndsFlag([SetStop, AwaitJoin] + rest, flag) == EndsFlag(rest, Up)
  {
    var (one, two) := ([AwaitJoin] + rest, [SetStop, AwaitJoin] + rest);
    assert one[1..] == rest && two[1..] == one;
  }

  /** No step but a receipt unsettles what the program will leave. */
  lemma EndsKept(s: State, step: Step, searches: nat)
    requires Inv(s, searches) && Enabled(s, step) && !IsReceipt(s, step)
    ensures var t := Apply(s, step);
            && (EndsQuiet(s.program, Quiet(s)) ==> EndsQuiet(t.program, Quiet(t)))
            && (!EndsFlag(s.program, FlagOf(s)).Either? ==> EndsFlag(t.program, FlagOf(t)) == EndsFlag(s.program, FlagOf(s)))
  {
    if step.Orchestrate? {
      InstrKeepsEnds(s, step.patience, searches);
    } else {
      var t := Apply(s, step);
      assert t.program == s.program && t.stop == s.stop && (Quiet(s) ==> Quiet(t)) by { OthersStayQuiet(s, step, searches); }
      QuietGrows(s.program, Quiet(t));
      hide EndsQuiet, EndsFlag, Inv, Enabled, Apply, Quiet;
    }
  }

  lemma OthersStayQuiet(s: State, step: Step, searches: nat)
    requires Inv(s, searches) && Enabled(s, step) && !step.Orchestrate?
    ensures var t := Apply(s, step);
            t.program == s.program && t.stop == s.stop && (Quiet(s) ==> Quiet(t))
  {
    hide Disciplined, Orderly, Goes, Fed, Waiting, Reported, Locked, Spawns;
  }

  lemma InstrKeepsEnds(s: State, patience: nat, searches: nat)
    requires Inv(s, searches) && Enabled(s, Orchestrate(patience)) && s.program != []
    ensures var t := Apply(s, Orchestrate(patience));
            && (EndsQuiet(s.program, Quiet(s)) ==> EndsQuiet(t.program, Quiet(t)))
            && (!EndsFlag(s.program, FlagOf(s)).Either? ==> EndsFlag(t.program, FlagOf(t)) == EndsFlag(s.program, FlagOf(s)))
  {
    var (instr, rest) := (s.program[0], s.program[1..]);
    var t := Apply(s, Orchestrate(patience));
    StopAndQuiet(s, patience, searches);
    UnfoldedEnds(rest, Quiet(t), FlagOf(t));
    QuietGrows(rest, Quiet(t));
    FlagGrows(rest, FlagOf(t));
    FlagGrows(rest, Up);
    EndsHead(s.program, Quiet(s), FlagOf(s));
    hide EndsQuiet, EndsFlag, Inv, Enabled, Apply, Quiet;
  }

  lemma EndsHead(program: seq<Instr>, quiet: bool, flag: Flag)
    requires program != []
    ensures var (instr, rest) := (program[0], program[1..]);
            && EndsQuiet(program, quiet) == (if instr.JoinInFlight? || instr.JoinHandle? || instr.AwaitJoin? then EndsQuiet(rest, true)
                                             else if instr.Spawn? then EndsQuiet(rest, false) else EndsQuiet(rest, quiet))
            && EndsFlag(program, flag) == (if instr.SetStop? then EndsFlag(rest, Up) else if instr.ClearStop? then EndsFlag(rest, Down)
                                           else if instr.JoinInFlight? then EndsFlag(rest, Either) else EndsFlag(rest, flag))
  {}

  /** What one instruction does to the flag and the workers in flight. */
  lemma StopAndQuiet(s: State, patience: nat, searches: nat)
    requires Inv(s, searches) && Enabled(s, Orchestrate(patience)) && s.program != []
    ensures var (instr, rest) := (s.program[0], s.program[1..]);
            var t := Apply(s, Orchestrate(patience));
            && (t.stop == if instr.SetStop? then true else if instr.ClearStop? then false else s.stop)
            && (t.program == rest || (instr.JoinInFlight? && t.program == [SetStop, AwaitJoin] + rest)
                || (instr.JoinHandle? && t.program == [AwaitJoin] + rest))
            && ((instr.JoinInFlight? || instr.JoinHandle? || instr.AwaitJoin?) && t.program == rest ==> Quiet(t))
            && (!instr.JoinInFlight? && !instr.JoinHandle? && !instr.AwaitJoin? && !instr.Spawn? ==>
                  t.program == rest && Quiet(t) == Quiet(s))
  {
    hide Disciplined, Orderly, Goes, Fed, Reported, Locked, Spawns;
  }

  // ---- One command from its receipt to the end of its handler ----

  function Unread(s: State): nat {
    |s.inbox| + |s.pending|
  }

  lemma UnreadStep(s: State, step: Step)
    requires Enabled(s, step)
    ensures Unread(Apply(s, step)) == Unread(s) - if IsReceipt(s, step) then 1 else 0
    ensures !IsReceipt(s, step) ==> Apply(s, step).inbox + Apply(s, step).pending == s.inbox + s.pending
  {
    if step.Orchestrate? && s.program != [] { ExecuteLeaves(s, s.program[0], s.program[1..], step.patience); hide Execute; }
  }

  lemma {:induction false} UnreadShrinks(s: State, steps: seq<Step>)
    requires CanRun(s, steps)
    ensures Unread(RunFrom(s, steps)) <= Unread(s)
    decreases |steps|
  {
    hide Apply, Enabled;
    if steps != [] {
      UnreadStep(s, steps[0]);
      UnreadShrinks(Apply(s, steps[0]), steps[1..]);
    }
  }

  /** A run that receives nothing carries the outlook to its end. */
  lemma {:induction false} NothingReceived(s: State, steps: seq<Step>, searches: nat)
    requires Inv(s, searches) && CanRun(s, steps) && Unread(RunFrom(s, steps)) == Unread(s)
    ensures var t := RunFrom(s, steps);
            && Inv(t, searches) && OutlookOf(t) == OutlookOf(s)
            && (EndsQuiet(s.program, Quiet(s)) ==> EndsQuiet(t.program, Quiet(t)))
            && (!EndsFlag(s.program, FlagOf(s)).Either? ==> EndsFlag(t.program, FlagOf(t)) == EndsFlag(s.program, FlagOf(s)))
    decreases |steps|
  {
    hide Inv, Apply, Enabled, OutlookOf, EndsQuiet, EndsFlag, Quiet, FlagOf;
    if steps != [] {
      UnreadStep(s, steps[0]);
      UnreadShrinks(Apply(s, steps[0]), steps[1..]);
      OutlookKept(s, steps[0]);
      EndsKept(s, steps[0], searches);
      StepInv(s, steps[0], searches);
      NothingReceived(Apply(s, steps[0]), steps[1..], searches);
    }
  }

  /** What the handler of `cmd` amounts to between two states. */
  predicate Amounts(s: State, t: State, cmd: Command) {
    var program := Program(cmd, s.debug);
    && Replies(t.output) == Replies(s.output) + Says(program)
    && t.touched == s.touched + Touches(program)
    && |t.workers| == |s.workers| + Spawns(program)
    && t.debug == DebugAfter(program, s.debug)
    && t.halted == (s.halted || Returns(program))
    && (EndsQuiet(program, Quiet(s)) ==> Quiet(t))
    && (!EndsFlag(program, FlagOf(s)).Either? ==> FlagOf(t) == EndsFlag(program, FlagOf(s)))
  }

  /** From a state that awaits a command to one in which its handler has run out and nothing else was received. */
  lemma {:induction false} Handled(s: State, steps: seq<Step>, searches: nat)
    requires Inv(s, searches) && s.program == [] && CanRun(s, steps) && Unread(s) > 0
    requires RunFrom(s, steps).program == [] && Unread(RunFrom(s, steps)) == Unread(s) - 1
    ensures Inv(RunFrom(s, steps), searches) && Amounts(s, RunFrom(s, steps), (s.inbox + s.pending)[0])
    decreases |steps|
  {
    var t := RunFrom(s, steps);
    assert steps != [];
    var u := Apply(s, steps[0]);
    UnreadStep(s, steps[0]);
    StepInv(s, steps[0], searches);
    if IsReceipt(s, steps[0]) {
      Receipt(s, steps[0].patience);
      NothingReceived(u, steps[1..], searches);
      EndOfProgram(t);
      QuietGrows(u.program, Quiet(s));
      hide Inv, Apply, Enabled, EndsQuiet, EndsFlag, Quiet, FlagOf, Says, Touches, Spawns, DebugAfter, Returns, Replies, Program;
    } else {
      StillIdle(s, steps[0]);
      OutlookKept(s, steps[0]);
      EndsKept(s, steps[0], searches);
      Handled(u, steps[1..], searches);
      IdleAmounts(s, u, t, (s.inbox + s.pending)[0]);
    }
  }

  lemma Receipt(s: State, patience: nat)
    requires Enabled(s, Orchestrate(patience)) && s.program == []
    ensures var u := Apply(s, Orchestrate(patience));
            && u == s.(inbox := s.inbox[1..], program := Program(s.inbox[0], s.debug))
            && s.inbox[0] == (s.inbox + s.pending)[0] && Quiet(u) == Quiet(s) && FlagOf(u) == FlagOf(s)
  {
    hide Program;
  }

  lemma EndOfProgram(t: State)
    requires t.program == []
    ensures OutlookOf(t) == Outlook(Replies(t.output), t.touched, |t.workers|, t.debug, t.halted)
    ensures EndsQuiet(t.program, Quiet(t)) == Quiet(t) && EndsFlag(t.program, FlagOf(t)) == FlagOf(t)
  {
    assert t.touched + [] == t.touched;
  }

  lemma StillIdle(s: State, step: Step)
    requires Enabled(s, step) && s.program == [] && !IsReceipt(s, step)
    ensures var u := Apply(s, step); u.program == [] && u.stop == s.stop && u.debug == s.debug
  {}

  lemma IdleAmounts(s: State, u: State, t: State, cmd: Command)
    requires s.program == [] && u.program == [] && OutlookOf(u) == OutlookOf(s) && u.stop == s.stop && u.debug == s.debug
    requires EndsQuiet(s.program, Quiet(s)) ==> EndsQuiet(u.program, Quiet(u))
    requires Amounts(u, t, cmd)
    ensures Amounts(s, t, cmd)
  {
    EndOfProgram(s);
    EndOfProgram(u);
    QuietGrows(Program(cmd, s.debug), Quiet(u));
    hide EndsQuiet, EndsFlag, Quiet, Says, Touches, Spawns, DebugAfter, Returns, Replies, Program, OutlookOf;
  }

  // ---- Command by command ----

  /** In a state of some run the next command is `cmd`; after `steps` its handler has run out, and no other was received. */
  ghost predicate Carried(s: State, input: seq<Command>, before: seq<Step>, cmd: Command, steps: seq<Step>) {
    && Reached(s, input, before) && s.program == []
    && Unread(s) > 0 && (s.inbox + s.pending)[0] == cmd
    && CanRun(s, steps) && RunFrom(s, steps).program == [] && Unread(RunFrom(s, steps)) == Unread(s) - 1
  }

  lemma CarriedAmounts(s: State, input: seq<Command>, before: seq<Step>, cmd: Command, steps: seq<Step>)
    requires Carried(s, input, before, cmd, steps)
    ensures Inv(RunFrom(s, steps), Goes(Sent(input))) && Amounts(s, RunFrom(s, steps), cmd)
  {
    ReachedInv(s, input, before);
    hide Inv, Amounts, Reached;
    Handled(s, steps, Goes(Sent(input)));
  }

  /** All searches have answered, once each. */
  ghost predicate AllAnswered(s: State) {
    AllDone(s) && forall k: nat :: k < |s.workers| ==> BestMoves(s.output, k) == 1
  }

  lemma QuietAnswers(s: State, searches: nat)
    requires Inv(s, searches) && Quiet(s)
    ensures AllAnswered(s)
  {
    forall k: nat | k < |s.workers|
      ensures BestMoves(s.output, k) == 1
    {
      BestMovesOnce(s.output, k);
      assert s.workers[k].phase.Done?;
    }
  }

  lemma EarlierAnswered(t: State, searches: nat)
    requires Inv(t, searches)
    ensures forall k: nat :: k + 1 < |t.workers| ==> t.workers[k].phase.Done? && BestMoves(t.output, k) == 1
  {
    forall k: nat | k + 1 < |t.workers|
      ensures t.workers[k].phase.Done? && BestMoves(t.output, k) == 1
    {
      BestMovesOnce(t.output, k);
      assert t.workers[k].phase.Done?;
    }
  }

  /** What a program amounts to, summed up. */
  datatype Summary = Summary(says: nat, touches: seq<Instr>, spawns: nat, debug: bool, halts: bool, quiet: bool, flag: Flag)

  function SummaryOf(program: seq<Instr>, quiet: bool, flag: Flag, debug: bool): Summary {
    Summary(Says(program), Touches(program), Spawns(program), DebugAfter(program, debug), Returns(program),
            EndsQuiet(program, quiet), EndsFlag(program, flag))
  }

  /** The state after a handler, by its summary. */
  lemma Outcome(s: State, input: seq<Command>, before: seq<Step>, cmd: Command, steps: seq<Step>)
    requires Carried(s, input, before, cmd, steps)
    ensures var t := RunFrom(s, steps);
            var sum := SummaryOf(Program(cmd, s.debug), Quiet(s), FlagOf(s), s.debug);
            && Replies(t.output) == Replies(s.output) + sum.says
            && t.touched == s.touched + sum.touches
            && |t.workers| == |s.workers| + sum.spawns
            && t.debug == sum.debug && t.halted == sum.halts
            && (sum.quiet ==> AllAnswered(t))
            && (sum.flag.Up? ==> t.stop) && (sum.flag.Down? ==> !t.stop)
            && (forall k: nat :: k + 1 < |t.workers| ==> t.workers[k].phase.Done? && BestMoves(t.output, k) == 1)
  {
    CarriedAmounts(s, input, before, cmd, steps);
    NotHalted(s, input, before);
    var t := RunFrom(s, steps);
    EarlierAnswered(t, Goes(Sent(input)));
    if Quiet(t) { QuietAnswers(t, Goes(Sent(input))); }
    hide Inv, Carried, Says, Touches, Spawns, DebugAfter, Returns, EndsQuiet, EndsFlag, Replies, AllAnswered, Quiet, Program, BestMoves;
  }

  lemma NotHalted(s: State, input: seq<Command>, before: seq<Step>)
    requires Reached(s, input, before) && Unread(s) > 0
    ensures !s.halted
  {
    ReachedInv(s, input, before);
    hide Disciplined, Orderly, Goes, Reached;
    assert s.halted ==> s.inbox + s.pending == [];
  }

  /** After `stop` every search has answered, and the flag is up. */
  lemma StopLaw(s: State, input: seq<Command>, before: seq<Step>, steps: seq<Step>)
    requires Carried(s, input, before, Stop, steps)
    ensures var t := RunFrom(s, steps);
            && AllAnswered(t) && t.stop && |t.workers| == |s.workers|
            && Replies(t.output) == Replies(s.output) && t.touched == s.touched && !t.halted
  {
    hide *;
    Outcome(s, input, before, Stop, steps);
    StopProgram(Quiet(s), FlagOf(s), s.debug);
  }

  lemma StopProgram(quiet: bool, flag: Flag, debug: bool)
    ensures SummaryOf(Program(Stop, debug), quiet, flag, debug) == Summary(0, [], 0, debug, false, true, Up)
  {
    var p1 := [JoinHandle] + [];
    var p2 := [SetStop] + p1;
    assert Program(Stop, debug) == p2;
    hide Says, Touches, Spawns, DebugAfter, Returns, EndsQuiet, EndsFlag;
    Nothing(debug);
    InFront(JoinHandle, [], quiet, Up, debug);
    InFront(SetStop, p1, quiet, flag, debug);
  }

  /** After `quit` every search has answered, and `run` has returned. */
  lemma QuitLaw(s: State, input: seq<Command>, before: seq<Step>, steps: seq<Step>)
    requires Carried(s, input, before, Quit, steps)
    ensures var t := RunFrom(s, steps);
            && AllAnswered(t) && t.stop && t.halted && |t.workers| == |s.workers|
            && Replies(t.output) == Replies(s.output) && t.touched == s.touched
  {
    hide *;
    Outcome(s, input, before, Quit, steps);
    QuitProgram(Quiet(s), FlagOf(s), s.debug);
  }

  lemma QuitProgram(quiet: bool, flag: Flag, debug: bool)
    ensures SummaryOf(Program(Quit, debug), quiet, flag, debug) == Summary(0, [], 0, debug, true, true, Up)
  {
    var p1 := [Return] + [];
    var p2 := [JoinHandle] + p1;
    var p3 := [SetStop] + p2;
    assert Program(Quit, debug) == p3;
    hide Says, Touches, Spawns, DebugAfter, Returns, EndsQuiet, EndsFlag;
    Nothing(debug);
    InFront(Return, [], true, Up, debug);
    InFront(JoinHandle, p1, quiet, Up, debug);
    InFront(SetStop, p2, quiet, flag, debug);
  }

  /** After `go` one more search has been started, with the flag down, and all before it have answered. */
  lemma GoLaw(s: State, input: seq<Command>, before: seq<Step>, steps: seq<Step>)
    requires Carried(s, input, before, Go, steps)
    ensures var t := RunFrom(s, steps);
            && |t.workers| == |s.workers| + 1 && !t.stop
            && (forall k: nat :: k < |s.workers| ==> t.workers[k].phase.Done? && BestMoves(t.output, k) == 1)
            && Replies(t.output) == Replies(s.output) && t.touched == s.touched
  {
    hide *;
    Outcome(s, input, before, Go, steps);
    GoProgram(Quiet(s), FlagOf(s), s.debug);
  }

  lemma GoProgram(quiet: bool, flag: Flag, debug: bool)
    ensures SummaryOf(Program(Go, debug), quiet, flag, debug) == Summary(0, [], 1, debug, false, false, Down)
  {
    var p1 := [Spawn] + [];
    var p2 := [ClearStop] + p1;
    var p3 := [JoinInFlight] + p2;
    assert Program(Go, debug) == p3;
    hide Says, Touches, Spawns, DebugAfter, Returns, EndsQuiet, EndsFlag;
    Nothing(debug);
    InFront(Spawn, [], true, Down, debug);
    InFront(ClearStop, p1, true, Either, debug);
    InFront(JoinInFlight, p2, quiet, flag, debug);
  }

  /** `ucinewgame` clears the table, then resets the search, and leaves no search in flight and the flag down. */
  lemma NewGameLaw(s: State, input: seq<Command>, before: seq<Step>, steps: seq<Step>)
    requires Carried(s, input, before, UciNewGame, steps)
    ensures var t := RunFrom(s, steps);
            && t.touched == s.touched + [TouchTable, TouchSearch] && AllAnswered(t) && !t.stop
            && |t.workers| == |s.workers| && Replies(t.output) == Replies(s.output)
  {
    hide *;
    Outcome(s, input, before, UciNewGame, steps);
    NewGameProgram(Quiet(s), FlagOf(s), s.debug);
  }

  lemma NewGameProgram(quiet: bool, flag: Flag, debug: bool)
    ensures SummaryOf(Program(UciNewGame, debug), quiet, flag, debug)
         == Summary(0, [TouchTable, TouchSearch], 0, debug, false, true, Down)
  {
    assert RESET + [] == RESET;
    Nothing(debug);
    hide Says, Touches, Spawns, DebugAfter, Returns, EndsQuiet, EndsFlag;
    ResetProgram([], quiet, flag, debug);
  }

  lemma Nothing(debug: bool)
    ensures Says([]) == 0 && Touches([]) == [] && Spawns([]) == 0 && !Returns([]) && DebugAfter([], debug) == debug
    ensures forall quiet :: EndsQuiet([], quiet) == quiet
    ensures forall flag :: EndsFlag([], flag) == flag
  {}

  /** One instruction in front. */
  lemma InFront(instr: Instr, rest: seq<Instr>, quiet: bool, flag: Flag, debug: bool)
    ensures var p := [instr] + rest;
            && Says(p) == (if instr.Say? then 1 else 0) + Says(rest)
            && Touches(p) == (if IsTouch(instr) then [instr] + Touches(rest) else Touches(rest))
            && Spawns(p) == (if instr.Spawn? then 1 else 0) + Spawns(rest)
            && DebugAfter(p, debug) == DebugAfter(rest, if instr.SetDebug? then instr.on else debug)
            && Returns(p) == (instr.Return? || Returns(rest))
            && EndsQuiet(p, quiet) == (if instr.JoinInFlight? || instr.JoinHandle? || instr.AwaitJoin? then EndsQuiet(rest, true)
                                       else if instr.Spawn? then EndsQuiet(rest, false) else EndsQuiet(rest, quiet))
            && EndsFlag(p, flag) == (if instr.SetStop? then EndsFlag(rest, Up) else if instr.ClearStop? then EndsFlag(rest, Down)
                                     else if instr.JoinInFlight? then EndsFlag(rest, Either) else EndsFlag(rest, flag))
  {
    var p := [instr] + rest;
    assert p[0] == instr && p[1..] == rest && [] + Touches(rest) == Touches(rest);
    ProgramHead(p, debug);
    EndsHead(p, quiet, flag);
    hide Says, Touches, Spawns, DebugAfter, Returns, EndsQuiet, EndsFlag;
  }

  lemma ResetProgram(rest: seq<Instr>, quiet: bool, flag: Flag, debug: bool)
    ensures var p := RESET + rest;
            && Says(p) == Says(rest) && Touches(p) == [TouchTable, TouchSearch] + Touches(rest) && Spawns(p) == Spawns(rest)
            && EndsQuiet(p, quiet) == EndsQuiet(rest, true) && EndsFlag(p, flag) == EndsFlag(rest, Down)
            && DebugAfter(p, debug) == DebugAfter(rest, debug) && Returns(p) == Returns(rest)
  {
    var p1 := [ClearStop] + rest;
    var p2 := [UnlockSearch] + p1;
    var p3 := [TouchSearch] + p2;
    var p4 := [LockSearch] + p3;
    var p5 := [TouchTable] + p4;
    assert RESET + rest == [JoinInFlight] + p5;
    assert [TouchTable] + ([TouchSearch] + Touches(rest)) == [TouchTable, TouchSearch] + Touches(rest);
    hide Says, Touches, Spawns, DebugAfter, Returns, EndsQuiet, EndsFlag;
    InFront(ClearStop, rest, true, Either, debug);
    InFront(UnlockSearch, p1, true, Either, debug);
    InFront(TouchSearch, p2, true, Either, debug);
    InFront(LockSearch, p3, true, Either, debug);
    InFront(TouchTable, p4, true, Either, debug);
    InFront(JoinInFlight, p5, quiet, flag, debug);
  }

  /** A new hash size clears the table; a new seed or window resets the search; neither leaves a search in flight. */
  lemma OptionLaw(s: State, input: seq<Command>, before: seq<Step>, steps: seq<Step>, name: OptionName)
    requires Carried(s, input, before, SetOption(name, true), steps)
    ensures var t := RunFrom(s, steps);
            && t.touched == s.touched + (match name
                                         case Hash => [TouchTable]
                                         case RandomSeed => [TouchSearch]
                                         case Aspiration => [TouchSearch]
                                         case _ => [])
            && (name.Hash? || name.RandomSeed? || name.Aspiration? ==> AllAnswered(t))
            && (name.Hash? ==> !t.stop) && |t.workers| == |s.workers| && !t.halted
  {
    hide *;
    Outcome(s, input, before, SetOption(name, true), steps);
    OptionProgram(name, Quiet(s), FlagOf(s), s.debug);
  }

  lemma OptionProgram(name: OptionName, quiet: bool, flag: Flag, debug: bool)
    ensures var sum := SummaryOf(Program(SetOption(name, true), debug), quiet, flag, debug);
            && sum.touches == (match name
                               case Hash => [TouchTable]
                               case RandomSeed => [TouchSearch]
                               case Aspiration => [TouchSearch]
                               case _ => [])
            && (name.Hash? || name.RandomSeed? || name.Aspiration? ==> sum.quiet)
            && (name.Hash? ==> sum.flag.Down?) && sum.spawns == 0 && !sum.halts
  {
    if name.Hash? {
      HashProgram(quiet, flag, debug);
    } else if name.RandomSeed? || name.Aspiration? {
      SearchOptionProgram(name, quiet, flag, debug);
    } else {
      var p := Program(SetOption(name, true), debug);
      assert p == Lines(|p|);
      LinesProgram(|p|, quiet, flag, debug);
    }
  }

  lemma HashProgram(quiet: bool, flag: Flag, debug: bool)
    ensures SummaryOf(Program(SetOption(Hash, true), debug), quiet, flag, debug)
         == Summary(0, [TouchTable], 0, debug, false, true, Down)
  {
    var p1 := [ClearStop] + [];
    var p2 := [TouchTable] + p1;
    var p3 := [JoinInFlight] + p2;
    assert Program(SetOption(Hash, true), debug) == p3;
    hide Says, Touches, Spawns, DebugAfter, Returns, EndsQuiet, EndsFlag;
    Nothing(debug);
    InFront(ClearStop, [], true, Either, debug);
    InFront(TouchTable, p1, true, Either, debug);
    InFront(JoinInFlight, p2, quiet, flag, debug);
  }

  lemma SearchOptionIs(name: OptionName, debug: bool)
    requires name.RandomSeed? || name.Aspiration?
    ensures Program(SetOption(name, true), debug) == [JoinInFlight] + ([LockSearch] + ([TouchSearch] + ([UnlockSearch] + [])))
  {}

  const SEARCH_SECTION: seq<Instr> := [LockSearch] + ([TouchSearch] + ([UnlockSearch] + []))

  lemma SearchSection(debug: bool)
    ensures SummaryOf(SEARCH_SECTION, true, Either, debug) == Summary(0, [TouchSearch], 0, debug, false, true, Either)
  {
    var p1 := [UnlockSearch] + [];
    var p2 := [TouchSearch] + p1;
    Nothing(debug);
    hide Says, Touches, Spawns, DebugAfter, Returns, EndsQuiet, EndsFlag;
    InFront(UnlockSearch, [], true, Either, debug);
    InFront(TouchSearch, p1, true, Either, debug);
    InFront(LockSearch, p2, true, Either, debug);
  }

  lemma SearchOptionProgram(name: OptionName, quiet: bool, flag: Flag, debug: bool)
    requires name.RandomSeed? || name.Aspiration?
    ensures SummaryOf(Program(SetOption(name, true), debug), quiet, flag, debug)
         == Summary(0, [TouchSearch], 0, debug, false, true, Either)
  {
    SearchOptionIs(name, debug);
    SearchSection(debug);
    hide Program, Says, Touches, Spawns, DebugAfter, Returns, EndsQuiet, EndsFlag;
    InFront(JoinInFlight, SEARCH_SECTION, quiet, flag, debug);
  }

  /** Lines of the reply to a command that is merely answered. */
  function Answer(cmd: Command, debug: bool): nat {
    match cmd
    case Uci => 13
    case IsReady => 1
    case SetPosition(accepted) => if accepted then 0 else 1
    case SetOption(VirtualClock, _) => 1
    case Debug(_) => 0
    case _ => if debug then 1 else 0
  }

  predicate IsTalk(cmd: Command) {
    cmd.Uci? || cmd.IsReady? || cmd.SetPosition? || (cmd.SetOption? && !cmd.accepted)
    || cmd.Debug? || cmd.Register? || cmd.PonderHit? || cmd.Unknown?
  }

  /** The other commands are answered and do nothing else: search, table and flag stay as they are, and only `debug` switches debugging. */
  lemma TalkLaw(s: State, input: seq<Command>, before: seq<Step>, steps: seq<Step>, cmd: Command)
    requires Carried(s, input, before, cmd, steps) && IsTalk(cmd)
    ensures var t := RunFrom(s, steps);
            && Replies(t.output) == Replies(s.output) + Answer(cmd, s.debug)
            && t.touched == s.touched && |t.workers| == |s.workers| && t.stop == s.stop && !t.halted
            && t.debug == if cmd.Debug? then cmd.on else s.debug
  {
    FlagIs(s);
    hide *;
    Outcome(s, input, before, cmd, steps);
    TalkProgram(cmd, Quiet(s), FlagOf(s), s.debug);
  }

  lemma FlagIs(s: State)
    ensures FlagOf(s) == if s.stop then Up else Down
  {}

  lemma TalkProgram(cmd: Command, quiet: bool, flag: Flag, debug: bool)
    requires IsTalk(cmd)
    ensures SummaryOf(Program(cmd, debug), quiet, flag, debug)
         == Summary(Answer(cmd, debug), [], 0, if cmd.Debug? then cmd.on else debug, false, quiet, flag)
  {
    if cmd.Debug? {
      Nothing(cmd.on);
      InFront(SetDebug(cmd.on), [], quiet, flag, debug);
      assert [SetDebug(cmd.on)] + [] == Program(cmd, debug);
    } else {
      assert Program(cmd, debug) == Lines(Answer(cmd, debug));
      LinesProgram(Answer(cmd, debug), quiet, flag, debug);
    }
  }

  lemma {:induction false} LinesProgram(n: nat, quiet: bool, flag: Flag, debug: bool)
    ensures SummaryOf(Lines(n), quiet, flag, debug) == Summary(n, [], 0, debug, false, quiet, flag)
  {
    if n > 0 {
      LinesProgram(n - 1, quiet, flag, debug);
      assert Lines(n) == [Say] + Lines(n - 1);
      hide Lines, Says, Touches, Spawns, DebugAfter, Returns, EndsQuiet, EndsFlag;
      InFront(Say, Lines(n - 1), quiet, flag, debug);
    }
  }

  /** For each position: table cleared, search reset, and a search run to its end. */
  function BenchTouches(positions: nat): seq<Instr> {
    if positions == 0 then [] else [TouchTable, TouchSearch, SyncSearch] + BenchTouches(positions - 1)
  }

  /** `bench` searches each position on its own, and prints a line for each and two more. */
  lemma BenchLaw(s: State, input: seq<Command>, before: seq<Step>, steps: seq<Step>, positions: nat)
    requires Carried(s, input, before, Bench(positions), steps)
    ensures var t := RunFrom(s, steps);
            && Replies(t.output) == Replies(s.output) + positions + 2
            && t.touched == s.touched + BenchTouches(positions)
            && AllAnswered(t) && !t.stop && |t.workers| == |s.workers| && !t.halted
  {
    hide *;
    Outcome(s, input, before, Bench(positions), steps);
    BenchProgram(positions, Quiet(s), FlagOf(s), s.debug);
  }

  lemma BenchProgram(positions: nat, quiet: bool, flag: Flag, debug: bool)
    ensures SummaryOf(Program(Bench(positions), debug), quiet, flag, debug)
         == Summary(positions + 2, BenchTouches(positions), 0, debug, false, true, Down)
  {
    var rest := BenchAll(positions);
    assert Program(Bench(positions), debug) == [JoinInFlight] + ([ClearStop] + rest);
    BenchAllProgram(positions, debug);
    hide BenchAll, Says, Touches, Spawns, DebugAfter, Returns, EndsQuiet, EndsFlag;
    InFront(ClearStop, rest, true, Either, debug);
    InFront(JoinInFlight, [ClearStop] + rest, quiet, flag, debug);
  }

  lemma {:induction false} BenchAllProgram(positions: nat, debug: bool)
    ensures SummaryOf(BenchAll(positions), true, Down, debug)
         == Summary(positions + 2, BenchTouches(positions), 0, debug, false, true, Down)
  {
    BenchUnfolds(positions);
    hide BenchAll, Lines, Says, Touches, Spawns, DebugAfter, Returns, EndsQuiet, EndsFlag, BenchTouches;
    if positions == 0 {
      LinesProgram(2, true, Down, debug);
    } else {
      BenchAllProgram(positions - 1, debug);
      OneBench(BenchAll(positions - 1), debug);
    }
  }

  lemma BenchUnfolds(positions: nat)
    ensures positions == 0 ==> BenchAll(positions) == Lines(2) && BenchTouches(positions) == []
    ensures positions > 0 ==>
              BenchAll(positions) ==
              RESET + ([LockSearch] + ([SyncSearch] + ([UnlockSearch] + ([Say] + BenchAll(positions - 1)))))
    ensures positions > 0 ==>
              BenchTouches(positions) == [TouchTable, TouchSearch] + ([SyncSearch] + BenchTouches(positions - 1))
  {}

  lemma OneBench(rest: seq<Instr>, debug: bool)
    ensures var p := RESET + ([LockSearch] + ([SyncSearch] + ([UnlockSearch] + ([Say] + rest))));
            && Says(p) == 1 + Says(rest) && Touches(p) == [TouchTable, TouchSearch] + ([SyncSearch] + Touches(rest))
            && Spawns(p) == Spawns(rest) && DebugAfter(p, debug) == DebugAfter(rest, debug) && Returns(p) == Returns(rest)
            && EndsQuiet(p, true) == EndsQuiet(rest, true) && EndsFlag(p, Down) == EndsFlag(rest, Down)
  {
    hide Says, Touches, Spawns, DebugAfter, Returns, EndsQuiet, EndsFlag;
    var p1 := [Say] + rest;
    var p2 := [UnlockSearch] + p1;
    var p3 := [SyncSearch] + p2;
    var p4 := [LockSearch] + p3;
    InFront(Say, rest, true, Down, debug);
    InFront(UnlockSearch, p1, true, Down, debug);
    InFront(SyncSearch, p2, true, Down, debug);
    InFront(LockSearch, p3, true, Down, debug);
    ResetProgram(p4, true, Down, debug);
  }
}
