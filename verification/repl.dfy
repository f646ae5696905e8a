/** The REPL layer of `lib/interpret.c`: colon commands (`exec_interactive_cmd`,
    `com_quit`, `com_help`) and the `interpret` session loop, folded over the lines
    the line reader would deliver. */
module Repl {
  import opened Outcomes
  import opened Output
  import opened Stacks
  import opened Text
  import opened Tables
  import opened Interpreter

  /** Where `exec_interactive_cmd` finds the command word, `line[start..end]`, and its
      argument, `line[argStart..]`: positions into the line, as the C code keeps
      pointers into it. */
  datatype CommandLine = CommandLine(start: nat, end: nat, argStart: nat)

  /** The word isolation of `exec_interactive_cmd`: leading whitespace is skipped, the
      word is the run of non-whitespace that follows, and the argument is what is left
      after the whitespace behind the word. */
  function SplitCommand(line: string): (r: CommandLine)
    ensures r.start <= r.end <= r.argStart <= |line|
    ensures forall k :: 0 <= k < r.start ==> IsSpace(line[k])
    ensures r.start == |line| || !IsSpace(line[r.start])
    ensures forall k :: r.start <= k < r.end ==> !IsSpace(line[k])
    ensures r.end == |line| || IsSpace(line[r.end])
    ensures forall k :: r.end <= k < r.argStart ==> IsSpace(line[k])
    ensures r.argStart == |line| || !IsSpace(line[r.argStart])
  {
    var start := SkipSpaces(line, 0);
    var end := SkipWord(line, start);
    CommandLine(start, end, SkipSpaces(line, end))
  }

  function CommandWord(line: string): string
  {
    var c := SplitCommand(line);
    line[c.start..c.end]
  }

  /** What running one command did: its output, the new termination flag, and the
      command's return value (-1 when no command has that name). */
  datatype CommandStep = CommandStep(events: seq<Event>, done: bool, status: int)

  /** `com_quit` raises the termination flag; `com_help` lists the command rows, the
      number placeholder and the builtin rows. Both ignore their argument. */
  function RunCommand(f: CommandFn, arg: string, done: bool): (r: CommandStep)
    ensures r.status == 0
    ensures f == QuitFn ==> r.done && r.events == []
    ensures f == HelpFn ==> r.done == done && r.events == [HelpListing(HelpEntries())]
  {
    match f
    case QuitFn => CommandStep([], true, 0)
    case HelpFn => CommandStep([HelpListing(HelpEntries())], done, 0)
  }

  /** `exec_interactive_cmd`: an unknown word is reported and changes nothing; a
      known word runs its command. */
  function ExecInteractiveCmd(line: string, done: bool): (r: CommandStep)
    ensures var w := CommandWord(line);
      && (r.status == -1 <==> w !in Names(Commands))
      && (w !in Names(Commands) ==> r == CommandStep([CommandNotFound(w)], done, -1))
      && (r.done <==> done || w == ":quit")
      && (w == ":help" ==> r.events == [HelpListing(HelpEntries())])
  {
    var c := SplitCommand(line);
    var word := line[c.start..c.end];
    FindCommand(word);
    match Find(Commands, word)
    case None => CommandStep([CommandNotFound(word)], done, -1)
    case Some(command) => RunCommand(command.func, line[c.argStart..], done)
  }

  const InteractiveBanner: string := "RPN Calculator (type ':quit' to exit, ':help' for info)"

  /** The state the loop carries between lines: the stack, the termination flag, the
      output so far and the number of lines read. */
  datatype Running = Running(stack: Stack, done: bool, trace: seq<Event>, read: nat)

  /** How a run ends: the process exits normally (at end of input, or after `:quit`),
      or it dies on a stack fault, in which case no stack survives. */
  datatype Run =
    | Exited(stack: Stack, trace: seq<Event>, quit: bool, read: nat)
    | Died(trace: seq<Event>, fault: Fault, read: nat)

  datatype Progress = Continue(next: Running) | Halt(run: Run)

  /** In interactive mode a line whose first character is ':' is a REPL command. */
  predicate IsCommandLine(interactive: bool, line: string)
  {
    interactive && line != [] && line[0] == ':'
  }

  /** The interactive echo after a calculator line: "=> " and the top value, or just
      the empty indicator. */
  function AutoPrint(s: Stack): (r: seq<Event>)
    ensures |r| == (if IsEmpty(s) then 1 else 2)
    ensures r[|r| - 1] == Peek(s)
    ensures !IsEmpty(s) ==> r[0] == ResultArrow
    ensures ResultArrow in r <==> !IsEmpty(s)
  {
    (if IsEmpty(s) then [] else [ResultArrow]) + [Peek(s)]
  }

  /** One pass of the `interpret` loop body over a line that has been read, where
      `runLine` executes a calculator line against the stack. */
  function LineStep(runLine: (string, Stack) -> Step, interactive: bool, st: Running, line: string): Progress
  {
    if IsCommandLine(interactive, line) then
      var c := ExecInteractiveCmd(line, st.done);
      Continue(Running(st.stack, c.done, st.trace + c.events, st.read + 1))
    else
      var step := runLine(line, st.stack);
      match step.result
      case Abort(f) => Halt(Died(st.trace + step.events, f, st.read + 1))
      case Ok(s) =>
        var echo := if interactive then AutoPrint(s) else [];
        Continue(Running(s, st.done, st.trace + step.events + echo, st.read + 1))
  }

  /** A command line in interactive mode runs the command and never touches the
      stack. */
  lemma CommandLineKeepsStack(runLine: (string, Stack) -> Step, st: Running, line: string)
    requires IsCommandLine(true, line)
    ensures var c := ExecInteractiveCmd(line, st.done);
            LineStep(runLine, true, st, line) == Continue(Running(st.stack, c.done, st.trace + c.events, st.read + 1))
  {
  }

  /** An interactive calculator line runs its tokens and is then followed by exactly
      one peek of the new top (after the "=> " marker when there is a top); a fatal
      fault ends the run with the output produced so far. */
  lemma CalculatorLineEchoes(runLine: (string, Stack) -> Step, st: Running, line: string)
    requires !IsCommandLine(true, line)
    ensures var step := runLine(line, st.stack);
            LineStep(runLine, true, st, line) ==
              match step.result
              case Abort(f) => Halt(Died(st.trace + step.events, f, st.read + 1))
              case Ok(s) => Continue(Running(s, st.done, st.trace + step.events + AutoPrint(s), st.read + 1))
  {
  }

  /** `while (!DONE && (line = readline(prompt)))`, for any loop body `step`: the
      flag is checked before each read, so once it is raised no further line is
      read; a body that halts ends the run. */
  function Session(step: (Running, string) -> Progress, lines: seq<string>, st: Running): Run
    decreases |lines|
  {
    if st.done then Exited(st.stack, st.trace, true, st.read)
    else if lines == [] then Exited(st.stack, st.trace, false, st.read)
    else
      match step(st, lines[0])
      case Halt(run) => run
      case Continue(next) => Session(step, lines[1..], next)
  }

  /** The body of the `interpret` loop with the parser and the mode fixed. */
  function LineStepWith(strtod: Strtod, interactive: bool): (Running, string) -> Progress
  {
    (st: Running, line: string) => LineStep(ExecLineWith(strtod), interactive, st, line)
  }

  /** The state `interpret` starts from: a fresh stack, the flag down, and the
      banner in interactive mode. */
  function Start(interactive: bool): Running
  {
    Running(New(), false, if interactive then [Banner(InteractiveBanner)] else [], 0)
  }

  /** What `interpret` does after the loop: in batch mode, one peek of the final
      stack (a process that died prints nothing more). */
  function Finish(interactive: bool, run: Run): Run
  {
    match run
    case Exited(s, trace, quit, read) =>
      if interactive then run else Exited(s, trace + [Peek(s)], quit, read)
    case Died(_, _, _) => run
  }

  /** `interpret`: the loop over the lines from the start state, then the finish. */
  function Interpret(strtod: Strtod, lines: seq<string>, interactive: bool): Run
  {
    Finish(interactive, Session(LineStepWith(strtod, interactive), lines, Start(interactive)))
  }

  /** A loop body that raises the flag on `line` and changes nothing else stops the
      loop before the next line is read. */
  lemma StopAfter(step: (Running, string) -> Progress, st: Running, line: string, rest: seq<string>)
    requires !st.done
    requires step(st, line) == Continue(Running(st.stack, true, st.trace, st.read + 1))
    ensures Session(step, [line] + rest, st) == Exited(st.stack, st.trace, true, st.read + 1)
  {
    assert ([line] + rest)[0] == line && ([line] + rest)[1..] == rest;
  }

  /** In interactive mode a `:quit` line raises the flag and prints nothing. */
  lemma QuitLineStep(runLine: (string, Stack) -> Step, st: Running, line: string)
    requires IsCommandLine(true, line) && CommandWord(line) == ":quit"
    ensures LineStep(runLine, true, st, line) == Continue(Running(st.stack, true, st.trace, st.read + 1))
  {
    CommandLineKeepsStack(runLine, st, line);
    QuitCommand(line, st.done);
    assert st.trace + [] == st.trace;
  }

  /** In interactive mode a `:quit` line raises the flag, and the loop stops before
      reading the next line, whatever that line would have been. */
  lemma QuitLineEndsSession(strtod: Strtod, st: Running, line: string, rest: seq<string>)
    requires !st.done && IsCommandLine(true, line) && CommandWord(line) == ":quit"
    ensures Session(LineStepWith(strtod, true), [line] + rest, st)
            == Exited(st.stack, st.trace, true, st.read + 1)
  {
    QuitLineStep(ExecLineWith(strtod), st, line);
    StopAfter(LineStepWith(strtod, true), st, line, rest);
  }

  /** The `:quit` word raises the flag and prints nothing. */
  lemma QuitCommand(line: string, done: bool)
    requires CommandWord(line) == ":quit"
    ensures ExecInteractiveCmd(line, done) == CommandStep([], true, 0)
  {
    assert Names(Commands)[0] == ":quit";
  }

  /** Once a prefix of the input has ended the session with `:quit`, the lines after
      it are never read: they cannot change the run. */
  lemma {:induction false} QuitStopsReading(step: (Running, string) -> Progress, pre: seq<string>,
                                            rest: seq<string>, st: Running)
    requires Session(step, pre, st).Exited? && Session(step, pre, st).quit
    ensures Session(step, pre + rest, st) == Session(step, pre, st)
    decreases |pre|
  {
    if !st.done {
      assert pre != [];
      assert (pre + rest)[0] == pre[0] && (pre + rest)[1..] == pre[1..] + rest;
      match step(st, pre[0])
      case Halt(run) =>
      case Continue(next) =>
        QuitStopsReading(step, pre[1..], rest, next);
    }
  }

  /** Every token of every line, in input order. */
  function AllTokens(lines: seq<string>): seq<string>
  {
    if lines == [] then [] else Tokenize(lines[0]) + AllTokens(lines[1..])
  }

  /** The loop body of batch mode, once the line's tokens have run: nothing is
      echoed, and a fault ends the run. */
  function BatchBody(st: Running, step: Step): Progress
  {
    match step.result
    case Abort(f) => Halt(Died(st.trace + step.events, f, st.read + 1))
    case Ok(s) => Continue(Running(s, st.done, st.trace + step.events, st.read + 1))
  }

  /** A loop whose body runs each line's tokens and echoes nothing reads every line
      (unless a fault ends the run) and behaves as one token stream running over all
      of them. */
  lemma {:induction false} SessionIsOneTokenStream(step: (Running, string) -> Progress,
                                                   exec: (string, Stack) -> Step,
                                                   lines: seq<string>, st: Running)
    requires !st.done
    requires forall r: Running, line: string :: !r.done ==>
               step(r, line) == BatchBody(r, RunTokens(exec, Tokenize(line), r.stack))
    ensures var all := RunTokens(exec, AllTokens(lines), st.stack);
            var run := Session(step, lines, st);
            && (all.result.Ok? ==>
                  run == Exited(all.result.value, st.trace + all.events, false, st.read + |lines|))
            && (all.result.Abort? ==>
                  run.Died? && run.trace == st.trace + all.events && run.fault == all.result.fault)
    decreases |lines|
  {
    if lines != [] {
      var first := RunTokens(exec, Tokenize(lines[0]), st.stack);
      var tail := AllTokens(lines[1..]);
      assert AllTokens(lines) == Tokenize(lines[0]) + tail;
      assert step(st, lines[0]) == BatchBody(st, first);
      RunTokensAppend(exec, Tokenize(lines[0]), tail, st.stack);
      if first.result.Ok? {
        var s := first.result.value;
        var next := Running(s, false, st.trace + first.events, st.read + 1);
        SessionIsOneTokenStream(step, exec, lines[1..], next);
        var y := RunTokens(exec, tail, s);
        assert st.trace + first.events + y.events == st.trace + (first.events + y.events);
      }
    }
  }

  /** Batch mode, where ':' lines go through the calculator like any other line. */
  lemma BatchLineStep(runLine: (string, Stack) -> Step, st: Running, line: string)
    ensures LineStep(runLine, false, st, line) == BatchBody(st, runLine(line, st.stack))
  {
    var step := runLine(line, st.stack);
    if step.result.Ok? {
      assert st.trace + step.events + [] == st.trace + step.events;
    }
  }

  lemma BatchLineSteps(strtod: Strtod)
    ensures forall r: Running, line: string :: !r.done ==>
              LineStepWith(strtod, false)(r, line) == BatchBody(r, RunTokens(ExecWith(strtod), Tokenize(line), r.stack))
  {
    forall r: Running, line: string | !r.done
      ensures LineStepWith(strtod, false)(r, line) == BatchBody(r, RunTokens(ExecWith(strtod), Tokenize(line), r.stack))
    {
      BatchLineStep(ExecLineWith(strtod), r, line);
      ExecLineIsTokenRun(strtod, line, r.stack);
    }
  }

  /** The output of a batch-mode run, given the run `all` of one token stream over
      all `n` input lines: if it completes, every line was read and one peek of the
      final stack follows its output; if it faults, the process dies with that fault
      after the same output. */
  predicate BatchOutput(run: Run, all: Step, n: nat)
  {
    match all.result
    case Ok(v) => run == Exited(v, all.events + [Peek(v)], false, n)
    case Abort(f) => run.Died? && run.trace == all.events && run.fault == f
  }

  /** A batch-mode run of such a loop body is one token stream over all input lines,
      then (if the process survives) one peek of the final stack. */
  lemma {:induction false} BatchRun(step: (Running, string) -> Progress, exec: (string, Stack) -> Step,
                                    lines: seq<string>)
    requires forall r: Running, line: string :: !r.done ==>
               step(r, line) == BatchBody(r, RunTokens(exec, Tokenize(line), r.stack))
    ensures BatchOutput(Finish(false, Session(step, lines, Start(false))), RunTokens(exec, AllTokens(lines), New()), |lines|)
  {
    var all := RunTokens(exec, AllTokens(lines), New());
    SessionIsOneTokenStream(step, exec, lines, Start(false));
    assert [] + all.events == all.events;
  }

  /** The whole batch run: the output is that of one token stream over all input
      lines, followed (if the process survives) by exactly one peek of the final
      stack. */
  lemma BatchSession(strtod: Strtod, lines: seq<string>)
    ensures BatchOutput(Interpret(strtod, lines, false), ExecTokens(strtod, AllTokens(lines), New()), |lines|)
  {
    BatchLineSteps(strtod);
    BatchRun(LineStepWith(strtod, false), ExecWith(strtod), lines);
  }
}
