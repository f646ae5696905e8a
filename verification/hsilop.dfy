/** The single-file variant `hsilop.c`: its own fixed-array stack and operators, an
    `exec` without builtins, `tokenize_exec`, and the two reading loops of `main` and
    `interactive_mode`. Its number parser is the library's `try_parse_double`, which
    it repeats character for character. */
module Hsilop {
  import opened Values
  import opened Outcomes
  import opened Output
  import opened Stacks
  import opened Operators
  import opened Text
  import opened Tables
  import opened Interpreter
  import opened Repl

  /** The C `Stack` struct: an array of `MaxStackSize` slots and the index of the first
      free slot. Slots at and above `top` keep whatever was last stored in them. */
  datatype ArrayStack = ArrayStack(data: seq<Value>, top: int)

  type FixedStack = a: ArrayStack | |a.data| == MaxStackSize && 0 <= a.top <= MaxStackSize
    witness ArrayStack(seq(MaxStackSize, _ => Num(0.0)), 0)

  /** The stack an array stands for: the slots below `top`, bottom first. */
  function Abstract(a: FixedStack): Stack
  {
    a.data[..a.top]
  }

  /** `Stack stack = {.data = {0}, .top = 0}`: every slot zero and nothing on the
      stack. */
  function Initial(): (a: FixedStack)
    ensures Abstract(a) == New()
    ensures forall i :: 0 <= i < MaxStackSize ==> a.data[i] == Num(0.0)
  {
    ArrayStack(seq(MaxStackSize, _ => Num(0.0)), 0)
  }

  /** An outcome on arrays, seen as an outcome on the stacks they stand for. */
  function Lift(r: Outcome<FixedStack>): Outcome<Stack>
  {
    match r
    case Ok(a) => Ok(Abstract(a))
    case Abort(f) => Abort(f)
  }

  /** `stack_empty`. */
  predicate ArrayEmpty(a: FixedStack)
    ensures ArrayEmpty(a) <==> IsEmpty(Abstract(a))
  {
    a.top == 0
  }

  /** `stack_push`: behaves as the sequence stack's push, and writes no slot other than
      the one at the old `top`. */
  function ArrayPush(a: FixedStack, v: Value): (r: Outcome<FixedStack>)
    ensures Lift(r) == Push(Abstract(a), v)
    ensures r.Ok? ==> forall i :: 0 <= i < MaxStackSize && i != a.top ==> r.value.data[i] == a.data[i]
  {
    if a.top >= MaxStackSize then Abort(Overflow)
    else
      var b := ArrayStack(a.data[a.top := v], a.top + 1);
      assert Abstract(b) == Abstract(a) + [v];
      Ok(b)
  }

  /** A successful array pop: the value read and the array left behind. */
  datatype ArrayRemoval = ArrayRemoval(value: Value, rest: FixedStack)

  /** `stack_pop`: behaves as the sequence stack's pop, and leaves every slot as it
      was (only `top` moves). */
  function ArrayPop(a: FixedStack): (r: Outcome<ArrayRemoval>)
    ensures r.Ok? <==> Pop(Abstract(a)).Ok?
    ensures r.Ok? ==> Pop(Abstract(a)).value == Removal(r.value.value, Abstract(r.value.rest))
    ensures r.Ok? ==> r.value.rest.data == a.data
    ensures r.Abort? ==> r.fault == Underflow
  {
    if ArrayEmpty(a) then Abort(Underflow)
    else
      var b := ArrayStack(a.data, a.top - 1);
      assert Abstract(b) == Abstract(a)[..|Abstract(a)| - 1];
      Ok(ArrayRemoval(a.data[a.top - 1], b))
  }

  /** `op_add`, `op_sub`, `op_div` and `op_mul` of the single file, told apart by `op`:
      on the stacks they stand for they do exactly what the library's operators do. */
  function ArrayBinary(op: Op, a: FixedStack): (r: Outcome<FixedStack>)
    ensures Lift(r) == Binary(op, Abstract(a))
  {
    match ArrayPop(a)
    case Abort(f) => Abort(f)
    case Ok(first) =>
      match ArrayPop(first.rest)
      case Abort(f) => Abort(f)
      case Ok(second) => ArrayPush(second.rest, Apply(op, second.value, first.value))
  }

  /** What executing part of a line did to the single file's stack. */
  datatype ArrayStep = ArrayStep(events: seq<Event>, result: Outcome<FixedStack>)

  /** An array step, seen as a step on the stacks the arrays stand for. */
  function LiftStep(r: ArrayStep): Step
  {
    Step(r.events, Lift(r.result))
  }

  /** The single file's `exec`: a number is pushed, a malformed number is reported, and
      anything else must be one of the operator characters (the same length check and
      switch as the library's, `OperatorOf`). There is no builtin lookup. */
  function ExecToken(strtod: Strtod, token: string, a: FixedStack): ArrayStep
  {
    match TryParseDouble(strtod, token)
    case Number(v) => ArrayStep([], ArrayPush(a, Num(v)))
    case Malformed => ArrayStep([InvalidNumber(token)], Ok(a))
    case NotNumeric =>
      match OperatorOf(token)
      case Some(op) => ArrayStep([], ArrayBinary(op, a))
      case None => ArrayStep([InvalidOperator(token)], Ok(a))
  }

  /** A token the library would not hand to a builtin: number-like, or not a builtin
      name. */
  predicate NoBuiltin(strtod: Strtod, token: string)
  {
    strtod(token).consumed != 0 || !IsBuiltinName(token)
  }

  lemma NumberAgrees(strtod: Strtod, token: string, a: FixedStack)
    requires Classify(strtod, token).PushNumber?
    ensures LiftStep(ExecToken(strtod, token, a)) == Exec(strtod, token, Abstract(a))
  {
    ExecNumber(strtod, token, Abstract(a));
  }

  lemma MalformedAgrees(strtod: Strtod, token: string, a: FixedStack)
    requires Classify(strtod, token).ReportInvalidNumber?
    ensures LiftStep(ExecToken(strtod, token, a)) == Exec(strtod, token, Abstract(a))
  {
    ExecMalformed(strtod, token, Abstract(a));
  }

  lemma OperatorAgrees(strtod: Strtod, token: string, a: FixedStack)
    requires Classify(strtod, token).ApplyOperator?
    ensures LiftStep(ExecToken(strtod, token, a)) == Exec(strtod, token, Abstract(a))
  {
    ExecOperator(strtod, token, Abstract(a));
  }

  lemma UnknownAgrees(strtod: Strtod, token: string, a: FixedStack)
    requires Classify(strtod, token).ReportInvalidOperator?
    ensures LiftStep(ExecToken(strtod, token, a)) == Exec(strtod, token, Abstract(a))
  {
    ExecUnknown(strtod, token, Abstract(a));
  }

  /** On every token the library would not hand to a builtin, the single file's `exec`
      does what the library's `exec` does. */
  lemma ExecTokenAgrees(strtod: Strtod, token: string, a: FixedStack)
    requires NoBuiltin(strtod, token)
    ensures LiftStep(ExecToken(strtod, token, a)) == Exec(strtod, token, Abstract(a))
  {
    BuiltinNameIff(token);
    var c := Classify(strtod, token);
    if c.PushNumber? {
      NumberAgrees(strtod, token, a);
    } else if c.ReportInvalidNumber? {
      MalformedAgrees(strtod, token, a);
    } else if c.ApplyOperator? {
      OperatorAgrees(strtod, token, a);
    } else {
      UnknownAgrees(strtod, token, a);
    }
  }

  /** Where the library runs a builtin, the single file reports an invalid operator and
      leaves the stack alone: `pop` and `peek` exist only in the library. */
  lemma BuiltinNamesAreInvalid(strtod: Strtod, token: string, a: FixedStack)
    requires Classify(strtod, token).CallBuiltin?
    ensures ExecToken(strtod, token, a) == ArrayStep([InvalidOperator(token)], Ok(a))
  {
    BuiltinNamesAreWords(token);
  }

  /** Every token, left to right, until one of them ends the process. */
  function RunArray(step: (string, FixedStack) -> ArrayStep, tokens: seq<string>, a: FixedStack): ArrayStep
    decreases |tokens|
  {
    if tokens == [] then ArrayStep([], Ok(a))
    else
      var first := step(tokens[0], a);
      match first.result
      case Abort(_) => first
      case Ok(b) =>
        var rest := RunArray(step, tokens[1..], b);
        ArrayStep(first.events + rest.events, rest.result)
  }

  /** A loop whose array step stands for the stack step `exec` on each of the tokens
      stands for the loop over `exec`. */
  lemma {:induction false} RunArrayRefines(step: (string, FixedStack) -> ArrayStep, exec: (string, Stack) -> Step,
                                           tokens: seq<string>, a: FixedStack)
    requires forall i, b: FixedStack :: 0 <= i < |tokens| ==> LiftStep(step(tokens[i], b)) == exec(tokens[i], Abstract(b))
    ensures LiftStep(RunArray(step, tokens, a)) == RunTokens(exec, tokens, Abstract(a))
    decreases |tokens|
  {
    if tokens != [] {
      var first := step(tokens[0], a);
      assert LiftStep(first) == exec(tokens[0], Abstract(a));
      if first.result.Ok? {
        RunArrayRefines(step, exec, tokens[1..], first.result.value);
      }
    }
  }

  /** The single file's `exec` with the parser fixed. */
  function ExecTokenWith(strtod: Strtod): (string, FixedStack) -> ArrayStep
  {
    (token: string, a: FixedStack) => ExecToken(strtod, token, a)
  }

  /** The token loop of `tokenize_exec`. */
  function ExecAll(strtod: Strtod, tokens: seq<string>, a: FixedStack): ArrayStep
  {
    RunArray(ExecTokenWith(strtod), tokens, a)
  }

  /** On a token list free of builtin names, the single file's token loop does what the
      library's `exec_line` loop does. */
  lemma ExecAllAgrees(strtod: Strtod, tokens: seq<string>, a: FixedStack)
    requires forall t :: t in tokens ==> NoBuiltin(strtod, t)
    ensures LiftStep(ExecAll(strtod, tokens, a)) == ExecTokens(strtod, tokens, Abstract(a))
  {
    forall i, b: FixedStack | 0 <= i < |tokens|
      ensures LiftStep(ExecTokenWith(strtod)(tokens[i], b)) == ExecWith(strtod)(tokens[i], Abstract(b))
    {
      assert tokens[i] in tokens;
      ExecTokenAgrees(strtod, tokens[i], b);
    }
    RunArrayRefines(ExecTokenWith(strtod), ExecWith(strtod), tokens, a);
  }

  /** The report `interpret` would make with a peek, with the single file's wording for
      an empty stack. */
  function LineReport(s: Stack): Event
  {
    if IsEmpty(s) then NoResult else Peek(s)
  }

  /** The report at the end of `tokenize_exec`, read off the array: "No result" when
      `top` is 0, otherwise the slot below `top`. It is the report for the stack the
      array stands for. */
  function Report(a: FixedStack): (e: Event)
    ensures e == LineReport(Abstract(a))
  {
    if ArrayEmpty(a) then NoResult else Top(a.data[a.top - 1])
  }

  /** `tokenize_exec`: the tokens of the line, then the report of the new top. */
  function TokenizeExec(strtod: Strtod, line: string, a: FixedStack): ArrayStep
  {
    var run := ExecAll(strtod, Tokenize(line), a);
    match run.result
    case Abort(_) => run
    case Ok(b) => ArrayStep(run.events + [Report(b)], Ok(b))
  }

  /** How the single file's handling of a line relates to the library's `exec_line` of
      it: the same fault, or the same stack and output followed by one report. */
  predicate ReportsLine(r: ArrayStep, step: Step)
  {
    match step.result
    case Abort(f) => r.result == Abort(f) && r.events == step.events
    case Ok(s) => r.result.Ok? && Abstract(r.result.value) == s && r.events == step.events + [LineReport(s)]
  }

  /** A line none of whose tokens the library would hand to a builtin. */
  predicate NoBuiltinOn(strtod: Strtod, line: string)
  {
    forall t :: t in Tokenize(line) ==> NoBuiltin(strtod, t)
  }

  /** A line free of builtin names: the single file's `tokenize_exec` does what the
      library's `exec_line` does, then reports the top exactly once. */
  lemma TokenizeExecAgrees(strtod: Strtod, line: string, a: FixedStack)
    requires NoBuiltinOn(strtod, line)
    ensures ReportsLine(TokenizeExec(strtod, line, a), ExecLine(strtod, line, Abstract(a)))
  {
    ExecAllAgrees(strtod, Tokenize(line), a);
  }

  /** `tokenize_exec` with the parser fixed, as the line handler of the reading
      loops. */
  function TokenizeExecWith(strtod: Strtod): (string, FixedStack) -> ArrayStep
  {
    (line: string, a: FixedStack) => TokenizeExec(strtod, line, a)
  }

  /** What one `fgets` call delivers: the characters read, and the input left. */
  datatype Chunk = Chunk(text: string, rest: string)

  /** How many characters `fgets` takes when it may take at most `limit`: up to and
      including the first newline, or to the end of the input. */
  function ChunkLength(input: string, limit: nat): (k: nat)
    ensures k <= limit && k <= |input|
    ensures input != [] && limit > 0 ==> k > 0
    ensures forall j :: 0 <= j < k - 1 ==> input[j] != '\n'
    ensures k == limit || k == |input| || (0 < k && input[k - 1] == '\n')
    decreases limit
  {
    if input == [] || limit == 0 then 0
    else if input[0] == '\n' then 1
    else 1 + ChunkLength(input[1..], limit - 1)
  }

  /** `fgets(buf, n, stdin)`: at most `n - 1` characters, stopping after a newline; no
      chunk (a null result) only at the end of the input. Both calls in the source pass
      a size of at least 2, so every call makes progress. */
  function Fgets(input: string, n: nat): (r: Option<Chunk>)
    requires n >= 2
    ensures r.None? <==> input == []
    ensures r.Some? ==> r.value.text != [] && r.value.text + r.value.rest == input && |r.value.text| < n
    ensures r.Some? ==> forall j :: 0 <= j < |r.value.text| - 1 ==> r.value.text[j] != '\n'
    ensures r.Some? ==> |r.value.text| == n - 1 || r.value.rest == [] || r.value.text[|r.value.text| - 1] == '\n'
  {
    if input == [] then None
    else
      var k := ChunkLength(input, n - 1);
      assert input[..k] + input[k..] == input;
      Some(Chunk(input[..k], input[k..]))
  }

  /** How a run of the single file ends: it returns normally with its stack, or dies on
      a stack fault. */
  datatype Ending = Finished(stack: FixedStack, trace: seq<Event>) | Crashed(trace: seq<Event>, fault: Fault)

  /** A reading loop of the single file, with a buffer of `n` bytes and a line handler:
      read a chunk, cut it at the newline, in interactive mode stop at a line that is
      exactly `quit`, otherwise handle the line; the stack carries over to the next
      line and a fault ends the process. */
  function ReadLoop(handle: (string, FixedStack) -> ArrayStep, n: nat, interactive: bool,
                    input: string, a: FixedStack, trace: seq<Event>): Ending
    requires n >= 2
    decreases |input|
  {
    match Fgets(input, n)
    case None => Finished(a, trace)
    case Some(chunk) =>
      var line := CutAtNewline(chunk.text);
      if interactive && line == "quit" then Finished(a, trace)
      else
        var r := handle(line, a);
        match r.result
        case Abort(f) => Crashed(trace + r.events, f)
        case Ok(b) => ReadLoop(handle, n, interactive, chunk.rest, b, trace + r.events)
  }

  /** `char line[256]`: the buffer `main` reads into. */
  const LineBufferSize: nat := 256

  /** `sizeof(char *)` on a 64-bit target: what `sizeof(line)` is inside
      `interactive_mode`, where `line` is a pointer parameter. */
  const PointerSize: nat := 8

  const SingleFileBanner: string := "RPN Calculator (type 'quit' to exit)"

  /** `main` as written: `interactive_mode` reads with `sizeof(line)` of a pointer, the
      batch loop with the size of the array. */
  function ProgramAsWritten(strtod: Strtod, input: string, interactive: bool): Ending
  {
    if interactive then
      ReadLoop(TokenizeExecWith(strtod), PointerSize, true, input, Initial(), [Banner(SingleFileBanner)])
    else
      ReadLoop(TokenizeExecWith(strtod), LineBufferSize, false, input, Initial(), [])
  }

  /** `main` with both loops reading into the whole 256-byte buffer. */
  function Program(strtod: Strtod, input: string, interactive: bool): Ending
  {
    ReadLoop(TokenizeExecWith(strtod), LineBufferSize, interactive, input, Initial(),
             if interactive then [Banner(SingleFileBanner)] else [])
  }

  /** In batch mode the program as written already reads into the whole buffer: only
      the interactive loop is affected by the pointer-sized read. */
  lemma BatchAsWrittenIsProgram(strtod: Strtod, input: string)
    ensures ProgramAsWritten(strtod, input, false) == Program(strtod, input, false)
  {
  }

  /** A line ended by a newline, shorter than the limit, is one `fgets` chunk. */
  lemma {:induction false} ChunkOfLine(line: string, rest: string, limit: nat)
    requires '\n' !in line && |line| < limit
    ensures ChunkLength(line + "\n" + rest, limit) == |line| + 1
    decreases |line|
  {
    var input := line + "\n" + rest;
    if line == [] {
      assert input[0] == '\n';
    } else {
      assert input[0] == line[0] && input[1..] == line[1..] + "\n" + rest;
      ChunkOfLine(line[1..], rest, limit - 1);
    }
  }

  /** With room for a line and its newline, `fgets` delivers exactly that line. */
  lemma FgetsReadsLine(line: string, rest: string, n: nat)
    requires n >= 2 && '\n' !in line && |line| + 1 < n
    ensures Fgets(line + "\n" + rest, n) == Some(Chunk(line + "\n", rest))
  {
    var input := line + "\n" + rest;
    ChunkOfLine(line, rest, n - 1);
    assert input[..|line| + 1] == line + "\n" && input[|line| + 1..] == rest;
  }

  /** Cutting a line's chunk at its newline gives back the line. */
  lemma {:induction false} CutLine(line: string)
    requires '\n' !in line
    ensures CutAtNewline(line + "\n") == line
    decreases |line|
  {
    if line != [] {
      assert (line + "\n")[0] == line[0] && (line + "\n")[1..] == line[1..] + "\n";
      CutLine(line[1..]);
      assert [line[0]] + line[1..] == line;
    }
  }

  /** The input text of a list of lines, each ended by a newline. */
  function Unlines(lines: seq<string>): string
  {
    if lines == [] then [] else lines[0] + "\n" + Unlines(lines[1..])
  }

  /** Every line is free of newlines and fits, with its newline, in `n - 1` bytes. */
  predicate Fit(lines: seq<string>, n: nat)
  {
    forall i :: 0 <= i < |lines| ==> '\n' !in lines[i] && |lines[i]| + 1 < n
  }

  /** Reference definition of a reading loop over whole lines: in interactive mode stop
      at `quit`, otherwise handle the line, carry the stack, and end on a fault. */
  function FoldLines(handle: (string, FixedStack) -> ArrayStep, interactive: bool,
                     lines: seq<string>, a: FixedStack, trace: seq<Event>): Ending
    decreases |lines|
  {
    if lines == [] then Finished(a, trace)
    else if interactive && lines[0] == "quit" then Finished(a, trace)
    else
      var r := handle(lines[0], a);
      match r.result
      case Abort(f) => Crashed(trace + r.events, f)
      case Ok(b) => FoldLines(handle, interactive, lines[1..], b, trace + r.events)
  }

  /** The first line of a non-empty input is read whole and cut back to itself. */
  lemma ReadFirstLine(lines: seq<string>, n: nat)
    requires lines != [] && n >= 2 && Fit(lines, n)
    ensures Fgets(Unlines(lines), n) == Some(Chunk(lines[0] + "\n", Unlines(lines[1..])))
    ensures CutAtNewline(lines[0] + "\n") == lines[0]
  {
    FgetsReadsLine(lines[0], Unlines(lines[1..]), n);
    CutLine(lines[0]);
  }

  /** When every line fits the buffer, the `fgets` loop is the loop over the lines. */
  lemma {:induction false} ReadLoopIsFold(handle: (string, FixedStack) -> ArrayStep, n: nat, interactive: bool,
                                          lines: seq<string>, a: FixedStack, trace: seq<Event>)
    requires n >= 2 && Fit(lines, n)
    ensures ReadLoop(handle, n, interactive, Unlines(lines), a, trace) == FoldLines(handle, interactive, lines, a, trace)
    decreases |lines|
  {
    if lines != [] {
      ReadFirstLine(lines, n);
      var r := handle(lines[0], a);
      if r.result.Ok? && !(interactive && lines[0] == "quit") {
        ReadLoopIsFold(handle, n, interactive, lines[1..], r.result.value, trace + r.events);
      }
    }
  }

  /** How the end of a single-file run relates to a token stream on stacks: the same
      fault, or a finished run whose array stands for the final stack. */
  predicate StackAgrees(e: Ending, all: Step)
  {
    match all.result
    case Ok(s) => e.Finished? && Abstract(e.stack) == s
    case Abort(f) => e.Crashed? && e.fault == f
  }

  /** A batch loop whose line handler has, on every line, the effect on the stack of
      running that line's tokens has the effect of one token stream over all lines: the
      stack carries from line to line. */
  lemma {:induction false} FoldIsOneTokenStream(handle: (string, FixedStack) -> ArrayStep,
                                                exec: (string, Stack) -> Step,
                                                lines: seq<string>, a: FixedStack, trace: seq<Event>)
    requires forall i, b: FixedStack :: 0 <= i < |lines| ==>
               Lift(handle(lines[i], b).result) == RunTokens(exec, Tokenize(lines[i]), Abstract(b)).result
    ensures StackAgrees(FoldLines(handle, false, lines, a, trace), RunTokens(exec, AllTokens(lines), Abstract(a)))
    decreases |lines|
  {
    if lines != [] {
      RunTokensAppend(exec, Tokenize(lines[0]), AllTokens(lines[1..]), Abstract(a));
      var r := handle(lines[0], a);
      assert Lift(r.result) == RunTokens(exec, Tokenize(lines[0]), Abstract(a)).result;
      if r.result.Ok? {
        FoldIsOneTokenStream(handle, exec, lines[1..], r.result.value, trace + r.events);
      }
    }
  }

  /** On a line free of builtin names, the stack effect of `tokenize_exec` is that of
      the library's token loop over the line. */
  lemma LineStackAgrees(strtod: Strtod, line: string, b: FixedStack)
    requires NoBuiltinOn(strtod, line)
    ensures Lift(TokenizeExecWith(strtod)(line, b).result) == RunTokens(ExecWith(strtod), Tokenize(line), Abstract(b)).result
  {
    TokenizeExecAgrees(strtod, line, b);
  }

  lemma LinesStackAgree(strtod: Strtod, lines: seq<string>)
    requires forall i :: 0 <= i < |lines| ==> NoBuiltinOn(strtod, lines[i])
    ensures forall i, b: FixedStack :: 0 <= i < |lines| ==>
              Lift(TokenizeExecWith(strtod)(lines[i], b).result) == RunTokens(ExecWith(strtod), Tokenize(lines[i]), Abstract(b)).result
  {
    forall i, b: FixedStack | 0 <= i < |lines|
      ensures Lift(TokenizeExecWith(strtod)(lines[i], b).result) == RunTokens(ExecWith(strtod), Tokenize(lines[i]), Abstract(b)).result
    {
      LineStackAgrees(strtod, lines[i], b);
    }
  }

  /** A batch run from the initial array, over lines that fit the buffer, with a line
      handler that has the stack effect of running the line's tokens. */
  lemma BatchFoldAgrees(handle: (string, FixedStack) -> ArrayStep, exec: (string, Stack) -> Step,
                        lines: seq<string>)
    requires Fit(lines, LineBufferSize)
    requires forall i, b: FixedStack :: 0 <= i < |lines| ==>
               Lift(handle(lines[i], b).result) == RunTokens(exec, Tokenize(lines[i]), Abstract(b)).result
    ensures StackAgrees(ReadLoop(handle, LineBufferSize, false, Unlines(lines), Initial(), []),
                        RunTokens(exec, AllTokens(lines), New()))
  {
    ReadLoopIsFold(handle, LineBufferSize, false, lines, Initial(), []);
    FoldIsOneTokenStream(handle, exec, lines, Initial(), []);
  }

  /** The single file in batch mode, on lines that fit its buffer and name no builtin,
      ends as one library token stream over all the lines does: the same fault, or the
      same final stack. */
  lemma BatchIsOneTokenStream(strtod: Strtod, lines: seq<string>)
    requires Fit(lines, LineBufferSize)
    requires forall i :: 0 <= i < |lines| ==> NoBuiltinOn(strtod, lines[i])
    ensures StackAgrees(ProgramAsWritten(strtod, Unlines(lines), false), ExecTokens(strtod, AllTokens(lines), New()))
  {
    BatchAsWrittenIsProgram(strtod, Unlines(lines));
    LinesStackAgree(strtod, lines);
    BatchFoldAgrees(TokenizeExecWith(strtod), ExecWith(strtod), lines);
  }

  /** How the end of a single-file run compares with the end of a library run: one
      survives exactly when the other does, with the same final stack, or both die of
      the same fault. */
  predicate SameEnd(single: Ending, library: Run)
  {
    && (single.Finished? <==> library.Exited?)
    && (single.Finished? ==> Abstract(single.stack) == library.stack)
    && (single.Crashed? ==> library.Died? && single.fault == library.fault)
  }

  /** The two programs in batch mode, on the same lines (fitting the single file's
      buffer and naming no builtin), both end as one token stream over all the lines
      does, so they end the same way (`SameStreamSameEnd`). */
  lemma BatchAgreesWithLibrary(strtod: Strtod, lines: seq<string>)
    requires Fit(lines, LineBufferSize)
    requires forall i :: 0 <= i < |lines| ==> NoBuiltinOn(strtod, lines[i])
    ensures StackAgrees(ProgramAsWritten(strtod, Unlines(lines), false), ExecTokens(strtod, AllTokens(lines), New()))
    ensures BatchOutput(Interpret(strtod, lines, false), ExecTokens(strtod, AllTokens(lines), New()), |lines|)
  {
    BatchIsOneTokenStream(strtod, lines);
    BatchSession(strtod, lines);
  }

  /** Two runs that both end as the same token stream does end the same way. */
  lemma SameStreamSameEnd(single: Ending, library: Run, all: Step, n: nat)
    requires StackAgrees(single, all) && BatchOutput(library, all, n)
    ensures SameEnd(single, library)
  {
  }

  /** Interactive mode: a `quit` line is not executed, nothing after it is read, and
      the stack is left as it was. */
  lemma QuitEndsInteractive(handle: (string, FixedStack) -> ArrayStep, n: nat, rest: string,
                            a: FixedStack, trace: seq<Event>)
    requires n > |"quit"| + 1
    ensures ReadLoop(handle, n, true, "quit\n" + rest, a, trace) == Finished(a, trace)
  {
    FgetsReadsLine("quit", rest, n);
    CutLine("quit");
    assert "quit" + "\n" + rest == "quit\n" + rest;
  }

  /** A newline-free run of at least `limit` characters: `fgets` takes exactly `limit`
      of them. */
  lemma {:induction false} ChunkOfLongRun(input: string, limit: nat)
    requires limit <= |input| && forall j :: 0 <= j < limit ==> input[j] != '\n'
    ensures ChunkLength(input, limit) == limit
    decreases limit
  {
    if limit > 0 {
      assert input[0] != '\n';
      assert forall j :: 0 <= j < limit - 1 ==> input[1..][j] == input[j + 1];
      ChunkOfLongRun(input[1..], limit - 1);
    }
  }

  /** A line with no room for its newline: `fgets` stops after `n - 1` characters, in
      the middle of the line. */
  lemma FgetsSplitsLongLine(line: string, rest: string, n: nat)
    requires n >= 2 && '\n' !in line && |line| >= n - 1
    ensures Fgets(line + rest, n) == Some(Chunk(line[..n - 1], line[n - 1..] + rest))
  {
    var input := line + rest;
    assert forall j :: 0 <= j < n - 1 ==> input[j] == line[j];
    ChunkOfLongRun(input, n - 1);
    assert input[..n - 1] == line[..n - 1] && input[n - 1..] == line[n - 1..] + rest;
  }

  /** Text without a newline is left whole by the cut. */
  lemma CutWithoutNewline(text: string)
    requires '\n' !in text
    ensures CutAtNewline(text) == text
  {
  }

  /** The input text of a first line followed by more lines. */
  lemma UnlinesCons(line: string, more: seq<string>)
    ensures Unlines([line] + more) == line + "\n" + Unlines(more)
  {
    assert ([line] + more)[0] == line && ([line] + more)[1..] == more;
  }

  /** The first read of such a line stops after `n - 1` characters, which are a line
      of their own, and leaves the remainder as the next line of the input. */
  lemma SplitInput(line: string, more: seq<string>, n: nat)
    requires n >= 2 && '\n' !in line && n - 1 <= |line| && |line| - (n - 1) + 1 < n && Fit(more, n)
    ensures Fgets(Unlines([line] + more), n) == Some(Chunk(line[..n - 1], Unlines([line[n - 1..]] + more)))
    ensures CutAtNewline(line[..n - 1]) == line[..n - 1]
    ensures Fit([line[n - 1..]] + more, n)
  {
    var first, second := line[..n - 1], line[n - 1..];
    var tail := [second] + more;
    UnlinesCons(line, more);
    UnlinesCons(second, more);
    assert line + "\n" + Unlines(more) == line + ("\n" + Unlines(more));
    assert second + ("\n" + Unlines(more)) == second + "\n" + Unlines(more);
    FgetsSplitsLongLine(line, "\n" + Unlines(more), n);
    CutWithoutNewline(first);
    assert Fit(tail, n) by {
      assert forall j :: 1 <= j < |tail| ==> tail[j] == more[j - 1];
    }
  }

  /** With an `n`-byte buffer, a line of `n - 1` up to `2n - 4` characters is read in two
      pieces, and the loop handles each piece as a line of its own. */
  lemma {:induction false} SmallBufferSplitsLine(handle: (string, FixedStack) -> ArrayStep, n: nat,
                                                 interactive: bool, line: string, more: seq<string>,
                                                 a: FixedStack, trace: seq<Event>)
    requires n >= 2 && '\n' !in line && n - 1 <= |line| && |line| - (n - 1) + 1 < n && Fit(more, n)
    ensures ReadLoop(handle, n, interactive, Unlines([line] + more), a, trace) ==
              FoldLines(handle, interactive, [line[..n - 1], line[n - 1..]] + more, a, trace)
  {
    var first, second := line[..n - 1], line[n - 1..];
    var tail := [second] + more;
    SplitInput(line, more, n);
    assert ([first, second] + more)[0] == first && ([first, second] + more)[1..] == tail;
    var r := handle(first, a);
    if r.result.Ok? && !(interactive && first == "quit") {
      ReadLoopIsFold(handle, n, interactive, tail, r.result.value, trace + r.events);
    }
  }

  /** `main` as written, in interactive mode: a line of 7 to 12 characters is handled
      as two lines, its first 7 characters and the remainder. */
  lemma AsWrittenSplitsInteractiveLine(strtod: Strtod, line: string, more: seq<string>)
    requires '\n' !in line && PointerSize - 1 <= |line| < 2 * PointerSize - 3 && Fit(more, PointerSize)
    ensures ProgramAsWritten(strtod, Unlines([line] + more), true) ==
              FoldLines(TokenizeExecWith(strtod), true, [line[..PointerSize - 1], line[PointerSize - 1..]] + more,
                        Initial(), [Banner(SingleFileBanner)])
  {
    SmallBufferSplitsLine(TokenizeExecWith(strtod), PointerSize, true, line, more,
                          Initial(), [Banner(SingleFileBanner)]);
  }

  /** `main` with the whole buffer, in either mode: every line that fits is handled
      whole, in order. */
  lemma ProgramReadsWholeLines(strtod: Strtod, lines: seq<string>, interactive: bool)
    requires Fit(lines, LineBufferSize)
    ensures Program(strtod, Unlines(lines), interactive) ==
              FoldLines(TokenizeExecWith(strtod), interactive, lines, Initial(),
                        if interactive then [Banner(SingleFileBanner)] else [])
  {
    ReadLoopIsFold(TokenizeExecWith(strtod), LineBufferSize, interactive, lines, Initial(),
                   if interactive then [Banner(SingleFileBanner)] else []);
  }

  /** "100 200 +" typed in interactive mode, as written: the loop handles "100 200"
      and then " +" as two lines. */
  lemma LongLineAsWritten(strtod: Strtod)
    ensures ProgramAsWritten(strtod, "100 200 +\n", true) ==
              FoldLines(TokenizeExecWith(strtod), true, ["100 200", " +"], Initial(), [Banner(SingleFileBanner)])
  {
    var line := "100 200 +";
    LongLineInput();
    AsWrittenSplitsInteractiveLine(strtod, line, []);
    assert line[..PointerSize - 1] == "100 200" && line[PointerSize - 1..] == " +";
    assert [line[..PointerSize - 1], line[PointerSize - 1..]] + [] == ["100 200", " +"];
  }

  /** The same input with the whole buffer: the line is handled once. */
  lemma LongLineWhole(strtod: Strtod)
    ensures Program(strtod, "100 200 +\n", true) ==
              FoldLines(TokenizeExecWith(strtod), true, ["100 200 +"], Initial(), [Banner(SingleFileBanner)])
  {
    LongLineInput();
    assert Fit(["100 200 +"], LineBufferSize) by {
      assert |"100 200 +"| + 1 < LineBufferSize;
    }
    ProgramReadsWholeLines(strtod, ["100 200 +"], true);
  }

  lemma LongLineInput()
    ensures Unlines(["100 200 +"]) == "100 200 +\n" && ["100 200 +"] + [] == ["100 200 +"]
  {
    UnlinesCons("100 200 +", []);
    assert "100 200 +" + "\n" + Unlines([]) == "100 200 +\n";
  }
}
