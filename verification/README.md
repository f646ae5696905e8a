# hsilop: a Dafny model of the RPN calculator core

hsilop is a reverse-Polish-notation calculator written in C. Numbers typed on a
line are pushed onto a bounded stack of 100 values; `+`, `-`, `*` and `/` pop the
top two values and push the result; the builtins `peek` and `pop` show the top
value. In interactive mode, lines that start with `:` are REPL commands (`:quit`,
`:help`). A second, self-contained program, `hsilop.c`, implements the same
evaluator without builtins. It reads with `fgets`, and in interactive mode it stops
at a bare `quit` line.

This project models both programs as pure functions and proves properties about
them:

- `values.dfy`, `outcomes.dfy`, `output.dfy` hold the shared vocabulary.
  - A value is a literal or a symbolic application of an operator, so operand
    order is visible in every result.
  - A fatal `exit(EXIT_FAILURE)` is an `Abort` outcome, after which nothing runs.
  - Everything the program prints is an abstract `Event` in one ordered trace.
- `stacks.dfy` and `operators.dfy` model `lib/stack.c` and `lib/operators.c`.
- `text.dfy` models `strtok` on a single space, `strncmp`, `isspace` and the
  newline cut.
- `tables.dfy` models the builtin and command tables, exact-name lookup, the
  completion generators with their static state, the completion namespace
  choice and the help listing.
- `interpreter.dfy` models `try_parse_double`, `exec`, the builtins and
  `exec_line` from `lib/interpret.c`. `strtod` is an oracle: an arbitrary
  function from the token to the number of characters consumed and the value
  read.
- `repl.dfy` models `exec_interactive_cmd`, the commands and the `interpret`
  loop. The loop is a fold over the lines the line reader would deliver, and its
  result is an event trace.
- `hsilop.dfy` models `hsilop.c`. Its fixed array stack refines the library
  stack. Its `exec` is proved to agree with the library's on every token that is
  not a builtin name. Its two `fgets` reading loops are shown to be folds over the
  input lines when every line fits the buffer.
- `scenarios.dfy` and `split_line.dfy` hold worked runs, stated for every
  `strtod` that reads the tokens involved. They cover operand order, a malformed
  operand, and the line splitting of the single file's interactive loop.

Two behaviours of the code are easy to misread:

- One might expect `3 4x +` to skip the bad token and leave `3` on the stack. In
  the code the bad token is reported and skipped, `+` then finds one operand, and
  the process exits on a stack underflow (`Scenarios.MalformedOperandUnderflows`,
  `Scenarios.MalformedOperandEndsBatch`).
- The library's commands are `:quit` and `:help`. The single file instead stops,
  in interactive mode only, at a line that is exactly `quit`; in batch mode such a
  line is an ordinary token and is reported as an invalid operator. Both are
  modelled, each in its own program.

## Model

| member | source | states |
|---|---|---|
| Stacks.New | lib/stack.c:34-38 | a new stack holds no values |
| Stacks.IsEmpty | lib/stack.c:8 | a stack is empty exactly when it holds no values |
| Stacks.Push | lib/stack.c:10-16 | below capacity, the value lands on top, the size grows by one and every value underneath is unchanged; at capacity 100 the push is an overflow abort |
| Stacks.Pop | lib/stack.c:18-24 | a non-empty stack gives back its top and the stack below it; an empty stack is an underflow abort |
| Stacks.Peek | lib/stack.c:26-32 | shows the top of a non-empty stack and the empty indicator otherwise; it cannot change the stack |
| Stacks.PushThenPop | lib/stack.c:10-24 | a push followed by a pop returns the pushed value and the original stack |
| Stacks.PopThenPush | lib/stack.c:10-24 | pushing back a popped value restores the stack, because the pop made room |
| Stacks.RunCallsSize | lib/stack.c:10-24 | over any fault-free run of pushes and pops, each push adds one and each pop removes one, so the size stays within 0..100 |
| Operators.Binary | lib/operators.c:3-25 | with two or more values, the top two are replaced by `x OP y` with the top as the right operand and everything below unchanged; with fewer, the result is an underflow abort; it never overflows |
| Operators.OperandOrder | lib/operators.c:9-13 | on `below + [x, y]` the result is `below + [x OP y]` |
| Text.Tokenize | lib/interpret.c:284-290 | every token is non-empty and contains no space |
| Text.TokensKeepText | lib/interpret.c:285-288 | the tokens, concatenated, are the line with its spaces deleted: no character is lost, duplicated or reordered |
| Text.TokenizeSplit | lib/interpret.c:285-288 | a space splits the token stream, so what lies on each side tokenizes independently |
| Text.TokenizeWord | lib/interpret.c:285-288 | a single space-free word is exactly one token |
| Text.TokenizeJoin | lib/interpret.c:285-288 | space-free tokens joined with single spaces split back into the same tokens |
| Text.StrncmpIsPrefix | lib/interpret.c:83 | comparing a name with the typed text over the text's length succeeds exactly when the text is a prefix of the name |
| Text.CutAtNewline | hsilop.c:139 | the result is the part of the line before its first newline: a prefix, free of newlines, stopping only at a newline |
| Tables.FirstIndex | lib/interpret.c:55-58 | the index found holds the name, and no earlier index does; nothing is found exactly when the name is absent |
| Tables.Find | lib/interpret.c:52-61 | a row is found exactly when some row has the name, and the row found has that name |
| Tables.FindIsFirst | lib/interpret.c:144-153 | the row found is the first row with that name |
| Tables.FindBuiltin | lib/interpret.c:36-41 | `peek` selects the peek builtin and `pop` the pop builtin |
| Tables.FindPeek | lib/interpret.c:37-38 | looking up `peek` gives its own row |
| Tables.FindPop | lib/interpret.c:39 | looking up `pop` gives its own row |
| Tables.FindCommand | lib/interpret.c:131-133 | exactly `:quit` and `:help` are commands, and each selects its own handler |
| Tables.BuiltinNameIff | lib/interpret.c:36-41 | the builtin names are exactly `peek` and `pop` |
| Tables.BuiltinNamesAreWords | lib/interpret.c:36-41 | no builtin name is a single character |
| Tables.Matching | lib/interpret.c:163-186 | reference definition of completion: the result holds exactly the names that start with the text, and no more of them than the table |
| Tables.NextMatch | lib/interpret.c:176-185 | one generator call returns the next name, from the saved position on, that agrees with the text over the saved length; it skips only names that do not, and returns nothing only when none is left |
| Tables.DrainMatches | lib/interpret.c:80-88 | calling the generator again until it returns nothing yields the matching names from the saved position on, in order |
| Tables.CompletionsAreMatching | lib/interpret.c:71-89 | the restarted generator protocol yields, in table order, exactly the names that have the typed text as a prefix |
| Tables.CompletionCandidates | lib/interpret.c:292-308 | at the start of the line, with a leading `:`, the candidates are exactly the command names with that prefix; otherwise they are exactly the builtin names with that prefix |
| Tables.HelpEntries | lib/interpret.c:113-129 | the listing is every command row, then the number row, then every builtin row, each with its description, in table order |
| Tables.Rows | lib/interpret.c:118-126 | one row per table entry, in order, each pairing the name with its description |
| Interpreter.TryParseDouble | lib/interpret.c:188-200 | nothing consumed means not number-like; a count other than zero and the token's length means malformed; consuming the whole non-empty token gives a number with the value read |
| Interpreter.OperatorOf | lib/interpret.c:264-279 | a token is an operator exactly when it is one character among `+ - / *`, and each character selects its own operator |
| Interpreter.Classify | lib/interpret.c:239-282 | the five outcomes of `exec` in priority order (number, malformed number, builtin, operator, invalid operator), each stated as a condition on the token in both directions |
| Interpreter.RunBuiltin | lib/interpret.c:25-34 | `peek` shows the top and keeps the stack; `pop` removes exactly the top and shows it, or aborts on an empty stack |
| Interpreter.ExecNumber | lib/interpret.c:242-246 | a fully parsed token pushes exactly its value and prints nothing |
| Interpreter.ExecMalformed | lib/interpret.c:247-251 | a partially parsed token reports "Invalid number" and leaves the stack unchanged |
| Interpreter.ExecBuiltin | lib/interpret.c:258-262 | a non-number token that names a builtin runs that builtin |
| Interpreter.OperatorNamesNoBuiltin | lib/interpret.c:258-265 | an operator character never names a builtin, so the builtin lookup cannot hide an operator |
| Interpreter.ExecOperator | lib/interpret.c:264-279 | an operator character applies its operator to the top two values and prints nothing |
| Interpreter.ExecUnknown | lib/interpret.c:281 | any other token reports "Invalid operator" and leaves the stack unchanged |
| Interpreter.ExecLineIsTokenRun | lib/interpret.c:284-290 | running a line is the token loop over the tokens `strtok` finds |
| Interpreter.RunTokensAppend | lib/interpret.c:286-289 | running two token lists one after the other equals running their concatenation; an abort in the first skips the second |
| Interpreter.RunOneToken | lib/interpret.c:286-289 | a one-token list runs just that token |
| Interpreter.QuietFirstToken | lib/interpret.c:286-289 | a first token that prints nothing and survives hands its stack to the rest |
| Interpreter.ExecTokensCons | lib/interpret.c:286-289 | the first token runs first, and the rest run only if it survives |
| Interpreter.InvalidTokenReported | lib/interpret.c:247-251 | an invalid token prints its one complaint and changes nothing |
| Interpreter.InvalidTokenIsSkipped | lib/interpret.c:284-290 | an invalid token does not stop the tokens after it: the rest run as if it were absent, after its complaint |
| Interpreter.StayingTokens | lib/interpret.c:286-289 | a loop whose tokens each keep the stack and print one event runs to the end with one event per token |
| Interpreter.InvalidTokensLeaveStack | lib/interpret.c:284-290 | only an abort stops a line early: a list of invalid tokens runs to the end, prints one complaint per token and leaves the stack as it was |
| Repl.SplitCommand | lib/interpret.c:210-233 | the command word is the first run of non-whitespace after leading whitespace; the argument starts at the first non-whitespace after it |
| Repl.RunCommand | lib/interpret.c:108-129 | `:quit` raises the termination flag and prints nothing; `:help` prints the help listing and keeps the flag; both return 0 |
| Repl.ExecInteractiveCmd | lib/interpret.c:204-237 | an unknown word reports "Command not found", returns -1 and changes nothing; the flag ends up raised exactly when it was already raised or the word is `:quit`; `:help` prints the listing |
| Repl.AutoPrint | lib/interpret.c:329-334 | the echo ends with one peek of the new top, and starts with "=> " exactly when the stack is non-empty; an empty stack gets the empty indicator alone |
| Repl.CommandLineKeepsStack | lib/interpret.c:322-326 | an interactive `:` line runs the command and never touches the stack |
| Repl.CalculatorLineEchoes | lib/interpret.c:326-335 | an interactive calculator line runs its tokens and is followed by the echo of the new top, unless a fault ends the run |
| Repl.StopAfter | lib/interpret.c:321 | once a line raises the flag, the loop stops before reading another line |
| Repl.QuitLineStep | lib/interpret.c:322-325 | a `:quit` line in interactive mode raises the flag, prints nothing and keeps the stack |
| Repl.QuitCommand | lib/interpret.c:108-111 | the `:quit` word raises the flag and prints nothing |
| Repl.QuitLineEndsSession | lib/interpret.c:321-325 | after `:quit`, no further line is read, whatever the following lines are |
| Repl.QuitStopsReading | lib/interpret.c:321 | once a prefix of the input has quit, lines appended after it cannot change the run |
| Repl.SessionIsOneTokenStream | lib/interpret.c:321-339 | a loop that only runs each line's tokens behaves as one token stream over all lines: it reads every line, or dies of the stream's fault after the stream's output |
| Repl.BatchLineStep | lib/interpret.c:322-327 | in batch mode, `:` lines go through the calculator like any other line, and nothing is echoed |
| Repl.BatchLineSteps | lib/interpret.c:326-327 | every batch line step runs the line's tokens and nothing else |
| Repl.BatchRun | lib/interpret.c:341-344 | a batch run is one token stream over all lines followed, if it survives, by exactly one peek of the final stack |
| Repl.BatchSession | lib/interpret.c:315-345 | `interpret` in batch mode prints the output of one token stream over all input lines, then exactly one final peek; a fault ends it with no peek |
| Hsilop.Initial | hsilop.c:151 | the initial array stands for the empty stack and every slot holds zero |
| Hsilop.ArrayEmpty | hsilop.c:20 | the array is empty exactly when the stack it stands for is |
| Hsilop.ArrayPush | hsilop.c:22-28 | the array push behaves as the library stack's push and writes no slot other than the one at the old top |
| Hsilop.ArrayPop | hsilop.c:30-36 | the array pop behaves as the library stack's pop and leaves every slot as it was |
| Hsilop.ArrayBinary | hsilop.c:38-60 | the single file's operators do on the stacks they stand for exactly what the library's operators do |
| Hsilop.NumberAgrees | hsilop.c:79-82 | on a number token the single file's `exec` matches the library's |
| Hsilop.MalformedAgrees | hsilop.c:83-87 | on a malformed number the single file's `exec` matches the library's |
| Hsilop.OperatorAgrees | hsilop.c:99-111 | on an operator token the single file's `exec` matches the library's |
| Hsilop.UnknownAgrees | hsilop.c:94-97 | on an invalid operator the single file's `exec` matches the library's |
| Hsilop.ExecTokenAgrees | hsilop.c:76-115 | on every token that is number-like or not a builtin name, the single file's `exec` has the same output and stack effect as the library's |
| Hsilop.BuiltinNamesAreInvalid | hsilop.c:94-97 | where the library would run `peek` or `pop`, the single file reports an invalid operator and keeps the stack |
| Hsilop.RunArrayRefines | hsilop.c:120-123 | a token loop on arrays whose steps stand for stack steps stands for the token loop on stacks |
| Hsilop.ExecAllAgrees | hsilop.c:119-123 | on a token list free of builtin names, the single file's token loop matches the library's |
| Hsilop.Report | hsilop.c:125-129 | the report after a line is "No result" for an empty stack, and otherwise the top of the stack the array stands for |
| Hsilop.TokenizeExecAgrees | hsilop.c:117-130 | on a line free of builtin names, `tokenize_exec` has the library line's output and stack, then reports the top exactly once |
| Hsilop.ChunkLength | hsilop.c:158 | `fgets` takes at most the limit, stops after the first newline, and takes something from non-empty input |
| Hsilop.Fgets | hsilop.c:158 | a read returns nothing only at end of input; otherwise it returns a non-empty prefix of fewer than `n` characters that ends at a newline, at the size limit or at the end of input |
| Hsilop.ChunkOfLine | hsilop.c:158 | a newline-ended line shorter than the limit is taken whole with its newline |
| Hsilop.FgetsReadsLine | hsilop.c:158 | with room for a line and its newline, `fgets` returns exactly that line |
| Hsilop.CutLine | hsilop.c:160 | cutting a line's chunk at its newline gives back the line |
| Hsilop.ReadFirstLine | hsilop.c:158-160 | the first line of a fitting input is read whole and cut back to itself |
| Hsilop.ReadLoopIsFold | hsilop.c:158-162 | when every line fits the buffer, the `fgets` loop handles the input line by line, in order |
| Hsilop.FoldIsOneTokenStream | hsilop.c:151 | in batch mode one stack persists across lines, so the run ends as one token stream over all lines |
| Hsilop.LineStackAgrees | hsilop.c:117-124 | `tokenize_exec` has the stack effect of the library's token loop on that line |
| Hsilop.LinesStackAgree | hsilop.c:117-124 | the same, for every line of an input |
| Hsilop.BatchFoldAgrees | hsilop.c:158-162 | a batch read loop from the initial array ends as one token stream over all lines does |
| Hsilop.BatchAsWrittenIsProgram | hsilop.c:158 | in batch mode the program as written reads into the whole 256-byte buffer, so only its interactive loop differs from the corrected program |
| Hsilop.BatchIsOneTokenStream | hsilop.c:149-163 | the single file as written, in batch mode, ends as one library token stream over all its lines does: the same fault, or the same final stack |
| Hsilop.BatchAgreesWithLibrary | hsilop.c:149-163 | on lines that fit and name no builtin, the single file's batch run as written and the library's `interpret` both end as the same token stream over all lines |
| Hsilop.SameStreamSameEnd | hsilop.c:149-166 | two runs that end as the same token stream both survive with the same stack or both die of the same fault |
| Hsilop.QuitEndsInteractive | hsilop.c:139-143 | a `quit` line is not executed, nothing after it is read, and the stack is kept |
| Hsilop.ChunkOfLongRun | hsilop.c:137 | a newline-free run at least as long as the limit is cut at exactly the limit |
| Hsilop.FgetsSplitsLongLine | hsilop.c:137 | a line with no room for its newline is read in a first piece of `n - 1` characters |
| Hsilop.SplitInput | hsilop.c:137-139 | that first piece becomes a line of its own, and the remainder becomes the next line of the input |
| Hsilop.SmallBufferSplitsLine | hsilop.c:137-146 | with a small buffer, a too-long line is handled as two lines: its first `n - 1` characters and the rest |
| Hsilop.AsWrittenSplitsInteractiveLine | hsilop.c:137 | as written, interactive mode handles a line of 7 to 12 characters as its first 7 characters and then the rest |
| Hsilop.ProgramReadsWholeLines | hsilop.c:158-162 | with the 256-byte buffer, every line that fits is handled whole and in order, in either mode |
| Hsilop.LongLineAsWritten | hsilop.c:137 | as written, "100 200 +" typed interactively is handled as "100 200" and then " +" |
| Hsilop.LongLineWhole | hsilop.c:158 | with the whole buffer, the same input is handled as one line |
| Scenarios.ApplyOperatorToken | lib/interpret.c:264-279 | an operator character that `strtod` does not read applies its operator |
| Scenarios.PushToken | lib/interpret.c:242-246 | a token read whole pushes its value on top of the stack |
| Scenarios.MalformedToken | lib/interpret.c:247-251 | a token read only partly is reported and pushes nothing |
| Scenarios.ThreeTokens | lib/interpret.c:285-288 | three words separated by single spaces are three tokens |
| Scenarios.TwoNumbers | lib/interpret.c:242-246 | two numbers on a fresh stack leave the first below the second |
| Scenarios.PushFirst | lib/interpret.c:242-246 | a number on a fresh stack leaves just that number |
| Scenarios.PushSecond | lib/interpret.c:242-246 | a second number lands above the first |
| Scenarios.OperatorOnTwo | lib/operators.c:3-25 | an operator on `x` below `y` leaves only `x OP y` |
| Scenarios.BinaryOnPair | lib/operators.c:3-25 | an operator on exactly two values leaves only their combination |
| Scenarios.TwoNumbersThenOperator | lib/interpret.c:284-290 | two numbers and an operator leave one value, with the first number as the left operand |
| Scenarios.OperandOrderOnLine | lib/operators.c:9-13 | the line "3 4 -", and any line like it, leaves `3 - 4`: the value pushed first is the left operand |
| Scenarios.LineByTokens | lib/interpret.c:284-290 | a line runs as the tokens `strtok` finds on it |
| Scenarios.OperatorOnShort | lib/operators.c:4-5 | an operator on fewer than two values is an underflow abort |
| Scenarios.MalformedThenOperator | lib/interpret.c:247-251 | a malformed number pushes nothing, so a following operator on fewer than two values aborts after the one complaint |
| Scenarios.MalformedOperandUnderflows | lib/interpret.c:247-251 | the line "3 4x +", and any line like it, reports the malformed token and then dies of an underflow |
| Scenarios.NumberMalformedOperator | lib/interpret.c:286-289 | the three tokens of that line, on a fresh stack, end in the complaint and the underflow |
| Scenarios.OneLineTokens | lib/interpret.c:285-288 | the token stream of a one-line input is that line's tokens |
| Scenarios.OneLineBatch | lib/interpret.c:315-345 | a one-line batch input prints that line's output, then one peek if the process survives |
| Scenarios.MalformedOperandEndsBatch | lib/interpret.c:341-344 | as the whole batch input, "3 4x +" prints the complaint, dies of the underflow, and never reaches the final peek |
| SplitLine.LineOfTwoNumbers | lib/interpret.c:284-290 | a line of two numbers pushes both, first below second, and prints nothing |
| SplitLine.LineOfOperator | lib/interpret.c:284-290 | a line holding only an operator combines the two values below it |
| SplitLine.LineOfSum | lib/interpret.c:284-290 | a line of two numbers and an operator leaves one result and prints nothing |
| SplitLine.QuietLineReportsTop | hsilop.c:125-129 | a line that prints nothing and leaves a non-empty stack is reported exactly once, by its new top |
| SplitLine.FoldOneLine | hsilop.c:137-146 | the interactive loop over one surviving line that is not `quit` appends that line's output |
| SplitLine.FoldTwoLines | hsilop.c:137-146 | the interactive loop over two surviving lines appends both outputs, in order |
| SplitLine.FoldTwoReports | hsilop.c:137-146 | two lines that each report one event produce those two events, in order |
| SplitLine.AsWrittenReportsPiece | hsilop.c:137 | as written, a line such as "100 200 +" prints the banner, then 200, then 300: an intermediate top is reported |
| SplitLine.SplitPieces | hsilop.c:137 | as written, a 9-character line is handled as its first 7 characters and then the last 2 |
| SplitLine.PiecesReport | hsilop.c:144 | the two pieces from an empty stack report the second number and then the result |
| SplitLine.FirstPieceReports | hsilop.c:125-129 | the piece "100 200" pushes both numbers and reports 200 |
| SplitLine.SecondPieceReports | hsilop.c:125-129 | the piece " +" combines the two numbers and reports the result |
| SplitLine.ProgramReportsResult | hsilop.c:158 | with the whole buffer, "100 200 +" prints the banner and then only 300 |
| SplitLine.SumLine | lib/interpret.c:285-288 | such a line is three tokens, fits the buffer, has no newline and is not `quit` |
| SplitLine.WholeLine | hsilop.c:158-162 | with the whole buffer, one short line is handled whole |
| SplitLine.LineReport | hsilop.c:137-146 | that line, handled from an empty stack, reports only the result |
| SplitLine.WholeLineReports | hsilop.c:117-130 | `tokenize_exec` on that line reports only the result |

## Left out

- Terminal I/O is not modelled: `readline`, `add_history`, prompts, `initialize_readline`, `rl_completion_matches` and `rl_attempted_completion_over`. Input is a given sequence of lines (library) or a given input text (single file), and end of input is the end of that sequence or text.
- `isatty` and `main.c` are not part of this model. The mode is a parameter.
- Output formats are not modelled: `%g`, `%.6g`, the `%-10s` help columns and the "Available commands" headings. Output is a sequence of abstract events. Standard output and standard error are merged into one ordered trace, as an unbuffered terminal would show them.
- IEEE-754 doubles are not modelled. Values are exact reals combined by uninterpreted operators, so division by zero, NaN, infinity and rounding have no counterpart.
- The `strtod` grammar is not modelled. `strtod` is an arbitrary oracle giving the consumed length and the value; leading whitespace, signs, exponents, hex floats, `inf`/`nan` and locale are its business. The end-pointer test `*p != '\0'` is modelled as "consumed a count other than the token's length"; the oracle's count is not bounded by the token's length, so a count past the end is also a malformed number.
- Process exit is not modelled. `exit(EXIT_FAILURE)` becomes an `Abort` or `Died`/`Crashed` ending, and the exit status is not modelled.
- Memory management is not modelled: `malloc` in `stack_new`, `strdup` in the generators, `free` in the loop.
- The `NULL` end markers of the two tables are not modelled. The tables are sequences, and lookup ends at the end of the sequence.
- Tables.Find: does not model the `func != NULL` test of `find_builtin`, because every row of the builtin table has a handler, so the test never fails.
- Repl.RunCommand: the argument string is passed but unused, as in the source. The second integer argument of the command handlers is not modelled.
- The return value of `exec_interactive_cmd` is ignored by the `interpret` loop. It is modelled as `status` but has no effect on the loop.
- `DONE` starts false, because `interpret` is called once per process. A second call after `:quit` is not modelled.
- Hsilop.Fgets: requires a buffer of at least 2 bytes. Both calls in the source pass 8 or 256, so an `fgets` of size 1 or 0 is not modelled.
- Hsilop.PointerSize: `sizeof(char *)` is taken as 8, a 64-bit target. On a 32-bit target the interactive read takes 3 characters instead of 7.
- Hsilop.Fit: lengths are counted in characters, while `fgets` counts bytes. The model reads input as single-byte text; a line with multi-byte UTF-8 characters can fit the model's 256 characters yet be split by the real 255-byte read.
- Text.Tokenize: input is taken to be free of NUL characters. A C string ends at its first NUL, so `strtok`, `strcspn` and `strtod` never see what follows one; the model's strings have no terminator and would keep it.
- The numeric `top` field of the C stack is an `int` bounded by 0..100, so integer overflow cannot arise and is not modelled.

## Findings

| source | as written | input that shows it | evidently intended | confidence | as-written member | corrected member |
|---|---|---|---|---|---|---|
| hsilop.c:137 | `interactive_mode` reads with `fgets(line, sizeof(line), stdin)`. There `line` is a `char *` parameter, so `sizeof(line)` is the pointer size (8), and each read takes at most 7 characters. A longer line is handled in pieces, as separate lines. | "100 200 +" typed in interactive mode prints 200 and then 300, because "100 200" and " +" are handled as two lines | read up to the 256 bytes of `main`'s buffer, as the batch loop does, so the line is handled once and prints only 300 | not executed | SplitLine.AsWrittenReportsPiece | SplitLine.ProgramReportsResult |
