/** What the short interactive read of the single file does to the output: a line such
    as "100 200 +" is handled as "100 200" and " +", so an intermediate result is
    reported that reading the whole line would not report. */
module SplitLine {
  import opened Values
  import opened Outcomes
  import opened Output
  import opened Stacks
  import opened Text
  import opened Tables
  import opened Interpreter
  import opened Hsilop
  import opened Scenarios

  /** A number token is never handed to a builtin. */
  lemma NumberIsNoBuiltin(strtod: Strtod, t: string, v: real)
    requires ReadsAs(strtod, t, v)
    ensures NoBuiltin(strtod, t)
  {
  }

  /** An operator token is never handed to a builtin: builtin names are longer. */
  lemma OperatorIsNoBuiltin(strtod: Strtod, p: string)
    requires OperatorToken(strtod, p)
    ensures NoBuiltin(strtod, p)
  {
  }

  /** Two words separated by a single space are two tokens. */
  lemma TwoWords(a: string, b: string)
    requires a != [] && ' ' !in a && b != [] && ' ' !in b
    ensures Tokenize(a + " " + b) == [a, b]
  {
    assert Join([b]) == b;
    assert Join([a, b]) == a + " " + b;
    TokenizeJoin([a, b]);
  }

  /** A leading space produces no token. */
  lemma SpaceThenWord(w: string)
    requires w != [] && ' ' !in w
    ensures Tokenize(" " + w) == [w]
  {
    assert (" " + w)[0] == ' ' && (" " + w)[1..] == w;
    TokenizeWord(w);
  }

  /** A line none of whose tokens is a builtin name. */
  lemma TokensNoBuiltin(strtod: Strtod, line: string, ts: seq<string>)
    requires Tokenize(line) == ts && forall t :: t in ts ==> NoBuiltin(strtod, t)
    ensures NoBuiltinOn(strtod, line)
  {
  }

  lemma NumbersLineNoBuiltin(strtod: Strtod, line: string, a: string, b: string, x: real, y: real)
    requires Tokenize(line) == [a, b] && ReadsAs(strtod, a, x) && ReadsAs(strtod, b, y)
    ensures NoBuiltinOn(strtod, line)
  {
    NumbersNoBuiltin(strtod, a, b, x, y);
    TokensNoBuiltin(strtod, line, [a, b]);
  }

  lemma NumbersNoBuiltin(strtod: Strtod, a: string, b: string, x: real, y: real)
    requires ReadsAs(strtod, a, x) && ReadsAs(strtod, b, y)
    ensures forall t :: t in [a, b] ==> NoBuiltin(strtod, t)
  {
    NumberIsNoBuiltin(strtod, a, x);
    NumberIsNoBuiltin(strtod, b, y);
  }

  lemma OperatorLineNoBuiltin(strtod: Strtod, line: string, p: string)
    requires Tokenize(line) == [p] && OperatorToken(strtod, p)
    ensures NoBuiltinOn(strtod, line)
  {
    OperatorIsNoBuiltin(strtod, p);
    TokensNoBuiltin(strtod, line, [p]);
  }

  lemma SumLineNoBuiltin(strtod: Strtod, line: string, a: string, b: string, p: string, x: real, y: real)
    requires Tokenize(line) == [a, b, p]
    requires ReadsAs(strtod, a, x) && ReadsAs(strtod, b, y) && OperatorToken(strtod, p)
    ensures NoBuiltinOn(strtod, line)
  {
    NumbersNoBuiltin(strtod, a, b, x, y);
    OperatorIsNoBuiltin(strtod, p);
    assert [a, b, p] == [a, b] + [p];
    TokensNoBuiltin(strtod, line, [a, b, p]);
  }

  /** A line whose tokens are two numbers: both are pushed and nothing is printed. */
  lemma LineOfTwoNumbers(strtod: Strtod, line: string, a: string, b: string, x: real, y: real)
    requires Tokenize(line) == [a, b] && ReadsAs(strtod, a, x) && ReadsAs(strtod, b, y)
    ensures ExecLine(strtod, line, New()) == Step([], Ok(Pair(Num(x), Num(y))))
  {
    assert [a, b] + [] == [a, b];
    TwoNumbers(strtod, a, b, x, y, []);
    LineByTokens(strtod, line, [a, b], New());
  }

  /** A line whose one token is an operator, on two values: they are combined. */
  lemma LineOfOperator(strtod: Strtod, line: string, p: string, x: real, y: real)
    requires Tokenize(line) == [p] && OperatorToken(strtod, p)
    ensures ExecLine(strtod, line, Pair(Num(x), Num(y))) ==
              Step([], Ok(Single(Apply(OperatorOf(p).value, Num(x), Num(y)))))
  {
    RunOneToken(ExecWith(strtod), p, Pair(Num(x), Num(y)));
    OperatorOnTwo(strtod, p, x, y);
    LineByTokens(strtod, line, [p], Pair(Num(x), Num(y)));
  }

  /** A line whose tokens are two numbers and an operator: one result. */
  lemma LineOfSum(strtod: Strtod, line: string, a: string, b: string, p: string, x: real, y: real)
    requires Tokenize(line) == [a, b, p]
    requires ReadsAs(strtod, a, x) && ReadsAs(strtod, b, y) && OperatorToken(strtod, p)
    ensures ExecLine(strtod, line, New()) == Step([], Ok(Single(Apply(OperatorOf(p).value, Num(x), Num(y)))))
  {
    TwoNumbersThenOperator(strtod, a, b, p, x, y);
    LineByTokens(strtod, line, [a, b, p], New());
  }

  /** A line that prints nothing and leaves a non-empty stack: `tokenize_exec` reports
      its top once. */
  lemma QuietLineReportsTop(strtod: Strtod, line: string, a: FixedStack, s: Stack)
    requires NoBuiltinOn(strtod, line) && ExecLine(strtod, line, Abstract(a)) == Step([], Ok(s)) && s != []
    ensures TokenizeExecWith(strtod)(line, a).result.Ok?
    ensures Abstract(TokenizeExecWith(strtod)(line, a).result.value) == s
    ensures TokenizeExecWith(strtod)(line, a).events == [Top(s[|s| - 1])]
  {
    TokenizeExecAgrees(strtod, line, a);
  }

  /** The reference loop over one line that is not `quit` and survives. */
  lemma FoldOneLine(handle: (string, FixedStack) -> ArrayStep, line: string, a: FixedStack,
                    trace: seq<Event>, e: seq<Event>)
    requires line != "quit" && handle(line, a).result.Ok? && handle(line, a).events == e
    ensures FoldLines(handle, true, [line], a, trace) == Finished(handle(line, a).result.value, trace + e)
  {
    assert [line][0] == line && [line][1..] == [];
  }

  /** The reference loop over two lines, neither of them `quit`, that both survive. */
  lemma FoldTwoLines(handle: (string, FixedStack) -> ArrayStep, first: string, second: string,
                     a: FixedStack, trace: seq<Event>, e1: seq<Event>, e2: seq<Event>)
    requires first != "quit" && handle(first, a).result.Ok? && handle(first, a).events == e1
    requires second != "quit" && handle(second, handle(first, a).result.value).result.Ok?
    requires handle(second, handle(first, a).result.value).events == e2
    ensures FoldLines(handle, true, [first, second], a, trace).Finished?
    ensures FoldLines(handle, true, [first, second], a, trace).trace == trace + e1 + e2
  {
    assert [first, second][0] == first && [first, second][1..] == [second];
    FoldOneLine(handle, second, handle(first, a).result.value, trace + e1, e2);
  }

  /** The reference loop over two lines that each report one event. */
  lemma FoldTwoReports(handle: (string, FixedStack) -> ArrayStep, first: string, second: string,
                       a: FixedStack, trace: seq<Event>, u: Event, v: Event)
    requires first != "quit" && handle(first, a).result.Ok? && handle(first, a).events == [u]
    requires second != "quit" && handle(second, handle(first, a).result.value).result.Ok?
    requires handle(second, handle(first, a).result.value).events == [v]
    ensures FoldLines(handle, true, [first, second], a, trace).Finished?
    ensures FoldLines(handle, true, [first, second], a, trace).trace == trace + [u, v]
  {
    FoldTwoLines(handle, first, second, a, trace, [u], [v]);
    assert trace + [u] + [v] == trace + [u, v];
  }

  /** The input text of a single line. */
  lemma OneLineInput(line: string)
    ensures Unlines([line]) == line + "\n"
  {
    UnlinesCons(line, []);
    assert [line] + [] == [line];
  }

  /** `main` as written, interactive, on a line of two numbers taking 7 characters
      together with their space, then an operator: the first 7 characters are handled
      as a line of their own, so the top after the two pushes is reported before the
      result. "100 200 +" prints 200 and then 300. */
  lemma AsWrittenReportsPiece(strtod: Strtod, a: string, b: string, p: string, x: real, y: real)
    requires ReadsAs(strtod, a, x) && ReadsAs(strtod, b, y) && OperatorToken(strtod, p)
    requires '\n' !in a && '\n' !in b && |a| + |b| + 1 == PointerSize - 1
    ensures ProgramAsWritten(strtod, a + " " + b + " " + p + "\n", true).Finished?
    ensures ProgramAsWritten(strtod, a + " " + b + " " + p + "\n", true).trace ==
              [Banner(SingleFileBanner), Top(Num(y)), Top(Apply(OperatorOf(p).value, Num(x), Num(y)))]
  {
    var first, second := a + " " + b, " " + p;
    var line := first + second;
    assert a + " " + b + " " + p == line;
    OperatorTokenShape(strtod, p);
    assert '\n' !in " ";
    SplitPieces(strtod, line, first, second);
    TwoWords(a, b);
    SpaceThenWord(p);
    assert first != "quit" && second != "quit" by {
      assert |first| != |"quit"| && |second| != |"quit"|;
    }
    PiecesReport(strtod, first, second, a, b, p, x, y, Initial(), [Banner(SingleFileBanner)]);
    ThreeEvents(Banner(SingleFileBanner), Top(Num(y)), Top(Apply(OperatorOf(p).value, Num(x), Num(y))));
  }

  /** Three events, the first on its own. */
  lemma ThreeEvents(e: Event, u: Event, v: Event)
    ensures [e] + [u, v] == [e, u, v]
  {
  }

  /** The as-written interactive run on a 9-character line is the reference loop over
      its two pieces. */
  lemma SplitPieces(strtod: Strtod, line: string, first: string, second: string)
    requires line == first + second && |first| == PointerSize - 1 && |second| == 2 && '\n' !in line
    ensures ProgramAsWritten(strtod, line + "\n", true) ==
              FoldLines(TokenizeExecWith(strtod), true, [first, second], Initial(), [Banner(SingleFileBanner)])
  {
    assert line[..PointerSize - 1] == first && line[PointerSize - 1..] == second;
    OneLineInput(line);
    assert [line] + [] == [line];
    AsWrittenSplitsInteractiveLine(strtod, line, []);
    assert [first, second] + [] == [first, second];
  }

  /** The two pieces, handled one after the other from an empty stack: the first
      reports its top, the second the result. */
  lemma PiecesReport(strtod: Strtod, first: string, second: string, a: string, b: string, p: string,
                     x: real, y: real, start: FixedStack, trace: seq<Event>)
    requires Tokenize(first) == [a, b] && Tokenize(second) == [p] && first != "quit" && second != "quit"
    requires ReadsAs(strtod, a, x) && ReadsAs(strtod, b, y) && OperatorToken(strtod, p)
    requires Abstract(start) == New()
    ensures FoldLines(TokenizeExecWith(strtod), true, [first, second], start, trace).Finished?
    ensures FoldLines(TokenizeExecWith(strtod), true, [first, second], start, trace).trace ==
              trace + [Top(Num(y)), Top(Apply(OperatorOf(p).value, Num(x), Num(y)))]
  {
    var h := TokenizeExecWith(strtod);
    var sum := Apply(OperatorOf(p).value, Num(x), Num(y));
    FirstPieceReports(strtod, first, a, b, x, y, start);
    var mid := h(first, start).result.value;
    SecondPieceReports(strtod, second, p, x, y, mid);
    FoldTwoReports(h, first, second, start, trace, Top(Num(y)), Top(sum));
  }

  /** The first piece, "100 200", on an empty stack: two pushes, then the top is
      reported. */
  lemma FirstPieceReports(strtod: Strtod, first: string, a: string, b: string, x: real, y: real,
                          start: FixedStack)
    requires Tokenize(first) == [a, b] && ReadsAs(strtod, a, x) && ReadsAs(strtod, b, y)
    requires Abstract(start) == New()
    ensures TokenizeExecWith(strtod)(first, start).result.Ok?
    ensures Abstract(TokenizeExecWith(strtod)(first, start).result.value) == Pair(Num(x), Num(y))
    ensures TokenizeExecWith(strtod)(first, start).events == [Top(Num(y))]
  {
    LineOfTwoNumbers(strtod, first, a, b, x, y);
    NumbersLineNoBuiltin(strtod, first, a, b, x, y);
    QuietLineReportsTop(strtod, first, start, Pair(Num(x), Num(y)));
  }

  /** The second piece, " +", on the two values: the result is reported. */
  lemma SecondPieceReports(strtod: Strtod, second: string, p: string, x: real, y: real, mid: FixedStack)
    requires Tokenize(second) == [p] && OperatorToken(strtod, p) && Abstract(mid) == Pair(Num(x), Num(y))
    ensures TokenizeExecWith(strtod)(second, mid).result.Ok?
    ensures TokenizeExecWith(strtod)(second, mid).events == [Top(Apply(OperatorOf(p).value, Num(x), Num(y)))]
  {
    LineOfOperator(strtod, second, p, x, y);
    OperatorLineNoBuiltin(strtod, second, p);
    QuietLineReportsTop(strtod, second, mid, Single(Apply(OperatorOf(p).value, Num(x), Num(y))));
  }

  /** `main` with the whole buffer, on the same input: the line is handled once and
      only the result is reported. "100 200 +" prints 300. */
  lemma ProgramReportsResult(strtod: Strtod, a: string, b: string, p: string, x: real, y: real)
    requires ReadsAs(strtod, a, x) && ReadsAs(strtod, b, y) && OperatorToken(strtod, p)
    requires '\n' !in a && '\n' !in b && |a| + |b| + 1 == PointerSize - 1
    ensures Program(strtod, a + " " + b + " " + p + "\n", true).Finished?
    ensures Program(strtod, a + " " + b + " " + p + "\n", true).trace ==
              [Banner(SingleFileBanner), Top(Apply(OperatorOf(p).value, Num(x), Num(y)))]
  {
    var line := a + " " + b + " " + p;
    SumLine(strtod, a, b, p, x, y);
    WholeLine(strtod, line);
    LineReport(strtod, line, a, b, p, x, y, Initial(), [Banner(SingleFileBanner)]);
    TwoEvents(Banner(SingleFileBanner), Top(Apply(OperatorOf(p).value, Num(x), Num(y))));
  }

  /** The line of two numbers and an operator: three tokens, one short line, not `quit`. */
  lemma SumLine(strtod: Strtod, a: string, b: string, p: string, x: real, y: real)
    requires ReadsAs(strtod, a, x) && ReadsAs(strtod, b, y) && OperatorToken(strtod, p)
    requires '\n' !in a && '\n' !in b && |a| + |b| + 1 == PointerSize - 1
    ensures Tokenize(a + " " + b + " " + p) == [a, b, p]
    ensures '\n' !in a + " " + b + " " + p && |a + " " + b + " " + p| + 1 < LineBufferSize
    ensures a + " " + b + " " + p != "quit"
  {
    var line := a + " " + b + " " + p;
    OperatorTokenShape(strtod, p);
    ThreeTokens(a, b, p);
    assert '\n' !in " ";
    assert |line| != |"quit"|;
  }

  /** Two events, one after the other. */
  lemma TwoEvents(e: Event, u: Event)
    ensures [e] + [u] == [e, u]
  {
  }

  /** The corrected interactive run on one short line is the reference loop over it. */
  lemma WholeLine(strtod: Strtod, line: string)
    requires '\n' !in line && |line| + 1 < LineBufferSize
    ensures Program(strtod, line + "\n", true) ==
              FoldLines(TokenizeExecWith(strtod), true, [line], Initial(), [Banner(SingleFileBanner)])
  {
    OneLineInput(line);
    ProgramReadsWholeLines(strtod, [line], true);
  }

  /** The whole line, handled from an empty stack: only the result is reported. */
  lemma LineReport(strtod: Strtod, line: string, a: string, b: string, p: string, x: real, y: real,
                   start: FixedStack, trace: seq<Event>)
    requires Tokenize(line) == [a, b, p] && line != "quit"
    requires ReadsAs(strtod, a, x) && ReadsAs(strtod, b, y) && OperatorToken(strtod, p)
    requires Abstract(start) == New()
    ensures FoldLines(TokenizeExecWith(strtod), true, [line], start, trace).Finished?
    ensures FoldLines(TokenizeExecWith(strtod), true, [line], start, trace).trace ==
              trace + [Top(Apply(OperatorOf(p).value, Num(x), Num(y)))]
  {
    var sum := Apply(OperatorOf(p).value, Num(x), Num(y));
    WholeLineReports(strtod, line, a, b, p, x, y, start);
    FoldOneLine(TokenizeExecWith(strtod), line, start, trace, [Top(sum)]);
  }

  /** The whole line "100 200 +" on an empty stack: the result is reported. */
  lemma WholeLineReports(strtod: Strtod, line: string, a: string, b: string, p: string, x: real, y: real,
                         start: FixedStack)
    requires Tokenize(line) == [a, b, p]
    requires ReadsAs(strtod, a, x) && ReadsAs(strtod, b, y) && OperatorToken(strtod, p)
    requires Abstract(start) == New()
    ensures TokenizeExecWith(strtod)(line, start).result.Ok?
    ensures TokenizeExecWith(strtod)(line, start).events == [Top(Apply(OperatorOf(p).value, Num(x), Num(y)))]
  {
    LineOfSum(strtod, line, a, b, p, x, y);
    SumLineNoBuiltin(strtod, line, a, b, p, x, y);
    QuietLineReportsTop(strtod, line, start, Single(Apply(OperatorOf(p).value, Num(x), Num(y))));
  }
}
