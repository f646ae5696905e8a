/** Worked runs, for every `strtod` that reads the tokens involved the way the C
    library does: operand order, the fate of a malformed number, and the line splitting
    of the single file's interactive loop. */
module Scenarios {
  import opened Values
  import opened Outcomes
  import opened Output
  import opened Stacks
  import opened Operators
  import opened Text
  import opened Tables
  import opened Interpreter
  import opened Repl

  /** A token `strtod` reads whole, as `v`. */
  predicate ReadsAs(strtod: Strtod, t: string, v: real)
  {
    t != [] && ' ' !in t && strtod(t) == Scan(|t|, v)
  }

  /** The stack holding `x` below `y`. */
  function Pair(x: Value, y: Value): Stack
  {
    [x, y]
  }

  /** `s` with `v` pushed on top. */
  function Above(s: Stack, v: Value): Stack
    requires |s| < MaxStackSize
  {
    s + [v]
  }

  lemma AboveNew(v: Value)
    ensures Above(New(), v) == Single(v)
  {
  }

  lemma AboveSingle(x: Value, y: Value)
    ensures Above(Single(x), y) == Pair(x, y)
  {
  }

  /** The stack holding just `v`. */
  function Single(v: Value): Stack
  {
    [v]
  }

  /** A one-character operator token that `strtod` does not take for a number. */
  predicate OperatorToken(strtod: Strtod, p: string)
  {
    OperatorOf(p).Some? && strtod(p).consumed == 0
  }

  /** An operator token is one character, neither a space nor a newline. */
  lemma OperatorTokenShape(strtod: Strtod, p: string)
    requires OperatorToken(strtod, p)
    ensures |p| == 1 && p != [] && ' ' !in p && '\n' !in p
  {
    assert p[0] in "+-/*";
  }

  /** A token `strtod` reads only part of. */
  predicate ReadsPartly(strtod: Strtod, t: string)
  {
    ' ' !in t && 0 < strtod(t).consumed < |t|
  }

  /** An operator character is not number-like and names no builtin, so it applies
      its operator. */
  lemma ApplyOperatorToken(strtod: Strtod, p: string, s: Stack)
    requires OperatorToken(strtod, p)
    ensures ExecWith(strtod)(p, s) == Step([], Binary(OperatorOf(p).value, s))
  {
    OperatorNamesNoBuiltin(p);
    ExecOperator(strtod, p, s);
  }

  /** A token read whole as `v` pushes `v`. */
  lemma PushToken(strtod: Strtod, t: string, v: real, s: Stack)
    requires ReadsAs(strtod, t, v) && |s| < MaxStackSize
    ensures ExecWith(strtod)(t, s) == Step([], Ok(Above(s, Num(v))))
  {
    ExecNumber(strtod, t, s);
  }

  /** A token read only partly is reported and leaves the stack alone. */
  lemma MalformedToken(strtod: Strtod, t: string, s: Stack)
    requires ReadsPartly(strtod, t)
    ensures ExecWith(strtod)(t, s) == Step([InvalidNumber(t)], Ok(s))
  {
    ExecMalformed(strtod, t, s);
  }

  /** Three words separated by single spaces are three tokens. */
  lemma ThreeTokens(a: string, b: string, c: string)
    requires a != [] && ' ' !in a && b != [] && ' ' !in b && c != [] && ' ' !in c
    ensures Tokenize(a + " " + b + " " + c) == [a, b, c]
  {
    assert Join([c]) == c;
    assert Join([b, c]) == b + " " + c;
    assert Join([a, b, c]) == a + " " + (b + " " + c);
    assert a + " " + b + " " + c == a + " " + (b + " " + c);
    TokenizeJoin([a, b, c]);
  }

  /** Two tokens, the first of which prints `e` and keeps the process alive: the
      second runs on what the first left, and its output follows `e`. */
  lemma TwoTokenRun(step: (string, Stack) -> Step, t: string, u: string, s: Stack,
                    e: seq<Event>, next: Stack)
    requires step(t, s) == Step(e, Ok(next))
    ensures RunTokens(step, [t, u], s) == Step(e + step(u, next).events, step(u, next).result)
  {
    assert [t, u][0] == t && [t, u][1..] == [u];
    RunOneToken(step, u, next);
  }

  /** Two quiet tokens at the head of a list hand their stack on to the rest. */
  lemma QuietPair(step: (string, Stack) -> Step, t: string, u: string, rest: seq<string>,
                  s: Stack, s1: Stack, s2: Stack)
    requires step(t, s) == Step([], Ok(s1)) && step(u, s1) == Step([], Ok(s2))
    ensures RunTokens(step, [t, u] + rest, s) == RunTokens(step, rest, s2)
  {
    assert [t, u] + rest == [t] + ([u] + rest);
    QuietFirstToken(step, t, [u] + rest, s, s1);
    QuietFirstToken(step, u, rest, s1, s2);
  }

  /** A quiet token ahead of two more hands its stack on to them. */
  lemma QuietHead(step: (string, Stack) -> Step, t: string, u: string, v: string, s: Stack, s1: Stack)
    requires step(t, s) == Step([], Ok(s1))
    ensures RunTokens(step, [t, u, v], s) == RunTokens(step, [u, v], s1)
  {
    assert [t, u, v] == [t] + [u, v];
    QuietFirstToken(step, t, [u, v], s, s1);
  }

  /** Two quiet tokens and a third: the run is the third token's step. */
  lemma QuietPairThen(step: (string, Stack) -> Step, t: string, u: string, v: string,
                      s: Stack, s1: Stack, s2: Stack)
    requires step(t, s) == Step([], Ok(s1)) && step(u, s1) == Step([], Ok(s2))
    ensures RunTokens(step, [t, u, v], s) == step(v, s2)
  {
    assert [t, u, v] == [t, u] + [v];
    QuietPair(step, t, u, [v], s, s1, s2);
    RunOneToken(step, v, s2);
  }

  /** Two numbers pushed onto a fresh stack, before whatever follows. */
  lemma TwoNumbers(strtod: Strtod, a: string, b: string, x: real, y: real, rest: seq<string>)
    requires ReadsAs(strtod, a, x) && ReadsAs(strtod, b, y)
    ensures ExecTokens(strtod, [a, b] + rest, New()) == RunTokens(ExecWith(strtod), rest, Pair(Num(x), Num(y)))
  {
    PushFirst(strtod, a, x);
    PushSecond(strtod, b, x, y);
    QuietPair(ExecWith(strtod), a, b, rest, New(), Single(Num(x)), Pair(Num(x), Num(y)));
  }

  /** The first push, onto the fresh stack. */
  lemma PushFirst(strtod: Strtod, a: string, x: real)
    requires ReadsAs(strtod, a, x)
    ensures ExecWith(strtod)(a, New()) == Step([], Ok(Single(Num(x))))
  {
    PushToken(strtod, a, x, New());
    AboveNew(Num(x));
  }

  /** The second push, onto the first value. */
  lemma PushSecond(strtod: Strtod, b: string, x: real, y: real)
    requires ReadsAs(strtod, b, y)
    ensures ExecWith(strtod)(b, Single(Num(x))) == Step([], Ok(Pair(Num(x), Num(y))))
  {
    PushToken(strtod, b, y, Single(Num(x)));
    AboveSingle(Num(x), Num(y));
  }

  /** An operator on a stack holding `x` below `y` leaves `x OP y`. */
  lemma OperatorOnTwo(strtod: Strtod, p: string, x: real, y: real)
    requires OperatorToken(strtod, p)
    ensures ExecWith(strtod)(p, Pair(Num(x), Num(y))) == Step([], Ok(Single(Apply(OperatorOf(p).value, Num(x), Num(y)))))
  {
    ApplyOperatorToken(strtod, p, Pair(Num(x), Num(y)));
    BinaryOnPair(OperatorOf(p).value, Num(x), Num(y));
  }

  /** An operator on exactly two values leaves just their combination. */
  lemma BinaryOnPair(op: Op, x: Value, y: Value)
    ensures Binary(op, Pair(x, y)) == Ok(Single(Apply(op, x, y)))
  {
    OperandOrder(op, [], x, y);
    assert [] + [x, y] == Pair(x, y) && [] + [Apply(op, x, y)] == Single(Apply(op, x, y));
  }

  /** The operator token after two numbers. */
  lemma TwoNumbersThenOperator(strtod: Strtod, a: string, b: string, p: string, x: real, y: real)
    requires ReadsAs(strtod, a, x) && ReadsAs(strtod, b, y) && OperatorToken(strtod, p)
    ensures ExecTokens(strtod, [a, b, p], New()) == Step([], Ok(Single(Apply(OperatorOf(p).value, Num(x), Num(y)))))
  {
    PushFirst(strtod, a, x);
    PushSecond(strtod, b, x, y);
    OperatorOnTwo(strtod, p, x, y);
    QuietPairThen(ExecWith(strtod), a, b, p, New(), Single(Num(x)), Pair(Num(x), Num(y)));
  }

  /** "3 4 -", and any line of two numbers and an operator: the value pushed first is
      the left operand, so "3 4 -" leaves 3 - 4. */
  lemma OperandOrderOnLine(strtod: Strtod, a: string, b: string, p: string, x: real, y: real)
    requires ReadsAs(strtod, a, x) && ReadsAs(strtod, b, y) && OperatorToken(strtod, p)
    ensures ExecLine(strtod, a + " " + b + " " + p, New()) ==
              Step([], Ok(Single(Apply(OperatorOf(p).value, Num(x), Num(y)))))
  {
    OperatorTokenShape(strtod, p);
    ThreeTokens(a, b, p);
    TwoNumbersThenOperator(strtod, a, b, p, x, y);
    LineByTokens(strtod, a + " " + b + " " + p, [a, b, p], New());
  }

  /** A line runs as its tokens. */
  lemma LineByTokens(strtod: Strtod, line: string, ts: seq<string>, s: Stack)
    requires Tokenize(line) == ts
    ensures ExecLine(strtod, line, s) == ExecTokens(strtod, ts, s)
  {
  }

  /** An operator on fewer than two values is a stack underflow. */
  lemma OperatorOnShort(strtod: Strtod, p: string, s: Stack)
    requires OperatorToken(strtod, p) && |s| < 2
    ensures ExecWith(strtod)(p, s) == Step([], Abort(Underflow))
  {
    ApplyOperatorToken(strtod, p, s);
  }

  /** A malformed number is reported and pushes nothing, so an operator after it on
      a stack of fewer than two values finds too few operands and the process dies. */
  lemma MalformedThenOperator(strtod: Strtod, c: string, p: string, s: Stack)
    requires ReadsPartly(strtod, c) && OperatorToken(strtod, p) && |s| < 2
    ensures RunTokens(ExecWith(strtod), [c, p], s) == Step([InvalidNumber(c)], Abort(Underflow))
  {
    MalformedToken(strtod, c, s);
    TwoTokenRun(ExecWith(strtod), c, p, s, [InvalidNumber(c)], s);
    OperatorOnShort(strtod, p, s);
  }

  /** "3 4x +", and any number, malformed number and operator: the malformed token is
      reported and skipped, and the operator then has only one operand, which is
      fatal. */
  lemma MalformedOperandUnderflows(strtod: Strtod, a: string, c: string, p: string, x: real)
    requires ReadsAs(strtod, a, x) && ReadsPartly(strtod, c) && OperatorToken(strtod, p)
    ensures ExecLine(strtod, a + " " + c + " " + p, New()) == Step([InvalidNumber(c)], Abort(Underflow))
  {
    OperatorTokenShape(strtod, p);
    ThreeTokens(a, c, p);
    NumberMalformedOperator(strtod, a, c, p, x);
    LineByTokens(strtod, a + " " + c + " " + p, [a, c, p], New());
  }

  /** The three tokens of that line, run on a fresh stack. */
  lemma NumberMalformedOperator(strtod: Strtod, a: string, c: string, p: string, x: real)
    requires ReadsAs(strtod, a, x) && ReadsPartly(strtod, c) && OperatorToken(strtod, p)
    ensures ExecTokens(strtod, [a, c, p], New()) == Step([InvalidNumber(c)], Abort(Underflow))
  {
    PushToken(strtod, a, x, New());
    AboveNew(Num(x));
    QuietHead(ExecWith(strtod), a, c, p, New(), Single(Num(x)));
    MalformedThenOperator(strtod, c, p, Single(Num(x)));
  }

  /** The token stream of a one-line input is that line's tokens. */
  lemma OneLineTokens(line: string)
    ensures AllTokens([line]) == Tokenize(line)
  {
    assert [line][1..] == [];
    assert Tokenize(line) + [] == Tokenize(line);
  }

  /** A batch input of one line: its tokens are the whole token stream. */
  lemma OneLineBatch(strtod: Strtod, line: string)
    ensures BatchOutput(Interpret(strtod, [line], false), ExecLine(strtod, line, New()), 1)
  {
    OneLineTokens(line);
    BatchSession(strtod, [line]);
  }

  /** The same line as the whole batch input: the process dies of the underflow
      after printing the one complaint, and no final peek is printed. */
  lemma MalformedOperandEndsBatch(strtod: Strtod, a: string, c: string, p: string, x: real)
    requires ReadsAs(strtod, a, x) && ReadsPartly(strtod, c) && OperatorToken(strtod, p)
    ensures Interpret(strtod, [a + " " + c + " " + p], false).Died?
    ensures Interpret(strtod, [a + " " + c + " " + p], false).trace == [InvalidNumber(c)]
    ensures Interpret(strtod, [a + " " + c + " " + p], false).fault == Underflow
  {
    MalformedOperandUnderflows(strtod, a, c, p, x);
    OneLineBatch(strtod, a + " " + c + " " + p);
  }
}
